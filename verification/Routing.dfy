/**
  The routing digest. Hashing and encoding are injective, so a digest is represented by the
  canonical snapshot it encodes. The library sort is unstable: `CanonicalForm` admits every
  arrangement it may produce.
 */
module Routing {
  import opened Api
  import opened Ordering

  function MemberKey(m: Member): Pair {
    (m.id, m.name)
  }

  function Stripped(members: seq<Member>): (r: seq<Member>)
    ensures |r| == |members|
    ensures forall i :: 0 <= i < |r| ==> r[i] == members[i].(replayLSN := "")
  {
    seq(|members|, i requires 0 <= i < |members| => members[i].(replayLSN := ""))
  }

  /** Everything a revision stands for except the order of the members. */
  function Frame(s: Snapshot): Snapshot {
    s.(revision := 0, observedAt := 0, validUntil := 0, members := [])
  }

  ghost predicate CanonicalForm(s: Snapshot, c: Snapshot) {
    && c == Frame(s).(members := c.members)
    && Sorted(MemberKey, c.members)
    && multiset(c.members) == multiset(Stripped(s.members))
  }

  /** Equal routing: equal up to member order, replay positions, revision and timestamps. */
  ghost predicate SameRouting(a: Snapshot, b: Snapshot) {
    && a.apiVersion == b.apiVersion && a.cluster == b.cluster && a.available == b.available && a.reason == b.reason
    && a.primaryID == b.primaryID && a.transitioning == b.transitioning && a.connection == b.connection
    && multiset(Stripped(a.members)) == multiset(Stripped(b.members))
  }

  /** The member, wherever it has replayed to. */
  predicate SameMember(m: Member, n: Member) {
    && m.id == n.id && m.name == n.name && m.role == n.role && m.syncState == n.syncState && m.ready == n.ready
    && m.reason == n.reason && m.endpoints == n.endpoints && m.node == n.node && m.zone == n.zone
    && m.region == n.region && m.timeline == n.timeline
  }

  /** Members are told apart by every field but the replay position. */
  lemma MembersAreToldApart(a: seq<Member>, b: seq<Member>, i: nat, j: nat)
    requires i < |a| && j < |b|
    ensures Stripped(a)[i] == Stripped(b)[j] <==> SameMember(a[i], b[j])
  {
  }

  /** Members with one (ID, Name) pair differ in their replay position at most. */
  ghost predicate IdentifiesMembers(s: Snapshot) {
    KeyDetermines(MemberKey, Stripped(s.members))
  }

  method RoutingDigest(s: Snapshot) returns (c: Snapshot)
    ensures CanonicalForm(s, c)
  {
    var members := s.members;
    var i := 0;
    while i < |members|
      invariant 0 <= i <= |members| == |s.members|
      invariant forall j :: 0 <= j < i ==> members[j] == s.members[j].(replayLSN := "")
      invariant forall j :: i <= j < |members| ==> members[j] == s.members[j]
    {
      members := members[i := members[i].(replayLSN := "")];
      i := i + 1;
    }
    assert members == Stripped(s.members);
    SortSorts(MemberKey, members);
    c := s.(revision := 0, observedAt := 0, validUntil := 0, members := Sort(MemberKey, members));
  }

  /** Equal digests mean equal routing, whatever arrangement the sort chose. */
  lemma EqualDigestsMeanSameRouting(a: Snapshot, b: Snapshot, c: Snapshot)
    requires CanonicalForm(a, c) && CanonicalForm(b, c)
    ensures SameRouting(a, b)
  {
  }

  lemma KeyDeterminesByMultiset(a: seq<Member>, b: seq<Member>)
    requires multiset(a) == multiset(b) && KeyDetermines(MemberKey, a)
    ensures KeyDetermines(MemberKey, b)
  {
    assert forall x :: x in b ==> x in multiset(b);
    assert forall x :: x in multiset(a) ==> x in a;
  }

  /** When (ID, Name) identifies members the digest is canonical: equal exactly for equal routing. */
  lemma DigestIsCanonical(a: Snapshot, ca: Snapshot, b: Snapshot, cb: Snapshot)
    requires CanonicalForm(a, ca) && CanonicalForm(b, cb) && IdentifiesMembers(a)
    ensures ca == cb <==> SameRouting(a, b)
  {
    if SameRouting(a, b) {
      KeyDeterminesByMultiset(Stripped(a.members), ca.members);
      SortedIsUnique(MemberKey, ca.members, cb.members);
    } else if ca == cb {
      EqualDigestsMeanSameRouting(a, b, ca);
    }
  }

  /** The unstable sort leaves one digest for the snapshot. */
  ghost predicate OneDigest(s: Snapshot) {
    forall c, d :: CanonicalForm(s, c) && CanonicalForm(s, d) ==> c == d
  }

  /** Exactly when (ID, Name) identifies the members does a snapshot have one digest. */
  lemma DigestIsDeterminedIff(s: Snapshot)
    ensures IdentifiesMembers(s) <==> OneDigest(s)
  {
    if IdentifiesMembers(s) {
      forall c, d | CanonicalForm(s, c) && CanonicalForm(s, d) ensures c == d {
        DigestIsCanonical(s, c, s, d);
      }
    } else {
      var members := Stripped(s.members);
      var x, y :| x in members && y in members && MemberKey(x) == MemberKey(y) && x != y;
      TwoDigests(s, x, y);
    }
  }

  lemma TwoDigests(s: Snapshot, x: Member, y: Member)
    requires x in Stripped(s.members) && y in Stripped(s.members) && MemberKey(x) == MemberKey(y) && x != y
    ensures !OneDigest(s)
  {
    var sorted := Sort(MemberKey, Stripped(s.members));
    SortSorts(MemberKey, Stripped(s.members));
    assert x in multiset(sorted) && y in multiset(sorted);
    var exchanged := ExchangeKeepsSorted(MemberKey, sorted, x, y);
    var c, d := Frame(s).(members := sorted), Frame(s).(members := exchanged);
    assert c.members != d.members;
    assert CanonicalForm(s, c) && CanonicalForm(s, d);
  }

  /** It can fail: two members with one identity give one snapshot two digests. */
  lemma DuplicateMembersBreakTheDigest() returns (s: Snapshot)
    ensures !OneDigest(s)
  {
    var m := Member("uid", "db-1", "unknown", "unknown", false, "", map[], "", "", "", 1, "");
    var n := m.(timeline := 2);
    s := Snapshot("", ClusterRef("", "", ""), 0, 0, 0, false, "", "", false, [m, n], Connection("", []));
    assert Stripped(s.members)[0] == m && Stripped(s.members)[1] == n;
    TwoDigests(s, m, n);
  }
}

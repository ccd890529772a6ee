/** The published snapshot and the ways it is withdrawn. Times are instants as integers;
    revision 0 is the empty revision and n > 0 the n-th one issued by the process. */
module Api {
  import opened Keys

  datatype ClusterRef = ClusterRef(namespace: string, name: string, uid: string)

  datatype Endpoint = Endpoint(host: string, port: nat, serverName: string)

  datatype Member = Member(
    id: string, name: string, role: string, syncState: string, ready: bool, reason: string,
    endpoints: map<string, Endpoint>, node: string, zone: string, region: string,
    timeline: int, replayLSN: string)

  datatype Connection = Connection(database: string, serverCAPEM: seq<bv8>)

  datatype Snapshot = Snapshot(
    apiVersion: string, cluster: ClusterRef, revision: nat, observedAt: int, validUntil: int,
    available: bool, reason: string, primaryID: string, transitioning: bool,
    members: seq<Member>, connection: Connection)
  {
    function Key(): ClusterKey {
      ClusterKey(cluster.namespace, cluster.name)
    }
  }

  const API_VERSION := "connect.cnpg.io/v1alpha1"
  const EXPIRED := "expired"
  const DELETED := "deleted"

  /** Offers no route: not available, no primary and no ready member. */
  ghost predicate Withdrawn(s: Snapshot) {
    && !s.available && s.primaryID == ""
    && (forall m :: m in s.members ==> !m.ready)
  }

  function InvalidatedMembers(members: seq<Member>): (r: seq<Member>)
    ensures |r| == |members|
    ensures forall i :: 0 <= i < |r| ==> r[i] == members[i].(ready := false, reason := EXPIRED)
  {
    seq(|members|, i requires 0 <= i < |members| => members[i].(ready := false, reason := EXPIRED))
  }

  function Invalidated(s: Snapshot): Snapshot {
    s.(available := false, reason := EXPIRED, primaryID := "", members := InvalidatedMembers(s.members))
  }

  function Tombstone(s: Snapshot): Snapshot {
    s.(available := false, reason := DELETED, primaryID := "", transitioning := false, members := [])
  }

  /** The same member, no longer ready because its snapshot has expired. */
  predicate MemberExpired(was: Member, m: Member) {
    && !m.ready && m.reason == "expired"
    && m.id == was.id && m.name == was.name && m.role == was.role && m.syncState == was.syncState
    && m.endpoints == was.endpoints && m.node == was.node && m.zone == was.zone && m.region == was.region
    && m.timeline == was.timeline && m.replayLSN == was.replayLSN
  }

  /** What is left of a snapshot that has expired: the same topology, with no route in it. */
  ghost predicate ExpiredForm(was: Snapshot, s: Snapshot) {
    && !s.available && s.primaryID == "" && s.reason == "expired"
    && s.cluster == was.cluster && s.transitioning == was.transitioning && s.connection == was.connection
    && s.observedAt == was.observedAt && s.validUntil == was.validUntil
    && |s.members| == |was.members| && (forall i :: 0 <= i < |s.members| ==>
         MemberExpired(was.members[i], s.members[i]))
  }

  lemma InvalidatedForm(s: Snapshot)
    ensures ExpiredForm(s, Invalidated(s))
  {
  }

  /** What a deletion leaves: whose record it was and when it was observed. */
  predicate DeletedForm(was: Snapshot, s: Snapshot) {
    && !s.available && s.primaryID == "" && s.reason == "deleted" && !s.transitioning && s.members == []
    && s.apiVersion == was.apiVersion && s.cluster == was.cluster && s.connection == was.connection
    && s.observedAt == was.observedAt && s.validUntil == was.validUntil
  }

  /** Invalidation as the source performs it: member by member. */
  method Invalidate(s: Snapshot) returns (r: Snapshot)
    ensures r == Invalidated(s)
    ensures Withdrawn(r) && r.observedAt == s.observedAt && r.validUntil == s.validUntil && |r.members| == |s.members|
    ensures forall i :: 0 <= i < |r.members| ==> MemberExpired(s.members[i], r.members[i])
  {
    var members := s.members;
    var i := 0;
    while i < |members|
      invariant 0 <= i <= |members| == |s.members|
      invariant forall j :: 0 <= j < i ==> members[j] == s.members[j].(ready := false, reason := EXPIRED)
      invariant forall j :: i <= j < |members| ==> members[j] == s.members[j]
    {
      members := members[i := members[i].(ready := false)];
      members := members[i := members[i].(reason := EXPIRED)];
      i := i + 1;
    }
    assert members == InvalidatedMembers(s.members);
    r := s.(available := false, reason := EXPIRED, primaryID := "", members := members);
  }
}

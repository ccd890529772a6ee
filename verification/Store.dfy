/**
  The discovery store. `State` is what the store holds between critical sections and its member
  functions are those sections; `Store` is the object, proved against them. Watchers are known to
  the store only by identity; a `Notification` carries the watchers captured by a commit.
 */
module Stores {
  import opened Keys
  import opened Api
  import opened Ordering
  import opened Routing

  type Watcher = nat

  datatype Publication = Publication(snapshot: Snapshot, order: nat)

  datatype Record = Record(publication: Publication, routing: Snapshot, expired: bool)

  datatype Notification = Silent | Notification(publication: Publication, watchers: set<Watcher>)

  /** The snapshot a Put commits; `late` says that its validity had already ended. */
  function Prepared(snapshot: Snapshot, late: bool): Snapshot {
    var s := snapshot.(apiVersion := API_VERSION);
    if late then Invalidated(s) else s
  }

  /** Expiry is checked before and after waiting for the lock. */
  predicate Late(snapshot: Snapshot, before: int, locked: int) {
    before >= snapshot.validUntil || locked >= snapshot.validUntil
  }

  datatype State = State(
    records: map<ClusterKey, Record>,
    subscribers: map<ClusterKey, set<Watcher>>,
    unaryDemand: map<ClusterKey, int>,
    sequence: nat,
    publicationOrder: nat,
    expirations: nat,
    handler: bool,
    unaryLease: int)
  {
    function Watchers(key: ClusterKey): set<Watcher> {
      if key in subscribers then subscribers[key] else {}
    }

    /** Commits one publication of `key`. */
    function Commit(key: ClusterKey, snapshot: Snapshot, routing: Snapshot, expired: bool): State {
      this.(publicationOrder := publicationOrder + 1,
            records := records[key := Record(Publication(snapshot, publicationOrder + 1), routing, expired)])
    }

    function NextRevision(): State {
      this.(sequence := sequence + 1)
    }

    predicate PutChanges(snapshot: Snapshot, routing: Snapshot) {
      snapshot.Key() !in records || records[snapshot.Key()].routing != routing
    }

    /** A Put keeps the revision of a record whose routing it does not change. */
    function PutRevision(snapshot: Snapshot, routing: Snapshot): nat {
      if PutChanges(snapshot, routing) then sequence + 1
      else records[snapshot.Key()].publication.snapshot.revision
    }

    /** `routing` is the digest of the prepared snapshot. */
    function Put(snapshot: Snapshot, routing: Snapshot, late: bool): State {
      var s := if PutChanges(snapshot, routing) then NextRevision() else this;
      var published := Prepared(snapshot, late).(revision := PutRevision(snapshot, routing));
      s.Commit(snapshot.Key(), published, routing, late)
    }

    function Notice(key: ClusterKey): Notification
      requires key in records
    {
      Notification(records[key].publication, Watchers(key))
    }

    function DeletedPublication(key: ClusterKey): Publication
      requires key in records
    {
      Publication(Tombstone(records[key].publication.snapshot).(revision := sequence + 1), publicationOrder + 1)
    }

    function Delete(key: ClusterKey): State {
      var s := this.(unaryDemand := unaryDemand - {key});
      if key !in records then s else
      s.(sequence := sequence + 1, publicationOrder := publicationOrder + 1, records := records - {key})
    }

    function DeleteNotice(key: ClusterKey): Notification {
      if key !in records then Silent else Notification(DeletedPublication(key), Watchers(key))
    }

    predicate Expires(key: ClusterKey, now: int) {
      key in records && !records[key].expired && now >= records[key].publication.snapshot.validUntil
    }

    /** `routing` is the digest of the invalidated snapshot; it matters only if the record expires. */
    function ExpireRecord(key: ClusterKey, now: int, routing: Snapshot): State {
      if !Expires(key, now) then this else
      var snapshot := Invalidated(records[key].publication.snapshot).(revision := sequence + 1);
      NextRevision().Commit(key, snapshot, routing, true).(expirations := expirations + 1)
    }

    /** Expiring the records one by one, in the order the map iteration happens to choose. */
    function ExpireAll(order: seq<ClusterKey>, now: int, routings: seq<Snapshot>): State
      requires |routings| == |order|
      decreases |order|
    {
      if order == [] then this else
      var n := |order| - 1;
      ExpireAll(order[..n], now, routings[..n]).ExpireRecord(order[n], now, routings[n])
    }

    function ExpireNotice(key: ClusterKey, now: int, routing: Snapshot): Notification {
      if Expires(key, now) then
        Notification(ExpireRecord(key, now, routing).records[key].publication, Watchers(key))
      else
        Silent
    }

    predicate Leased(key: ClusterKey, now: int) {
      key in unaryDemand && now < unaryDemand[key]
    }

    predicate Demanded(key: ClusterKey, now: int) {
      Watchers(key) != {} || Leased(key, now)
    }

    /** Asking for demand drops a lease that has ended. */
    function PruneLease(key: ClusterKey, now: int): State {
      if Leased(key, now) then this else this.(unaryDemand := unaryDemand - {key})
    }

    function PruneLeases(now: int): State {
      this.(unaryDemand := map k | k in unaryDemand && now < unaryDemand[k] :: unaryDemand[k])
    }

    function RequestRefresh(key: ClusterKey, now: int): State {
      if key !in records then this else
      var s := PruneLease(key, now);
      if unaryLease > 0 then s.(unaryDemand := s.unaryDemand[key := now + unaryLease]) else s
    }

    predicate RefreshFires(key: ClusterKey, now: int) {
      key in records && !Demanded(key, now) && handler
    }

    predicate Accepts(key: ClusterKey, requireExisting: bool) {
      key in records || !requireExisting
    }

    function Register(key: ClusterKey, requireExisting: bool, watcher: Watcher, now: int, routing: Snapshot): State {
      if !Accepts(key, requireExisting) then this else
      var s := ExpireRecord(key, now, routing).PruneLease(key, now);
      s.(subscribers := s.subscribers[key := Watchers(key) + {watcher}])
    }

    predicate RegisterFires(key: ClusterKey, requireExisting: bool, now: int) {
      Accepts(key, requireExisting) && !Demanded(key, now) && handler
    }

    function Unregister(key: ClusterKey, watcher: Watcher): State {
      var rest := Watchers(key) - {watcher};
      this.(subscribers := if rest == {} then subscribers - {key} else subscribers[key := rest])
    }
  }

  const EMPTY := State(map[], map[], map[], 0, 0, 0, false, 0)

  ghost predicate ValidRecord(publicationOrder: nat, sequence: nat, key: ClusterKey, r: Record) {
    && r.publication.snapshot.Key() == key
    && CanonicalForm(r.publication.snapshot, r.routing)
    && (r.expired ==> Withdrawn(r.publication.snapshot))
    && 0 < r.publication.order <= publicationOrder
    && 0 < r.publication.snapshot.revision <= sequence
  }

  ghost predicate Valid(s: State) {
    && (forall k :: k in s.records ==> ValidRecord(s.publicationOrder, s.sequence, k, s.records[k]))
    && (forall k :: k in s.subscribers ==> s.subscribers[k] != {})
  }

  lemma CommitKeepsValid(s: State, sequence: nat, key: ClusterKey, snapshot: Snapshot, routing: Snapshot, expired: bool)
    requires Valid(s) && s.sequence <= sequence && 0 < snapshot.revision <= sequence
    requires snapshot.Key() == key && CanonicalForm(snapshot, routing) && (expired ==> Withdrawn(snapshot))
    ensures Valid(s.(sequence := sequence).Commit(key, snapshot, routing, expired))
  {
  }

  lemma RevisionKeepsForm(x: Snapshot, routing: Snapshot, revision: nat)
    requires CanonicalForm(x, routing)
    ensures CanonicalForm(x.(revision := revision), routing) && (Withdrawn(x) ==> Withdrawn(x.(revision := revision)))
  {
  }

  lemma PutRevisionIsIssued(s: State, snapshot: Snapshot, routing: Snapshot, late: bool)
    requires Valid(s)
    ensures var t := s.Put(snapshot, routing, late);
            s.sequence <= t.sequence && 0 < s.PutRevision(snapshot, routing) <= t.sequence
  {
  }

  /** Every critical section keeps the invariant. */
  lemma PutKeepsValid(s: State, snapshot: Snapshot, routing: Snapshot, late: bool)
    requires Valid(s) && CanonicalForm(Prepared(snapshot, late), routing)
    ensures Valid(s.Put(snapshot, routing, late))
  {
    var x, revision := Prepared(snapshot, late), s.PutRevision(snapshot, routing);
    RevisionKeepsForm(x, routing, revision);
    PutRevisionIsIssued(s, snapshot, routing, late);
    assert late ==> Withdrawn(x);
    CommitKeepsValid(s, s.Put(snapshot, routing, late).sequence, snapshot.Key(), x.(revision := revision), routing,
        late);
  }

  lemma ExpireKeepsValid(s: State, key: ClusterKey, now: int, routing: Snapshot)
    requires Valid(s)
    requires s.Expires(key, now) ==> CanonicalForm(Invalidated(s.records[key].publication.snapshot), routing)
    ensures Valid(s.ExpireRecord(key, now, routing))
  {
    if s.Expires(key, now) {
      var snapshot := Invalidated(s.records[key].publication.snapshot).(revision := s.sequence + 1);
      CommitKeepsValid(s, s.sequence + 1, key, snapshot, routing, true);
    }
  }

  lemma DeleteKeepsValid(s: State, key: ClusterKey)
    requires Valid(s)
    ensures Valid(s.Delete(key))
  {
  }

  lemma RegisterKeepsValid(s: State, key: ClusterKey, requireExisting: bool, watcher: Watcher, now: int,
                           routing: Snapshot)
    requires Valid(s)
    requires s.Expires(key, now) ==> CanonicalForm(Invalidated(s.records[key].publication.snapshot), routing)
    ensures Valid(s.Register(key, requireExisting, watcher, now, routing))
  {
    ExpireKeepsValid(s, key, now, routing);
    var e := s.ExpireRecord(key, now, routing).PruneLease(key, now);
    DemandKeepsValid(s.ExpireRecord(key, now, routing), s.subscribers, e.unaryDemand);
    if s.Accepts(key, requireExisting) {
      DemandKeepsValid(e, e.subscribers[key := s.Watchers(key) + {watcher}], e.unaryDemand);
    }
  }

  lemma DemandKeepsValid(s: State, subscribers: map<ClusterKey, set<Watcher>>, unaryDemand: map<ClusterKey, int>)
    requires Valid(s) && forall k :: k in subscribers ==> subscribers[k] != {}
    ensures Valid(s.(subscribers := subscribers, unaryDemand := unaryDemand))
  {
  }

  /** Expiry publishes the record's topology without its routes, once: at no later time does the same
      record expire again. */
  lemma ExpiryPublishes(s: State, key: ClusterKey, now: int, routing: Snapshot, later: int)
    requires s.Expires(key, now)
    ensures var t := s.ExpireRecord(key, now, routing);
            && ExpiredForm(s.records[key].publication.snapshot, t.records[key].publication.snapshot)
            && t.records[key].publication.snapshot.apiVersion == s.records[key].publication.snapshot.apiVersion
            && !t.Expires(key, later) && t.expirations == s.expirations + 1
  {
    InvalidatedForm(s.records[key].publication.snapshot);
  }

  /** The snapshot as it was put, under the store's own version and revision. */
  predicate PutForm(x: Snapshot, p: Snapshot) {
    && p.apiVersion == "connect.cnpg.io/v1alpha1" && p.cluster == x.cluster && p.observedAt == x.observedAt
    && p.validUntil == x.validUntil && p.available == x.available && p.reason == x.reason && p.primaryID == x.primaryID
    && p.transitioning == x.transitioning && p.members == x.members && p.connection == x.connection
  }

  /** A Put publishes the snapshot as it is, or its topology without routes if it came too late, which
      then does not expire again. */
  lemma PutPublishes(s: State, x: Snapshot, routing: Snapshot, late: bool, now: int)
    ensures var t := s.Put(x, routing, late);
            && x.Key() in t.records
            && var p := t.records[x.Key()].publication.snapshot;
               if late then ExpiredForm(x, p) && p.apiVersion == "connect.cnpg.io/v1alpha1" && !t.Expires(x.Key(), now)
               else PutForm(x, p) && (t.Expires(x.Key(), now) <==> now >= x.validUntil)
  {
    InvalidatedForm(x.(apiVersion := API_VERSION));
  }

  /** Deletion publishes whose record it was, with no topology left in it. */
  lemma DeletionPublishes(s: State, key: ClusterKey)
    requires key in s.records
    ensures DeletedForm(s.records[key].publication.snapshot, s.DeletedPublication(key).snapshot)
    ensures s.DeletedPublication(key).snapshot.revision == s.sequence + 1 && key !in s.Delete(key).records
  {
  }

  /** Fail closed: after the expiry check a record offers no route past its validity, whether or
      not any earlier expiry ran. */
  lemma ReadsFailClosed(s: State, key: ClusterKey, now: int, routing: Snapshot)
    requires Valid(s) && key in s.records
    ensures var p := s.ExpireRecord(key, now, routing).records[key].publication.snapshot;
            now < p.validUntil || Withdrawn(p)
  {
  }

  /** The notification that carries the key's record to its watchers. */
  predicate NoticeOf(s: State, key: ClusterKey, n: Notification) {
    key in s.records && n == s.Notice(key)
  }

  function OrderOf(n: Notification): nat {
    if n.Silent? then 0 else n.publication.order
  }

  ghost predicate Ordered(notices: seq<Notification>, last: nat) {
    && (forall n :: n in notices ==> OrderOf(n) <= last)
    && (forall i, j :: 0 <= i < j < |notices| ==> OrderOf(notices[i]) < OrderOf(notices[j]))
  }

  /** Every record that is not `pending` has been checked. */
  ghost predicate Reviewed(was: State, s: State, pending: set<ClusterKey>, now: int) {
    && s.subscribers == was.subscribers && s.records.Keys == was.records.Keys && pending <= s.records.Keys
    && (forall k :: k in pending ==> s.records[k] == was.records[k])
    && (forall k :: k in s.records && k !in pending ==> !s.Expires(k, now))
  }

  /** Exactly those of them that were due have had their expiry noticed, in order. */
  ghost predicate Noticed(was: State, s: State, pending: set<ClusterKey>, now: int, notices: seq<Notification>) {
    NoticesDue(was, s, pending, now, notices) && DueNoticed(was, s, pending, now, notices)
  }

  ghost predicate NoticesDue(was: State, s: State, pending: set<ClusterKey>, now: int, notices: seq<Notification>) {
    forall n :: n in notices ==> exists k :: k !in pending && was.Expires(k, now) && NoticeOf(s, k, n)
  }

  ghost predicate DueNoticed(was: State, s: State, pending: set<ClusterKey>, now: int, notices: seq<Notification>) {
    forall k :: k !in pending && was.Expires(k, now) ==> exists n :: n in notices && NoticeOf(s, k, n)
  }

  /** `more` also holds the notice of `key` if that was due. */
  ghost predicate NoticeAdded(was: State, t: State, now: int, notices: seq<Notification>, more: seq<Notification>,
                              key: ClusterKey) {
    if was.Expires(key, now) then |more| == |notices| + 1 && more[..|notices|] == notices
        && NoticeOf(t, key, more[|notices|])
    else more == notices
  }

  lemma CheckOne(was: State, s: State, pending: set<ClusterKey>, now: int, key: ClusterKey, routing: Snapshot)
    requires Reviewed(was, s, pending, now) && key in pending
    ensures Reviewed(was, s.ExpireRecord(key, now, routing), pending - {key}, now)
    ensures was.Expires(key, now) <==> s.ExpireNotice(key, now, routing).Notification?
    ensures was.Expires(key, now) ==>
              NoticeOf(s.ExpireRecord(key, now, routing), key, s.ExpireNotice(key, now, routing))
    ensures forall k, n :: k != key ==> (NoticeOf(s.ExpireRecord(key, now, routing), k, n) <==> NoticeOf(s, k, n))
  {
  }

  lemma NoticesStayDue(was: State, s: State, t: State, pending: set<ClusterKey>, now: int, notices: seq<Notification>,
                       more: seq<Notification>, key: ClusterKey)
    requires NoticesDue(was, s, pending, now, notices) && key in pending && NoticeAdded(was, t, now, notices, more, key)
    requires forall k, n :: k != key ==> (NoticeOf(t, k, n) <==> NoticeOf(s, k, n))
    ensures NoticesDue(was, t, pending - {key}, now, more)
  {
    forall m | m in more
      ensures exists k :: k !in pending - {key} && was.Expires(k, now) && NoticeOf(t, k, m)
    {
      if m in notices {
        var k :| k !in pending && was.Expires(k, now) && NoticeOf(s, k, m);
        assert NoticeOf(t, k, m);
      } else {
        assert m == more[|notices|];
      }
    }
  }

  lemma DueStayNoticed(was: State, s: State, t: State, pending: set<ClusterKey>, now: int, notices: seq<Notification>,
                       more: seq<Notification>, key: ClusterKey)
    requires DueNoticed(was, s, pending, now, notices) && key in pending && NoticeAdded(was, t, now, notices, more, key)
    requires forall k, n :: k != key ==> (NoticeOf(t, k, n) <==> NoticeOf(s, k, n))
    ensures DueNoticed(was, t, pending - {key}, now, more)
  {
    forall k | k !in pending - {key} && was.Expires(k, now)
      ensures exists m :: m in more && NoticeOf(t, k, m)
    {
      if k != key {
        var m :| m in notices && NoticeOf(s, k, m);
        assert m in more[..|notices|] && NoticeOf(t, k, m);
      } else {
        assert more[|notices|] in more;
      }
    }
  }

  function WithNotice(notices: seq<Notification>, n: Notification): seq<Notification> {
    if n.Notification? then notices + [n] else notices
  }

  ghost predicate Swept(was: State, s: State, pending: set<ClusterKey>, now: int, notices: seq<Notification>) {
    Reviewed(was, s, pending, now) && Noticed(was, s, pending, now, notices) && Ordered(notices, s.publicationOrder)
  }

  lemma NoticesGrow(s: State, key: ClusterKey, now: int, routing: Snapshot, notices: seq<Notification>)
    requires Ordered(notices, s.publicationOrder)
    ensures Ordered(WithNotice(notices, s.ExpireNotice(key, now, routing)),
            s.ExpireRecord(key, now, routing).publicationOrder)
  {
  }

  lemma SweepNext(was: State, s: State, pending: set<ClusterKey>, now: int, notices: seq<Notification>, key: ClusterKey)
    requires Swept(was, s, pending, now, notices) && key in pending
    ensures forall routing :: Swept(was, s.ExpireRecord(key, now, routing), pending - {key}, now,
                              WithNotice(notices, s.ExpireNotice(key, now, routing)))
  {
    forall routing
      ensures Swept(was, s.ExpireRecord(key, now, routing), pending - {key}, now,
              WithNotice(notices, s.ExpireNotice(key, now, routing)))
    {
      CheckOne(was, s, pending, now, key, routing);
      var more := WithNotice(notices, s.ExpireNotice(key, now, routing));
      assert more[..|notices|] == notices;
      NoticesStayDue(was, s, s.ExpireRecord(key, now, routing), pending, now, notices, more, key);
      DueStayNoticed(was, s, s.ExpireRecord(key, now, routing), pending, now, notices, more, key);
      NoticesGrow(s, key, now, routing, notices);
    }
  }

  class Store {
    var records: map<ClusterKey, Record>
    var subscribers: map<ClusterKey, set<Watcher>>
    var unaryDemand: map<ClusterKey, int>
    var sequence: nat
    var publicationOrder: nat
    var expirations: nat
    var handler: bool
    var unaryLease: int

    ghost function Value(): State
      reads this
    {
      State(records, subscribers, unaryDemand, sequence, publicationOrder, expirations, handler, unaryLease)
    }

    constructor ()
      ensures Value() == EMPTY && Valid(Value())
    {
      records, subscribers, unaryDemand := map[], map[], map[];
      sequence, publicationOrder, expirations := 0, 0, 0;
      handler, unaryLease := false, 0;
    }

    /** From now on every accepted request that finds no demand fires the callback, and a refresh
        lasts for the lease. */
    method SetDemandHandler(lease: int)
      modifies this
      ensures Value() == old(Value()).(handler := true, unaryLease := lease)
      ensures forall k, now :: Value().RefreshFires(k, now) <==> k in records && !Value().Demanded(k, now)
      ensures forall k, now :: k in records && lease > 0 ==>
                forall t :: now <= t < now + lease ==> Value().RequestRefresh(k, now).Demanded(k, t)
    {
      handler := true;
      unaryLease := lease;
    }

    /** `before` and `locked` are the two readings of the clock. */
    method PutDeferred(snapshot: Snapshot, before: int, locked: int)
        returns (changed: bool, notification: Notification, ghost routing: Snapshot)
      modifies this
      ensures CanonicalForm(Prepared(snapshot, Late(snapshot, before, locked)), routing)
      ensures changed == old(Value()).PutChanges(snapshot, routing)
      ensures Value() == old(Value()).Put(snapshot, routing, Late(snapshot, before, locked))
      ensures snapshot.Key() in records && notification == Value().Notice(snapshot.Key())
      ensures var p := records[snapshot.Key()].publication.snapshot;
              if before >= snapshot.validUntil || locked >= snapshot.validUntil then ExpiredForm(snapshot, p)
              else PutForm(snapshot, p)
    {
      changed, notification, routing := CommitPut(snapshot, before, locked);
      PutPublishes(old(Value()), snapshot, routing, Late(snapshot, before, locked), locked);
    }

    method CommitPut(snapshot: Snapshot, before: int, locked: int)
        returns (changed: bool, notification: Notification, ghost routing: Snapshot)
      modifies this
      ensures CanonicalForm(Prepared(snapshot, Late(snapshot, before, locked)), routing)
      ensures changed == old(Value()).PutChanges(snapshot, routing)
      ensures Value() == old(Value()).Put(snapshot, routing, Late(snapshot, before, locked))
      ensures snapshot.Key() in records && notification == Value().Notice(snapshot.Key())
    {
      var key := snapshot.Key();
      var prepared := snapshot.(apiVersion := API_VERSION);
      var expired := before >= prepared.validUntil;
      if expired {
        prepared := Invalidate(prepared);
      }
      var digest := RoutingDigest(prepared);
      if !expired && locked >= prepared.validUntil {
        expired := true;
        prepared := Invalidate(prepared);
        digest := RoutingDigest(prepared);
      }
      changed := key !in records || records[key].routing != digest;
      if changed {
        sequence := sequence + 1;
        prepared := prepared.(revision := sequence);
      } else {
        prepared := prepared.(revision := records[key].publication.snapshot.revision);
      }
      CommitRecord(key, prepared, digest, expired);
      notification := Notification(records[key].publication, if key in subscribers then subscribers[key] else {});
      routing := digest;
    }

    method CommitRecord(key: ClusterKey, snapshot: Snapshot, routing: Snapshot, expired: bool)
      modifies this
      ensures Value() == old(Value()).Commit(key, snapshot, routing, expired)
    {
      publicationOrder := publicationOrder + 1;
      records := records[key := Record(Publication(snapshot, publicationOrder), routing, expired)];
    }

    method DeleteDeferred(key: ClusterKey) returns (notification: Notification)
      modifies this
      ensures Value() == old(Value()).Delete(key)
      ensures notification == old(Value()).DeleteNotice(key)
      ensures notification.Notification? ==>
                && Withdrawn(notification.publication.snapshot)
                && DeletedForm(old(records)[key].publication.snapshot, notification.publication.snapshot)
    {
      unaryDemand := unaryDemand - {key};
      if key !in records {
        return Silent;
      }
      sequence := sequence + 1;
      var deleted := records[key].publication.snapshot.(
        revision := sequence, available := false, reason := DELETED, primaryID := "",
        transitioning := false, members := []);
      records := records - {key};
      publicationOrder := publicationOrder + 1;
      notification := Notification(
        Publication(deleted, publicationOrder), if key in subscribers then subscribers[key] else {});
    }

    method ExpireRecord(key: ClusterKey, now: int) returns (notification: Notification, ghost routing: Snapshot)
      modifies this
      ensures Value() == old(Value()).ExpireRecord(key, now, routing)
      ensures old(Value()).Expires(key, now) ==>
                CanonicalForm(Invalidated(old(records)[key].publication.snapshot), routing)
      ensures notification == old(Value()).ExpireNotice(key, now, routing)
      ensures notification.Notification? ==>
                ExpiredForm(old(records)[key].publication.snapshot, notification.publication.snapshot)
    {
      notification, routing := CommitExpiry(key, now);
      if old(Value()).Expires(key, now) {
        ExpiryPublishes(old(Value()), key, now, routing, now);
      }
    }

    method CommitExpiry(key: ClusterKey, now: int) returns (notification: Notification, ghost routing: Snapshot)
      modifies this
      ensures Value() == old(Value()).ExpireRecord(key, now, routing)
      ensures old(Value()).Expires(key, now) ==>
                CanonicalForm(Invalidated(old(records)[key].publication.snapshot), routing)
      ensures notification == old(Value()).ExpireNotice(key, now, routing)
    {
      ghost var before := Value();
      notification, routing := Silent, Prepared(ANY_SNAPSHOT, false);
      if key !in records || records[key].expired || now < records[key].publication.snapshot.validUntil {
        return;
      }
      var expired := Invalidate(records[key].publication.snapshot);
      sequence := sequence + 1;
      var revised := expired.(revision := sequence);
      var digest := RoutingDigest(expired);
      CommitRecord(key, revised, digest, true);
      expirations := expirations + 1;
      notification := Notification(records[key].publication, if key in subscribers then subscribers[key] else {});
      routing := digest;
    }

    method ReadPublication(key: ClusterKey, now: int)
        returns (published: Option<Publication>, notification: Notification, ghost routing: Snapshot)
      modifies this
      ensures Value() == old(Value()).ExpireRecord(key, now, routing)
      ensures published.Some? <==> key in old(records)
      ensures published.Some? ==>
                && published.value == records[key].publication
                && (Valid(old(Value())) ==>
                      now < published.value.snapshot.validUntil || Withdrawn(published.value.snapshot))
      ensures notification == old(Value()).ExpireNotice(key, now, routing)
    {
      ghost var before := Value();
      notification, routing := ExpireRecord(key, now);
      if key in records {
        if Valid(before) {
          ReadsFailClosed(before, key, now, routing);
        }
        published := Some(records[key].publication);
      } else {
        published := None;
      }
    }

    /** Atomically registers a watcher; `initial` is delivered to it after the lock is released. */
    method Register(key: ClusterKey, requireExisting: bool, watcher: Watcher, now: int)
        returns (accepted: bool, initial: Option<Publication>, expired: Notification, fires: bool,
                 ghost routing: Snapshot)
      modifies this
      ensures accepted == old(Value()).Accepts(key, requireExisting)
      ensures Value() == old(Value()).Register(key, requireExisting, watcher, now, routing)
      ensures fires == old(Value()).RegisterFires(key, requireExisting, now)
      ensures initial.Some? <==> key in old(records)
      ensures initial.Some? ==>
                && initial.value == records[key].publication
                && (Valid(old(Value())) ==>
                      now < initial.value.snapshot.validUntil || Withdrawn(initial.value.snapshot))
      ensures expired == old(Value()).ExpireNotice(key, now, routing)
    {
      accepted, initial, expired, fires := true, None, Silent, false;
      routing := Prepared(ANY_SNAPSHOT, false);
      if key !in records && requireExisting {
        return false, None, Silent, false, routing;
      }
      if key in records {
        initial, expired, routing := ReadPublication(key, now);
      }
      var active := HasDemand(key, now);
      var watchers := if key in subscribers then subscribers[key] else {};
      subscribers := subscribers[key := watchers + {watcher}];
      fires := !active && handler;
    }

    method Unregister(key: ClusterKey, watcher: Watcher)
      modifies this
      ensures Value() == old(Value()).Unregister(key, watcher)
    {
      var rest := (if key in subscribers then subscribers[key] else {}) - {watcher};
      if rest == {} {
        subscribers := subscribers - {key};
      } else {
        subscribers := subscribers[key := rest];
      }
    }

    method HasDemand(key: ClusterKey, now: int) returns (demanded: bool)
      modifies this
      ensures demanded == old(Value()).Demanded(key, now)
      ensures Value() == old(Value()).PruneLease(key, now)
    {
      var unary := key in unaryDemand && now < unaryDemand[key];
      if !unary {
        unaryDemand := unaryDemand - {key};
      }
      demanded := (key in subscribers && |subscribers[key]| > 0) || unary;
    }

    method RequestRefresh(key: ClusterKey, now: int) returns (accepted: bool, fires: bool)
      modifies this
      ensures accepted <==> key in old(records)
      ensures fires == old(Value()).RefreshFires(key, now)
      ensures Value() == old(Value()).RequestRefresh(key, now)
    {
      if key !in records {
        return false, false;
      }
      var active := HasDemand(key, now);
      if unaryLease > 0 {
        unaryDemand := unaryDemand[key := now + unaryLease];
      }
      return true, !active && handler;
    }

    /** One round of the expiry task's loop. */
    method ExpireNext(key: ClusterKey, now: int, notices: seq<Notification>)
          returns (more: seq<Notification>, ghost routing: Snapshot)
      modifies this
      ensures Value() == old(Value()).ExpireRecord(key, now, routing)
      ensures more == WithNotice(notices, old(Value()).ExpireNotice(key, now, routing))
    {
      var notification;
      notification, routing := ExpireRecord(key, now);
      more := notices;
      if notification.Notification? {
        more := notices + [notification];
      }
    }

    /** The periodic expiry task. `order` is the iteration order of the records. */
    method Expire(now: int)
        returns (notifications: seq<Notification>, ghost order: seq<ClusterKey>, ghost routings: seq<Snapshot>)
      modifies this
      ensures |routings| == |order|
      ensures Value() == old(Value()).ExpireAll(order, now, routings).PruneLeases(now)
      ensures records.Keys == old(records.Keys)
      ensures forall k :: k in records ==> !Value().Expires(k, now)
      ensures forall k :: k in unaryDemand ==> now < unaryDemand[k]
      ensures forall n :: n in notifications ==> exists k :: old(Value()).Expires(k, now) && NoticeOf(Value(), k, n)
      ensures forall k :: old(Value()).Expires(k, now) ==> exists n :: n in notifications && NoticeOf(Value(), k, n)
      ensures forall i, j :: 0 <= i < j < |notifications| ==> OrderOf(notifications[i]) < OrderOf(notifications[j])
    {
      notifications, order, routings := [], [], [];
      ghost var was := Value();
      var pending := records.Keys;
      while pending != {}
        invariant |routings| == |order| && Value() == was.ExpireAll(order, now, routings)
        invariant Swept(was, Value(), pending, now, notifications)
      {
        var key :| key in pending;
        ghost var seen, digests := order, routings;
        ghost var routing;
        SweepNext(was, Value(), pending, now, notifications, key);
        notifications, routing := ExpireNext(key, now, notifications);
        pending := pending - {key};
        order, routings := order + [key], routings + [routing];
        assert order[..|seen|] == seen && routings[..|seen|] == digests;
      }
      ghost var swept := Value();
      DropEndedLeases(now);
      assert forall k, n :: NoticeOf(swept, k, n) <==> NoticeOf(Value(), k, n);
    }

    method DropEndedLeases(now: int)
      modifies this`unaryDemand
      ensures Value() == old(Value()).PruneLeases(now)
    {
      var leases := unaryDemand.Keys;
      while leases != {}
        invariant leases <= old(unaryDemand).Keys
        invariant unaryDemand == map k | k in old(unaryDemand)
                  && (k in leases || now < old(unaryDemand)[k]) :: old(unaryDemand)[k]
      {
        var key :| key in leases;
        leases := leases - {key};
        if now >= unaryDemand[key] {
          unaryDemand := unaryDemand - {key};
        }
      }
    }

    /** Known clusters with consumer interest: each once, sorted by namespace and name. */
    method ActiveClusters(now: int) returns (result: seq<ClusterRef>)
      requires Valid(Value())
      modifies this`unaryDemand
      ensures Value() == old(Value()).PruneLeases(now)
      ensures forall r :: r in result <==>
                exists k :: k in records && old(Value()).Demanded(k, now)
                    && r == records[k].publication.snapshot.cluster
      ensures forall i, j :: 0 <= i < j < |result| ==> Precedes(result[i], result[j])
    {
      var active := DemandedKeys(now);
      var refs := CollectRefs(active);
      SortSorts(RefKey, refs);
      result := Sort(RefKey, refs);
      SortedRefs(refs, result);
    }

    method DemandedKeys(now: int) returns (active: set<ClusterKey>)
      requires forall k :: k in subscribers ==> subscribers[k] != {}
      modifies this`unaryDemand
      ensures Value() == old(Value()).PruneLeases(now)
      ensures forall k :: k in active <==> old(Value()).Demanded(k, now)
    {
      ghost var before := Value();
      active := {};
      var watched := subscribers.Keys;
      while watched != {}
        invariant watched <= subscribers.Keys && active == subscribers.Keys - watched
      {
        var key :| key in watched;
        watched := watched - {key};
        active := active + {key};
      }
      var leases := unaryDemand.Keys;
      while leases != {}
        invariant leases <= before.unaryDemand.Keys
        invariant active == subscribers.Keys + set k | k in before.unaryDemand && k !in leases
                  && now < before.unaryDemand[k]
        invariant unaryDemand == map k | k in before.unaryDemand
                  && (k in leases || now < before.unaryDemand[k]) :: before.unaryDemand[k]
      {
        var key :| key in leases;
        leases := leases - {key};
        if now < unaryDemand[key] {
          active := active + {key};
        } else {
          unaryDemand := unaryDemand - {key};
        }
      }
    }

    method CollectRefs(active: set<ClusterKey>) returns (refs: seq<ClusterRef>)
      requires Valid(Value())
      ensures forall r :: r in refs <==>
                exists k :: k in active && k in records && r == records[k].publication.snapshot.cluster
      ensures forall i, j :: 0 <= i < j < |refs| ==> RefKey(refs[i]) != RefKey(refs[j])
    {
      refs := [];
      var pending := active;
      while pending != {}
        invariant pending <= active
        invariant forall r :: r in refs <==>
                    exists k :: k in active - pending && k in records && r == records[k].publication.snapshot.cluster
        invariant forall r :: r in refs ==> ClusterKey(r.namespace, r.name) in active - pending
        invariant forall i, j :: 0 <= i < j < |refs| ==> RefKey(refs[i]) != RefKey(refs[j])
      {
        var key :| key in pending;
        if key in records {
          assert ValidRecord(publicationOrder, sequence, key, records[key]);
          refs := refs + [records[key].publication.snapshot.cluster];
        }
        pending := pending - {key};
      }
    }
  }

  /** By namespace and, within one, by name. */
  predicate Precedes(a: ClusterRef, b: ClusterRef) {
    Less(a.namespace, b.namespace) || (a.namespace == b.namespace && Less(a.name, b.name))
  }

  function RefKey(r: ClusterRef): Pair {
    (r.namespace, r.name)
  }

  lemma SortedRefs(refs: seq<ClusterRef>, result: seq<ClusterRef>)
    requires Sorted(RefKey, result) && multiset(result) == multiset(refs)
    requires forall i, j :: 0 <= i < j < |refs| ==> RefKey(refs[i]) != RefKey(refs[j])
    ensures forall r :: r in result <==> r in refs
    ensures forall i, j :: 0 <= i < j < |result| ==> Precedes(result[i], result[j])
  {
    forall r ensures r in result <==> r in refs {
      assert r in result <==> r in multiset(result);
      assert r in refs <==> r in multiset(refs);
    }
    forall i, j | 0 <= i < j < |result| ensures Precedes(result[i], result[j]) {
      PairLessIsTotal(RefKey(result[i]), RefKey(result[j]));
      if RefKey(result[i]) == RefKey(result[j]) {
        assert result[i] in refs && result[j] in refs;
        assert result[i] == result[j];
        TwiceCounted(result, i, j);
        OnceCounted(refs, result[i]);
      }
    }
  }

  lemma TwiceCounted<T>(s: seq<T>, i: nat, j: nat)
    requires i < j < |s| && s[i] == s[j]
    ensures multiset(s)[s[i]] >= 2
  {
    assert s == s[..i + 1] + s[i + 1..];
    assert s[..i + 1][i] == s[i] && s[i + 1..][j - i - 1] == s[j];
  }

  lemma OnceCounted(refs: seq<ClusterRef>, r: ClusterRef)
    requires forall i, j :: 0 <= i < j < |refs| ==> RefKey(refs[i]) != RefKey(refs[j])
    requires r in refs
    ensures multiset(refs)[r] == 1
  {
    var i :| 0 <= i < |refs| && refs[i] == r;
    assert refs == refs[..i] + ([r] + refs[i + 1..]);
    assert r !in refs[..i] && r !in refs[i + 1..];
  }

  const ANY_SNAPSHOT := Snapshot("", ClusterRef("", "", ""), 0, 0, 0, false, "", "", false, [], Connection("", []))
}

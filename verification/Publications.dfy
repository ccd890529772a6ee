/**
  What the published snapshots themselves guarantee over whole runs: a revision stands for one
  routing, freshness fails closed, and withdrawing a route never renews an observation.
 */
module Publications {
  import opened Keys
  import opened Api
  import opened Ordering
  import opened Routing
  import opened Stores
  import opened Mailboxes
  import opened Watch
  import opened Convergence

  // ---- Revisions ----

  /** One revision, one key and one routing. */
  ghost predicate SharesRevision(p: Publication, q: Publication) {
    p.snapshot.revision == q.snapshot.revision ==>
      p.snapshot.Key() == q.snapshot.Key() && SameRouting(p.snapshot, q.snapshot)
  }

  ghost predicate RevisionsOk(history: seq<Publication>, sequence: nat) {
    && (forall i :: 0 <= i < |history| ==> 0 < history[i].snapshot.revision <= sequence)
    && (forall i, j :: 0 <= i < j < |history| ==> SharesRevision(history[i], history[j]))
  }

  /** How a commit may choose its revision: one never issued, or that of the record it leaves
      unchanged. */
  ghost predicate Revised(store: State, store': State, p: Publication) {
    var key := p.snapshot.Key();
    || (p.snapshot.revision == store'.sequence == store.sequence + 1)
    || (&& key in store.records && store'.sequence == store.sequence
        && p.snapshot.revision == store.records[key].publication.snapshot.revision
        && SameRouting(store.records[key].publication.snapshot, p.snapshot))
  }

  lemma CommitKeepsRevisions(store: State, store': State, history: seq<Publication>, p: Publication)
    requires RevisionsOk(history, store.sequence) && Revised(store, store', p)
    requires p.snapshot.Key() in store.records ==> store.records[p.snapshot.Key()].publication in history
    ensures RevisionsOk(history + [p], store'.sequence)
  {
  }

  lemma PutRevises(store: State, x: Snapshot, routing: Snapshot, late: bool)
    requires Valid(store) && CanonicalForm(Prepared(x, late), routing)
    ensures Revised(store, store.Put(x, routing, late), store.Put(x, routing, late).records[x.Key()].publication)
  {
    if !store.PutChanges(x, routing) {
      var r := store.records[x.Key()];
      assert ValidRecord(store.publicationOrder, store.sequence, x.Key(), r);
      UnchangedRouting(r.publication.snapshot, Prepared(x, late), routing, r.publication.snapshot.revision);
    }
  }

  lemma UnchangedRouting(a: Snapshot, b: Snapshot, c: Snapshot, revision: nat)
    requires CanonicalForm(a, c) && CanonicalForm(b, c)
    ensures SameRouting(a, b.(revision := revision))
  {
  }

  /** A Put takes a revision never issued before exactly when it changes the routing, provided
      (ID, Name) identifies its members; otherwise it keeps the record's. */
  lemma UnchangedPutKeepsRevision(store: State, x: Snapshot, routing: Snapshot, late: bool)
    requires Valid(store) && CanonicalForm(Prepared(x, late), routing) && IdentifiesMembers(Prepared(x, late))
    ensures
      if x.Key() in store.records && SameRouting(store.records[x.Key()].publication.snapshot, Prepared(x, late))
      then store.PutRevision(x, routing) == store.records[x.Key()].publication.snapshot.revision <= store.sequence
      else store.PutRevision(x, routing) == store.sequence + 1
  {
    if x.Key() in store.records {
      var r := store.records[x.Key()];
      assert ValidRecord(store.publicationOrder, store.sequence, x.Key(), r);
      DigestIsCanonical(Prepared(x, late), routing, r.publication.snapshot, r.routing);
    }
  }

  ghost predicate RecordsInHistory(store: State, history: seq<Publication>) {
    forall k :: k in store.records ==> store.records[k].publication in history
  }

  ghost predicate RevisionInv(s: System) {
    && Valid(s.store) && RecordsInHistory(s.store, s.history) && RevisionsOk(s.history, s.store.sequence)
  }

  lemma CommitKeepsRevisionInv(s: System, store: State, n: Notification)
    requires RecordsInHistory(s.store, s.history) && RevisionsOk(s.history, s.store.sequence)
    requires n.Notification? && Revised(s.store, store, n.publication)
    requires Commits(s.store, store, n.publication.snapshot.Key(), n.publication)
    ensures var s' := Published(s, store, n);
            RecordsInHistory(s'.store, s'.history) && RevisionsOk(s'.history, s'.store.sequence)
  {
    CommitKeepsRevisions(s.store, store, s.history, n.publication);
    var h := s.history + [n.publication];
    assert h[|s.history|] == n.publication;
    forall k | k in store.records ensures store.records[k].publication in h {
      if k != n.publication.snapshot.Key() {
        assert store.records[k] == s.store.records[k];
      }
    }
  }

  lemma RecordKey(store: State, key: ClusterKey)
    requires Valid(store) && key in store.records
    ensures store.records[key].publication.snapshot.Key() == key
  {
  }

  lemma ExpireKeepsRevisions(s: System, key: ClusterKey, at: int, routing: Snapshot)
    requires RevisionInv(s) && ExpiryDigest(s.store, key, at, routing)
    ensures RevisionInv(ExpiredAt(s, key, at, routing))
  {
    Stores.ExpireKeepsValid(s.store, key, at, routing);
    if s.store.Expires(key, at) {
      RecordKey(s.store, key);
      ExpireCommits(s.store, key, at, routing);
      CommitKeepsRevisionInv(s, s.store.ExpireRecord(key, at, routing), s.store.ExpireNotice(key, at, routing));
    }
  }

  lemma DeleteKeepsRevisions(s: System, key: ClusterKey)
    requires RevisionInv(s)
    ensures RevisionInv(DeletedAt(s, key))
  {
    Stores.DeleteKeepsValid(s.store, key);
    if key in s.store.records {
      RecordKey(s.store, key);
      DeleteCommits(s.store, key);
      CommitKeepsRevisionInv(s, s.store.Delete(key), s.store.DeleteNotice(key));
    }
  }

  lemma PutKeepsRevisions(s: System, x: Snapshot, routing: Snapshot, late: bool)
    requires RevisionInv(s) && CanonicalForm(Prepared(x, late), routing)
    ensures RevisionInv(PutAt(s, x, routing, late))
  {
    Stores.PutKeepsValid(s.store, x, routing, late);
    PutRevises(s.store, x, routing, late);
    PutCommits(s.store, x, routing, late);
    var store := s.store.Put(x, routing, late);
    CommitKeepsRevisionInv(s, store, store.Notice(x.Key()));
  }

  lemma RegisterKeepsRevisions(s: System, key: ClusterKey, w: Watcher, routing: Snapshot)
    requires RevisionInv(s) && key in s.store.records && ExpiryDigest(s.store, key, s.now, routing)
    ensures RevisionInv(Registered(s, key, w, routing))
  {
    ExpireKeepsRevisions(s, key, s.now, routing);
    Stores.RegisterKeepsValid(s.store, key, true, w, s.now, routing);
    RegisterAdds(s.store, key, w, s.now, routing);
  }

  lemma CancelKeepsRevisions(s: System, w: Watcher)
    requires RevisionInv(s) && w in s.streams
    ensures RevisionInv(Cancelled(s, w))
  {
  }

  lemma StepKeepsRevisions(s: System, a: Action)
    requires RevisionInv(s)
    ensures RevisionInv(Next(s, a))
  {
    if Possible(s, a) {
      match a
      case Put(x, routing, before) => PutKeepsRevisions(s, x, routing, Late(x, before, s.now));
      case Delete(key) => DeleteKeepsRevisions(s, key);
      case Expire(key, at, routing) => ExpireKeepsRevisions(s, key, at, routing);
      case Register(key, w, routing) => RegisterKeepsRevisions(s, key, w, routing);
      case LookUp(w, routing) =>
        ExpireKeepsRevisions(s, s.streams[w].stage.publication.snapshot.Key(), s.now, routing);
      case Cancel(w) => CancelKeepsRevisions(s, w);
      case _ =>
    }
  }

  lemma {:induction false} RunKeepsRevisions(s: System, actions: seq<Action>)
    requires RevisionInv(s)
    ensures RevisionInv(Run(s, actions))
    decreases actions
  {
    if actions != [] {
      StepKeepsRevisions(s, actions[0]);
      RunKeepsRevisions(Next(s, actions[0]), actions[1..]);
    }
  }

  /** Over a whole run, two publications share a revision only if they are of one key and their
      routing is equal up to member order, replay positions and timestamps. */
  lemma RevisionsIdentifyRouting(now: int, actions: seq<Action>, i: nat, j: nat)
    requires i < j < |Run(Start(now), actions).history|
    ensures
      var history := Run(Start(now), actions).history;
      history[i].snapshot.revision == history[j].snapshot.revision ==>
        history[i].snapshot.Key() == history[j].snapshot.Key() &&
        SameRouting(history[i].snapshot, history[j].snapshot)
  {
    RunKeepsRevisions(Start(now), actions);
    var history := Run(Start(now), actions).history;
    assert SharesRevision(history[i], history[j]);
  }

  /** The step commits `p`. */
  ghost predicate Issues(s: System, a: Action, p: Publication) {
    Next(s, a).history == s.history + [p]
  }

  ghost predicate NeverIssued(history: seq<Publication>, revision: nat) {
    forall i :: 0 <= i < |history| ==> history[i].snapshot.revision != revision
  }

  /** The Put leaves the record's routing digest as it is. */
  predicate LeavesRouting(s: System, a: Action) {
    a.Put? && !s.store.PutChanges(a.snapshot, a.routing)
  }

  lemma ExpiryRevises(s: System, key: ClusterKey, at: int, routing: Snapshot)
    requires s.store.Expires(key, at)
    ensures s.store.ExpireNotice(key, at, routing).publication.snapshot.revision == s.store.sequence + 1
    ensures ExpiredAt(s, key, at, routing).history == s.history + [s.store.ExpireNotice(key, at, routing).publication]
  {
  }

  lemma QuietExpiry(s: System, key: ClusterKey, at: int, routing: Snapshot)
    requires !s.store.Expires(key, at)
    ensures ExpiredAt(s, key, at, routing).history == s.history
  {
  }

  lemma PutIssues(s: System, x: Snapshot, routing: Snapshot, late: bool)
    ensures var p := PutAt(s, x, routing, late).history;
            p == s.history + [s.store.Put(x, routing, late).records[x.Key()].publication]
            && s.store.Put(x, routing, late).records[x.Key()].publication.snapshot.revision ==
               s.store.PutRevision(x, routing)
  {
  }

  lemma ExpiryIssuesNew(s: System, key: ClusterKey, at: int, routing: Snapshot, p: Publication)
    requires ExpiredAt(s, key, at, routing).history == s.history + [p]
    ensures p.snapshot.revision == s.store.sequence + 1
  {
    if s.store.Expires(key, at) {
      ExpiryRevises(s, key, at, routing);
      var q := s.store.ExpireNotice(key, at, routing).publication;
      assert (s.history + [q])[|s.history|] == (s.history + [p])[|s.history|];
    } else {
      QuietExpiry(s, key, at, routing);
    }
  }

  lemma IssuesNew(s: System, a: Action, p: Publication)
    requires Possible(s, a) && Issues(s, a, p) && !LeavesRouting(s, a)
    ensures p.snapshot.revision == s.store.sequence + 1
  {
    match a
    case Put(x, routing, before) =>
      PutIssues(s, x, routing, Late(x, before, s.now));
      assert (s.history + [p])[|s.history|] == p;
    case Delete(key) =>
      assert (s.history + [p])[|s.history|] == p;
    case Expire(key, at, routing) => ExpiryIssuesNew(s, key, at, routing, p);
    case Register(key, w, routing) => ExpiryIssuesNew(s, key, s.now, routing, p);
    case LookUp(w, routing) => ExpiryIssuesNew(s, s.streams[w].stage.publication.snapshot.Key(), s.now, routing, p);
    case _ =>
  }

  /** In every run, every commit except a Put that leaves the routing alone takes a revision that no
      earlier publication has, and such a Put keeps its record's. */
  lemma NewRevisionsAreFresh(now: int, actions: seq<Action>, a: Action, p: Publication)
    requires var s := Run(Start(now), actions); Possible(s, a) && Issues(s, a, p)
    ensures var s := Run(Start(now), actions);
            if LeavesRouting(s, a)
            then a.snapshot.Key() in s.store.records
                && p.snapshot.revision == s.store.records[a.snapshot.Key()].publication.snapshot.revision
            else NeverIssued(s.history, p.snapshot.revision)
  {
    RunKeepsRevisions(Start(now), actions);
    var s := Run(Start(now), actions);
    if LeavesRouting(s, a) {
      PutIssues(s, a.snapshot, a.routing, Late(a.snapshot, a.before, s.now));
      assert (s.history + [p])[|s.history|] == p;
    } else {
      IssuesNew(s, a, p);
    }
  }

  // ---- Observation timestamps ----

  /** Expiry and deletion commit the timestamps of the record they withdraw. */
  lemma WithdrawalKeepsTimestamps(store: State, key: ClusterKey, at: int, routing: Snapshot)
    requires key in store.records
    ensures
      var was := store.records[key].publication.snapshot;
      var expired := store.ExpireRecord(key, at, routing).records[key].publication.snapshot;
      var deleted := store.DeletedPublication(key).snapshot;
      && expired.observedAt == was.observedAt && expired.validUntil == was.validUntil
      && deleted.observedAt == was.observedAt && deleted.validUntil == was.validUntil
      && (expired == was || Withdrawn(expired)) && Withdrawn(deleted)
  {
  }

  // ---- Freshness ----

  /** A snapshot that claims to be a tombstone offers no route. */
  ghost predicate SafePut(x: Snapshot) {
    x.reason == DELETED ==> Withdrawn(x)
  }

  ghost predicate SafePuts(actions: seq<Action>) {
    forall i :: 0 <= i < |actions| && actions[i].Put? ==> SafePut(actions[i].snapshot)
  }

  ghost predicate FreshAt(p: Publication, at: int) {
    at < p.snapshot.validUntil || Withdrawn(p.snapshot)
  }

  ghost predicate RecordsSafe(store: State) {
    forall k :: k in store.records ==>
      && SafePut(store.records[k].publication.snapshot)
      && (store.records[k].expired ==> Withdrawn(store.records[k].publication.snapshot))
  }

  ghost predicate CapturedSafe(captured: set<Delivery>) {
    forall d :: d in captured ==> SafePut(d.publication.snapshot)
  }

  ghost predicate StreamFresh(st: Stream) {
    && (st.mailbox.slot.Some? ==> SafePut(st.mailbox.slot.value.snapshot))
    && (!st.stage.Idle? ==> SafePut(st.stage.publication.snapshot))
    && (st.stage.Checked? ==> FreshAt(st.stage.publication, st.stage.at))
    && (forall i :: 0 <= i < |st.sent| ==> FreshAt(st.sent[i].publication, st.sent[i].checkedAt))
  }

  ghost predicate StreamsFresh(streams: map<Watcher, Stream>) {
    forall w :: w in streams ==> StreamFresh(streams[w])
  }

  ghost predicate FreshInv(s: System) {
    && RecordsSafe(s.store) && CapturedSafe(s.captured) && StreamsFresh(s.streams)
  }

  lemma PutStaysSafe(store: State, x: Snapshot, routing: Snapshot, late: bool)
    requires RecordsSafe(store) && SafePut(x)
    ensures RecordsSafe(store.Put(x, routing, late))
  {
  }

  lemma ExpireStaysSafe(store: State, key: ClusterKey, at: int, routing: Snapshot)
    requires RecordsSafe(store)
    ensures
      var store' := store.ExpireRecord(key, at, routing);
      && RecordsSafe(store')
      && (key in store.records ==> FreshAt(store'.records[key].publication, at))
  {
  }

  lemma PublishedStaysSafe(s: System, store: State, n: Notification)
    requires FreshInv(s) && RecordsSafe(store) && (n.Notification? ==> SafePut(n.publication.snapshot))
    ensures FreshInv(Published(s, store, n))
  {
  }

  lemma ExpireKeepsFresh(s: System, key: ClusterKey, at: int, routing: Snapshot)
    requires FreshInv(s)
    ensures FreshInv(ExpiredAt(s, key, at, routing))
  {
    ExpireStaysSafe(s.store, key, at, routing);
    PublishedStaysSafe(s, s.store.ExpireRecord(key, at, routing), s.store.ExpireNotice(key, at, routing));
  }

  lemma RegisterKeepsFresh(s: System, key: ClusterKey, w: Watcher, routing: Snapshot)
    requires FreshInv(s) && key in s.store.records
    ensures FreshInv(Registered(s, key, w, routing))
  {
    ExpireKeepsFresh(s, key, s.now, routing);
    RegisterAdds(s.store, key, w, s.now, routing);
  }

  lemma LookUpKeepsFresh(s: System, w: Watcher, routing: Snapshot)
    requires FreshInv(s) && w in s.streams && s.streams[w].stage.Stale?
    ensures FreshInv(LookedUp(s, w, routing))
  {
    var key := s.streams[w].stage.publication.snapshot.Key();
    ExpireKeepsFresh(s, key, s.now, routing);
    ExpireStaysSafe(s.store, key, s.now, routing);
  }

  lemma StepKeepsFresh(s: System, a: Action)
    requires FreshInv(s) && (a.Put? ==> SafePut(a.snapshot))
    ensures FreshInv(Next(s, a))
  {
    if Possible(s, a) {
      match a
      case Put(x, routing, before) =>
        var late := Late(x, before, s.now);
        PutStaysSafe(s.store, x, routing, late);
        var store := s.store.Put(x, routing, late);
        PublishedStaysSafe(s, store, store.Notice(x.Key()));
      case Delete(key) => PublishedStaysSafe(s, s.store.Delete(key), s.store.DeleteNotice(key));
      case Expire(key, at, routing) => ExpireKeepsFresh(s, key, at, routing);
      case Register(key, w, routing) => RegisterKeepsFresh(s, key, w, routing);
      case LookUp(w, routing) => LookUpKeepsFresh(s, w, routing);
      case _ =>
    }
  }

  lemma {:induction false} RunKeepsFresh(s: System, actions: seq<Action>)
    requires FreshInv(s) && SafePuts(actions)
    ensures FreshInv(Run(s, actions))
    decreases actions
  {
    if actions != [] {
      StepKeepsFresh(s, actions[0]);
      RunKeepsFresh(Next(s, actions[0]), actions[1..]);
    }
  }

  /** Fail closed: in every run whose Puts are safe, each stream message was, when it was checked,
      still within its validity or offered no route. */
  lemma StreamsFailClosed(now: int, actions: seq<Action>, w: Watcher, i: nat)
    requires SafePuts(actions)
    requires w in Run(Start(now), actions).streams && i < |Run(Start(now), actions).streams[w].sent|
    ensures var m := Run(Start(now), actions).streams[w].sent[i]; FreshAt(m.publication, m.checkedAt)
  {
    RunKeepsFresh(Start(now), actions);
  }

  /** And reads fail closed in every run, whatever is put. */
  lemma {:induction false} ReadsAlwaysFailClosed(now: int, actions: seq<Action>, key: ClusterKey, routing: Snapshot)
    requires key in Run(Start(now), actions).store.records
    ensures var s := Run(Start(now), actions);
            FreshAt(s.store.ExpireRecord(key, s.now, routing).records[key].publication, s.now)
  {
    RunKeepsRevisions(Start(now), actions);
    ReadsFailClosed(Run(Start(now), actions).store, key, Run(Start(now), actions).now, routing);
  }

  /** The condition is exact: a Put that claims to be a tombstone but offers a route reaches a
      stream past its validity in some run. */
  lemma UnsafePutLeaks(x: Snapshot) returns (now: int, actions: seq<Action>)
    requires !SafePut(x)
    ensures forall i :: 0 <= i < |actions| && actions[i].Put? ==> actions[i].snapshot == x
    ensures var s := Run(Start(now), actions);
            && 0 in s.streams && s.streams[0].sent != []
            && !FreshAt(s.streams[0].sent[0].publication, s.streams[0].sent[0].checkedAt)
  {
    now := x.validUntil - 1;
    var routing := SomeDigest(Prepared(x, false));
    var p := Publication(Prepared(x, false).(revision := 1), 1);
    actions := LeakRun(x, routing, now, p);
    UnsafeIsNeverFresh(x, p);
  }

  lemma UnsafeIsNeverFresh(x: Snapshot, p: Publication)
    requires !SafePut(x) && p.snapshot == Prepared(x, false).(revision := 1)
    ensures !FreshAt(p, x.validUntil)
  {
    assert p.snapshot.members == x.members;
  }

  lemma LeakRun(x: Snapshot, routing: Snapshot, now: int, p: Publication) returns (actions: seq<Action>)
    requires now == x.validUntil - 1 && x.reason == DELETED && CanonicalForm(Prepared(x, false), routing)
    requires p == Publication(Prepared(x, false).(revision := 1), 1)
    ensures forall i :: 0 <= i < |actions| && actions[i].Put? ==> actions[i].snapshot == x
    ensures var s := Run(Start(now), actions); 0 in s.streams && s.streams[0].sent == [Message(p, x.validUntil)]
  {
    var put, register := Put(x, routing, now), Register(x.Key(), 0, routing);
    LeakIsPut(x, routing, now, p);
    LeakIsWatched(Next(Start(now), put), x.Key(), routing, p);
    var rest := LeakToStream(Next(Next(Start(now), put), register), p);
    actions := [put, register] + rest;
    RunTwoMore(Start(now), put, register, rest);
  }

  lemma RunTwoMore(s: System, a: Action, b: Action, rest: seq<Action>)
    ensures Run(s, [a, b] + rest) == Run(Next(Next(s, a), b), rest)
  {
    var actions := [a, b] + rest;
    assert actions[1..] == [b] + rest && actions[1..][1..] == rest;
  }

  lemma LeakIsPut(x: Snapshot, routing: Snapshot, now: int, p: Publication)
    requires now == x.validUntil - 1 && CanonicalForm(Prepared(x, false), routing)
    requires p == Publication(Prepared(x, false).(revision := 1), 1)
    ensures var s := Next(Start(now), Put(x, routing, now));
            s.store.records == map[x.Key() := Record(p, routing, false)] && s.now == now && s.streams == map[]
  {
  }

  lemma LeakIsWatched(s: System, key: ClusterKey, routing: Snapshot, p: Publication)
    requires s.store.records == map[key := Record(p, routing, false)] && s.streams == map[]
             && s.now < p.snapshot.validUntil
    ensures var t := Next(s, Register(key, 0, routing));
            && 0 in t.streams && t.streams[0] == Stream(key, EMPTY_MAILBOX, Idle, 0, []) && Delivery(p, 0) in t.captured
               && t.now == s.now
  {
  }

  lemma SomeDigest(x: Snapshot) returns (c: Snapshot)
    ensures CanonicalForm(x, c)
  {
    SortSorts(MemberKey, Stripped(x.members));
    c := Frame(x).(members := Sort(MemberKey, Stripped(x.members)));
  }

  lemma LeakToStream(s: System, p: Publication) returns (actions: seq<Action>)
    requires 0 in s.streams && Delivery(p, 0) in s.captured
    requires s.streams[0] == Stream(s.streams[0].key, EMPTY_MAILBOX, Idle, 0, [])
    requires p.order == 1 && p.snapshot.reason == DELETED && s.now == p.snapshot.validUntil - 1
    ensures forall i :: 0 <= i < |actions| ==> !actions[i].Put?
    ensures var s' := Run(s, actions);
            0 in s'.streams && s'.streams[0].sent == [Message(p, p.snapshot.validUntil)]
  {
    var d := Delivery(p, 0);
    var s3 := Next(s, Deliver(d));
    var s4 := Next(s3, Receive(0));
    var s5 := Next(s4, Tick(1));
    var s6 := Next(s5, Check(0));
    var s7 := Next(s6, Send(0));
    actions := [Deliver(d), Receive(0), Tick(1), Check(0), Send(0)];
    RunByStates(actions, [s, s3, s4, s5, s6, s7]);
  }

  lemma {:induction false} RunByStates(actions: seq<Action>, states: seq<System>)
    requires |states| == |actions| + 1
    requires forall i :: 0 <= i < |actions| ==> states[i + 1] == Next(states[i], actions[i])
    ensures Run(states[0], actions) == states[|actions|]
    decreases actions
  {
    if actions != [] {
      RunByStates(actions[1..], states[1..]);
    }
  }
}

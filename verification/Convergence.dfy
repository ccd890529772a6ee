/**
  Every watch stream sends strictly increasing publications and ends with the latest one, in every
  run of the transition system.
 */
module Convergence {
  import opened Keys
  import opened Api
  import opened Stores
  import opened Mailboxes
  import opened Watch

  /** `p` is a committed publication of `key`. */
  ghost predicate Committed(history: seq<Publication>, key: ClusterKey, p: Publication) {
    0 < p.order <= |history| && history[p.order - 1] == p && p.snapshot.Key() == key
  }

  function Last(latest: map<ClusterKey, nat>, key: ClusterKey): nat {
    if key in latest then latest[key] else 0
  }

  /** `n` is the order of the last publication of `key`, 0 if there is none. */
  ghost predicate IsLast(history: seq<Publication>, key: ClusterKey, n: nat) {
    && n <= |history|
    && (n > 0 ==> history[n - 1].snapshot.Key() == key)
    && (forall i :: n <= i < |history| ==> history[i].snapshot.Key() != key)
  }

  ghost predicate LatestOk(history: seq<Publication>, latest: map<ClusterKey, nat>) {
    forall k :: IsLast(history, k, Last(latest, k))
  }

  /** A deletion notice, which offers no route. */
  ghost predicate IsTombstone(x: Snapshot) {
    x.reason == DELETED && Withdrawn(x)
  }

  /** The records are the latest publications; a key without record ended with a tombstone. */
  ghost predicate RecordsOk(store: State, history: seq<Publication>, latest: map<ClusterKey, nat>) {
    && store.publicationOrder == |history|
    && LatestOk(history, latest)
    && (forall k :: k in store.records ==>
          && Committed(history, k, store.records[k].publication)
          && store.records[k].publication.order == Last(latest, k))
    && (forall k :: k !in store.records && k in latest && 0 < latest[k] <= |history| ==>
          IsTombstone(history[latest[k] - 1].snapshot))
  }

  function StageOrder(stage: Stage): nat {
    if stage.Idle? then 0 else stage.publication.order
  }

  function SlotOrder(slot: Option<Publication>): nat {
    if slot.None? then 0 else slot.value.order
  }

  function Max(a: nat, b: nat): nat {
    if a > b then a else b
  }

  /** The newest publication that a stream has sent or still has in hand. */
  function Covered(st: Stream): nat {
    Max(st.lastSent, Max(SlotOrder(st.mailbox.slot), StageOrder(st.stage)))
  }

  ghost predicate Increasing(sent: seq<Message>) {
    forall i, j :: 0 <= i < j < |sent| ==> sent[i].publication.order < sent[j].publication.order
  }

  /** Everything in or sent by a stream was committed for its key, in increasing order. */
  ghost predicate StreamInOrder(history: seq<Publication>, st: Stream) {
    && (st.mailbox.slot.Some? ==>
          Committed(history, st.key, st.mailbox.slot.value) && st.mailbox.slot.value.order <= st.mailbox.order)
    && (!st.stage.Idle? ==> Committed(history, st.key, st.stage.publication))
    && (st.stage.Stale? ==> st.stage.publication.snapshot.reason != DELETED)
    && (forall i :: 0 <= i < |st.sent| ==> Committed(history, st.key, st.sent[i].publication))
    && Increasing(st.sent)
    && st.lastSent == (if st.sent == [] then 0 else st.sent[|st.sent| - 1].publication.order)
  }

  ghost predicate OwedTo(owed: set<Delivery>, w: Watcher, order: nat) {
    exists d :: d in owed && d.watcher == w && d.publication.order == order
  }

  /** The latest publication is on its way or covered, and the mailbox has accepted nothing newer
      than what is covered, unless a newer tombstone is still to come. */
  ghost predicate StreamCovers(last: nat, owed: set<Delivery>, w: Watcher, st: Stream) {
    && (st.mailbox.order <= Covered(st) || st.mailbox.order < last)
    && (last <= Covered(st) || OwedTo(owed, w, last))
  }

  ghost predicate StreamOk(history: seq<Publication>, last: nat, owed: set<Delivery>, w: Watcher, st: Stream) {
    && last > 0
    && StreamInOrder(history, st)
    && (!st.mailbox.closed ==> StreamCovers(last, owed, w, st))
  }

  /** Every captured delivery carries a committed publication of its watcher's key. */
  ghost predicate CapturedOk(history: seq<Publication>, streams: map<Watcher, Stream>, captured: set<Delivery>) {
    forall d :: d in captured ==>
      d.watcher in streams && Committed(history, streams[d.watcher].key, d.publication)
  }

  ghost predicate WatchersOk(store: State, streams: map<Watcher, Stream>) {
    && (forall k, w :: w in store.Watchers(k) ==> w in streams && streams[w].key == k)
    && (forall w :: w in streams && !streams[w].mailbox.closed ==> w in store.Watchers(streams[w].key))
  }

  ghost predicate StreamsOk(
      history: seq<Publication>, latest: map<ClusterKey, nat>, owed: set<Delivery>, streams: map<Watcher, Stream>) {
    forall w :: w in streams ==> StreamOk(history, Last(latest, streams[w].key), owed, w, streams[w])
  }

  ghost predicate Inv(s: System) {
    && RecordsOk(s.store, s.history, s.latest)
    && s.owed <= s.captured
    && CapturedOk(s.history, s.streams, s.captured)
    && WatchersOk(s.store, s.streams)
    && StreamsOk(s.history, s.latest, s.owed, s.streams)
  }

  // ---- Commits ----

  /** What a commit of `p` for `key` does to the store. */
  ghost predicate Commits(store: State, store': State, key: ClusterKey, p: Publication) {
    && store'.publicationOrder == store.publicationOrder + 1 == p.order
    && p.snapshot.Key() == key && store'.subscribers == store.subscribers
    && (forall k :: k != key ==> (k in store'.records <==> k in store.records))
    && (forall k :: k != key && k in store.records ==> store'.records[k] == store.records[k])
    && (if key in store'.records then store'.records[key].publication == p else IsTombstone(p.snapshot))
  }

  lemma CommitKeepsLast(history: seq<Publication>, latest: map<ClusterKey, nat>, p: Publication)
    requires p.order == |history| + 1 && LatestOk(history, latest)
    ensures LatestOk(history + [p], latest[p.snapshot.Key() := p.order])
  {
    var h, l := history + [p], latest[p.snapshot.Key() := p.order];
    forall k ensures IsLast(h, k, Last(l, k)) {
      assert IsLast(history, k, Last(latest, k));
    }
  }

  lemma CommitKeepsRecord(store: State, store': State, history: seq<Publication>, latest: map<ClusterKey, nat>,
                          key: ClusterKey, p: Publication, k: ClusterKey)
    requires RecordsOk(store, history, latest) && Commits(store, store', key, p) && k in store'.records
    ensures var q := store'.records[k].publication;
            Committed(history + [p], k, q) && q.order == Last(latest[key := p.order], k)
  {
    if k != key {
      assert store'.records[k] == store.records[k];
      assert Committed(history, k, store.records[k].publication);
    }
  }

  lemma CommitKeepsTombstone(store: State, store': State, history: seq<Publication>, latest: map<ClusterKey, nat>,
                             key: ClusterKey, p: Publication, k: ClusterKey)
    requires RecordsOk(store, history, latest) && Commits(store, store', key, p)
    requires k !in store'.records && k in latest[key := p.order] && 0 < latest[key := p.order][k]
    ensures latest[key := p.order][k] <= |history| + 1
            && IsTombstone((history + [p])[latest[key := p.order][k] - 1].snapshot)
  {
    if k != key {
      assert k !in store.records && Last(latest, k) == latest[k];
      assert IsLast(history, k, latest[k]);
    }
  }

  lemma CommitKeepsRecords(store: State, store': State, history: seq<Publication>, latest: map<ClusterKey, nat>,
                           key: ClusterKey, p: Publication)
    requires RecordsOk(store, history, latest) && Commits(store, store', key, p)
    ensures RecordsOk(store', history + [p], latest[key := p.order])
  {
    CommitKeepsLast(history, latest, p);
    var h, l := history + [p], latest[key := p.order];
    forall k | k in store'.records
      ensures Committed(h, k, store'.records[k].publication) && store'.records[k].publication.order == Last(l, k)
    {
      CommitKeepsRecord(store, store', history, latest, key, p, k);
    }
    forall k | k !in store'.records && k in l && 0 < l[k] <= |h| ensures IsTombstone(h[l[k] - 1].snapshot) {
      CommitKeepsTombstone(store, store', history, latest, key, p, k);
    }
  }

  lemma CommitKeepsStream(history: seq<Publication>, last: nat, owed: set<Delivery>, p: Publication,
                          more: set<Delivery>, w: Watcher, st: Stream)
    requires StreamOk(history, last, owed, w, st) && IsLast(history, st.key, last)
    requires p.order == |history| + 1
    requires p.snapshot.Key() == st.key && !st.mailbox.closed ==> Delivery(p, w) in more
    ensures StreamOk(history + [p], if p.snapshot.Key() == st.key then p.order else last, owed + more, w, st)
  {
  }

  lemma CommitKeepsStreams(s: System, key: ClusterKey, p: Publication, more: set<Delivery>)
    requires StreamsOk(s.history, s.latest, s.owed, s.streams)
    requires p.order == |s.history| + 1 && p.snapshot.Key() == key
    requires LatestOk(s.history, s.latest)
    requires forall w :: w in s.streams && s.streams[w].key == key && !s.streams[w].mailbox.closed ==>
                           Delivery(p, w) in more
    ensures StreamsOk(s.history + [p], s.latest[key := p.order], s.owed + more, s.streams)
  {
    forall w | w in s.streams
      ensures StreamOk(s.history + [p], Last(s.latest[key := p.order], s.streams[w].key), s.owed + more, w,
              s.streams[w])
    {
      var st := s.streams[w];
      CommitKeepsStream(s.history, Last(s.latest, st.key), s.owed, p, more, w, st);
    }
  }

  lemma CommitKeepsCaptured(s: System, n: Notification)
    requires n.Notification? && n.publication.order == |s.history| + 1
    requires CapturedOk(s.history, s.streams, s.captured)
    requires forall w :: w in n.watchers ==> w in s.streams && s.streams[w].key == n.publication.snapshot.Key()
    ensures CapturedOk(s.history + [n.publication], s.streams, s.captured + Captured(n))
  {
  }

  lemma CommitKeepsInv(s: System, store: State, n: Notification)
    requires Inv(s) && n.Notification? && n.watchers == s.store.Watchers(n.publication.snapshot.Key())
    requires Commits(s.store, store, n.publication.snapshot.Key(), n.publication)
    ensures Inv(Published(s, store, n))
  {
    var p := n.publication;
    CommitKeepsRecords(s.store, store, s.history, s.latest, p.snapshot.Key(), p);
    CommitKeepsCaptured(s, n);
    assert forall w :: w in n.watchers ==> Delivery(p, w) in Captured(n);
    CommitKeepsStreams(s, p.snapshot.Key(), p, Captured(n));
    SameWatchers(s.store, store, s.streams);
  }

  lemma SameWatchers(store: State, store': State, streams: map<Watcher, Stream>)
    requires WatchersOk(store, streams) && store'.subscribers == store.subscribers
    ensures WatchersOk(store', streams)
  {
    assert forall k :: store'.Watchers(k) == store.Watchers(k);
  }

  lemma PutCommits(store: State, x: Snapshot, routing: Snapshot, late: bool)
    ensures Commits(store, store.Put(x, routing, late), x.Key(),
            store.Put(x, routing, late).records[x.Key()].publication)
  {
    assert Prepared(x, late).cluster == x.cluster;
  }

  lemma PutKeepsInv(s: System, x: Snapshot, routing: Snapshot, late: bool)
    requires Inv(s)
    ensures Inv(PutAt(s, x, routing, late))
  {
    var store := s.store.Put(x, routing, late);
    PutCommits(s.store, x, routing, late);
    CommitKeepsInv(s, store, store.Notice(x.Key()));
  }

  lemma ExpireCommits(store: State, key: ClusterKey, at: int, routing: Snapshot)
    requires store.Expires(key, at) && store.records[key].publication.snapshot.Key() == key
    ensures Commits(store, store.ExpireRecord(key, at, routing), key, store.ExpireNotice(key, at, routing).publication)
  {
  }

  lemma ExpireKeepsInv(s: System, key: ClusterKey, at: int, routing: Snapshot)
    requires Inv(s)
    ensures Inv(ExpiredAt(s, key, at, routing))
  {
    if s.store.Expires(key, at) {
      ExpireCommits(s.store, key, at, routing);
      CommitKeepsInv(s, s.store.ExpireRecord(key, at, routing), s.store.ExpireNotice(key, at, routing));
    }
  }

  lemma DeleteCommits(store: State, key: ClusterKey)
    requires key in store.records && store.records[key].publication.snapshot.Key() == key
    ensures Commits(store, store.Delete(key), key, store.DeletedPublication(key))
  {
  }

  lemma DeleteKeepsInv(s: System, key: ClusterKey)
    requires Inv(s)
    ensures Inv(DeletedAt(s, key))
  {
    if key in s.store.records {
      DeleteCommits(s.store, key);
      CommitKeepsInv(s, s.store.Delete(key), s.store.DeleteNotice(key));
    } else {
      SameWatchers(s.store, s.store.Delete(key), s.streams);
    }
  }

  // ---- Steps of one stream ----

  lemma StreamStepKeepsStreams(history: seq<Publication>, latest: map<ClusterKey, nat>, owed: set<Delivery>,
                               streams: map<Watcher, Stream>, w: Watcher, st: Stream, owed': set<Delivery>)
    requires StreamsOk(history, latest, owed, streams) && owed' <= owed
    requires forall d :: d in owed && d !in owed' ==> d.watcher == w
    requires StreamOk(history, Last(latest, st.key), owed', w, st)
    ensures StreamsOk(history, latest, owed', streams[w := st])
  {
  }

  /** A step that changes one stream, and may use up deliveries to it. */
  lemma StreamStepKeepsInv(s: System, w: Watcher, st: Stream, owed: set<Delivery>)
    requires Inv(s) && w in s.streams && owed <= s.owed
    requires st.key == s.streams[w].key && st.mailbox.closed == s.streams[w].mailbox.closed
    requires forall d :: d in s.owed && d !in owed ==> d.watcher == w
    requires StreamOk(s.history, Last(s.latest, st.key), owed, w, st)
    ensures Inv(WithStream(s, w, st).(owed := owed))
  {
    StreamStepKeepsStreams(s.history, s.latest, s.owed, s.streams, w, st, owed);
    SameKeyKeepsCaptured(s.history, s.streams, s.captured, w, st);
    SameKeyKeepsWatchers(s.store, s.streams, w, st);
  }

  lemma SameKeyKeepsCaptured(history: seq<Publication>, streams: map<Watcher, Stream>, captured: set<Delivery>,
                             w: Watcher, st: Stream)
    requires CapturedOk(history, streams, captured) && (w in streams ==> st.key == streams[w].key)
    ensures CapturedOk(history, streams[w := st], captured)
  {
  }

  lemma SameKeyKeepsWatchers(store: State, streams: map<Watcher, Stream>, w: Watcher, st: Stream)
    requires WatchersOk(store, streams)
    requires w in streams && st.key == streams[w].key && st.mailbox.closed == streams[w].mailbox.closed
    ensures WatchersOk(store, streams[w := st])
  {
  }

  lemma DeliverKeepsInv(s: System, d: Delivery)
    requires Inv(s) && d in s.captured
    ensures Inv(DeliveredTo(s, d))
  {
    var st := s.streams[d.watcher];
    DeliverKeepsStream(s.history, Last(s.latest, st.key), s.owed, d, st);
    StreamStepKeepsInv(s, d.watcher, st.(mailbox := st.mailbox.Deliver(d.publication)), s.owed - {d});
  }

  lemma DeliverKeepsStream(history: seq<Publication>, last: nat, owed: set<Delivery>, d: Delivery, st: Stream)
    requires StreamOk(history, last, owed, d.watcher, st)
    requires IsLast(history, st.key, last)
    requires Committed(history, st.key, d.publication)
    ensures StreamOk(history, last, owed - {d}, d.watcher, st.(mailbox := st.mailbox.Deliver(d.publication)))
  {
  }

  lemma ReceiveKeepsInv(s: System, w: Watcher)
    requires Inv(s) && w in s.streams && s.streams[w].stage.Idle? && s.streams[w].mailbox.slot.Some?
    ensures Inv(WithStream(s, w, Taken(s.streams[w])))
  {
    StreamStepKeepsInv(s, w, Taken(s.streams[w]), s.owed);
  }

  lemma CheckKeepsInv(s: System, w: Watcher)
    requires Inv(s) && w in s.streams && s.streams[w].stage.Received?
    ensures Inv(WithStream(s, w, CheckedAt(s.streams[w], s.now)))
  {
    StreamStepKeepsInv(s, w, CheckedAt(s.streams[w], s.now), s.owed);
  }

  lemma SendKeepsStream(history: seq<Publication>, st: Stream)
    requires StreamInOrder(history, st) && st.stage.Checked?
    ensures StreamInOrder(history, Sent(st)) && Covered(Sent(st)) == Covered(st)
  {
  }

  lemma SendKeepsInv(s: System, w: Watcher)
    requires Inv(s) && w in s.streams && s.streams[w].stage.Checked?
    ensures Inv(WithStream(s, w, Sent(s.streams[w])))
  {
    SendKeepsStream(s.history, s.streams[w]);
    StreamStepKeepsInv(s, w, Sent(s.streams[w]), s.owed);
  }

  lemma LookUpKeepsInv(s: System, w: Watcher, routing: Snapshot)
    requires Inv(s) && w in s.streams && s.streams[w].stage.Stale?
    ensures Inv(LookedUp(s, w, routing))
  {
    var key := s.streams[w].stage.publication.snapshot.Key();
    ExpireKeepsInv(s, key, s.now, routing);
    var e := ExpiredAt(s, key, s.now, routing);
    assert e.streams[w] == s.streams[w];
    assert Committed(s.history, s.streams[w].key, s.streams[w].stage.publication);
    LookUpKeepsStream(e.store, e.history, e.latest, e.owed, w, s.streams[w], s.now);
    StreamStepKeepsInv(e, w, s.streams[w].(stage := LookUpStage(e.store, key, s.now)), e.owed);
  }

  /** Jumping to the current record never falls behind; finding none leaves a newer tombstone to come. */
  lemma JumpKeepsStream(history: seq<Publication>, last: nat, owed: set<Delivery>, w: Watcher, st: Stream, stage: Stage)
    requires StreamOk(history, last, owed, w, st) && st.stage.Stale? && IsLast(history, st.key, last)
    requires stage.Checked? ==> Committed(history, st.key, stage.publication) && stage.publication.order == last
    requires !stage.Checked? ==> stage.Idle? && history[last - 1].snapshot.reason == DELETED
    ensures StreamOk(history, last, owed, w, st.(stage := stage))
  {
    var p := st.stage.publication;
    assert Committed(history, st.key, p);
    assert p.order <= last && (stage.Idle? ==> p.order < last);
  }

  function LookUpStage(store: State, key: ClusterKey, now: int): Stage {
    if key in store.records then Checked(store.records[key].publication, now) else Idle
  }

  lemma LookUpKeepsStream(store: State, history: seq<Publication>, latest: map<ClusterKey, nat>, owed: set<Delivery>,
                          w: Watcher, st: Stream, now: int)
    requires RecordsOk(store, history, latest) && StreamOk(history, Last(latest, st.key), owed, w, st)
             && st.stage.Stale?
    ensures StreamOk(history, Last(latest, st.key), owed, w, st.(stage := LookUpStage(store, st.key, now)))
  {
    LastIsRecord(store, history, latest, st.key);
    JumpKeepsStream(history, Last(latest, st.key), owed, w, st, LookUpStage(store, st.key, now));
  }

  // ---- Registration and cancellation ----

  lemma RegisterKeepsInv(s: System, key: ClusterKey, w: Watcher, routing: Snapshot)
    requires Inv(s) && w !in s.streams && key in s.store.records
    ensures Inv(Registered(s, key, w, routing))
  {
    var e := ExpiredAt(s, key, s.now, routing);
    ExpireKeepsInv(s, key, s.now, routing);
    RegisterAdds(s.store, key, w, s.now, routing);
    assert e.store == s.store.ExpireRecord(key, s.now, routing);
    RegisterKeepsRest(e, Registered(s, key, w, routing), key, w, Delivery(e.store.records[key].publication, w));
  }

  lemma RegisterAdds(store: State, key: ClusterKey, w: Watcher, now: int, routing: Snapshot)
    requires key in store.records
    ensures
      var e, r := store.ExpireRecord(key, now, routing), store.Register(key, true, w, now, routing);
      && r.records == e.records && r.publicationOrder == e.publicationOrder && r.sequence == e.sequence
      && key in e.records && r.subscribers == e.subscribers[key := e.Watchers(key) + {w}]
  {
  }

  lemma RegisterKeepsRest(e: System, s': System, key: ClusterKey, w: Watcher, initial: Delivery)
    requires Inv(e) && w !in e.streams && key in e.store.records
    requires initial == Delivery(e.store.records[key].publication, w)
    requires s'.store.records == e.store.records && s'.store.publicationOrder == e.store.publicationOrder
    requires s'.store.subscribers == e.store.subscribers[key := e.store.Watchers(key) + {w}]
    requires s'.streams == e.streams[w := Stream(key, EMPTY_MAILBOX, Idle, 0, [])]
    requires s'.captured == e.captured + {initial} && s'.owed == e.owed + {initial}
    requires s'.history == e.history && s'.latest == e.latest
    ensures Inv(s')
  {
    RegisterKeepsStreams(e.history, e.latest, e.owed, e.streams, key, initial);
    RegisterKeepsWatchers(e.store, s'.store, e.streams, key, w);
    SameKeyKeepsCaptured(e.history, e.streams, e.captured, w, s'.streams[w]);
    assert CapturedOk(s'.history, s'.streams, s'.captured);
  }

  lemma RegisterKeepsStreams(history: seq<Publication>, latest: map<ClusterKey, nat>, owed: set<Delivery>,
                             streams: map<Watcher, Stream>, key: ClusterKey, initial: Delivery)
    requires StreamsOk(history, latest, owed, streams) && initial.watcher !in streams
    requires 0 < initial.publication.order == Last(latest, key)
    ensures StreamsOk(history, latest, owed + {initial},
            streams[initial.watcher := Stream(key, EMPTY_MAILBOX, Idle, 0, [])])
  {
  }

  lemma RegisterKeepsWatchers(store: State, store': State, streams: map<Watcher, Stream>, key: ClusterKey, w: Watcher)
    requires WatchersOk(store, streams) && w !in streams
    requires store'.subscribers == store.subscribers[key := store.Watchers(key) + {w}]
    ensures WatchersOk(store', streams[w := Stream(key, EMPTY_MAILBOX, Idle, 0, [])])
  {
    forall k ensures store'.Watchers(k) == if k == key then store.Watchers(k) + {w} else store.Watchers(k) {
    }
  }

  lemma CancelKeepsInv(s: System, w: Watcher)
    requires Inv(s) && w in s.streams
    ensures Inv(Cancelled(s, w))
  {
    var st := s.streams[w].(mailbox := s.streams[w].mailbox.Close(), stage := Idle);
    assert StreamOk(s.history, Last(s.latest, st.key), s.owed, w, st);
    StreamStepKeepsStreams(s.history, s.latest, s.owed, s.streams, w, st, s.owed);
    SameKeyKeepsCaptured(s.history, s.streams, s.captured, w, st);
    CancelKeepsWatchers(s.store, s.streams, w, st);
  }

  lemma CancelKeepsWatchers(store: State, streams: map<Watcher, Stream>, w: Watcher, st: Stream)
    requires WatchersOk(store, streams) && w in streams && st.key == streams[w].key && st.mailbox.closed
    ensures WatchersOk(store.Unregister(st.key, w), streams[w := st])
  {
    var store' := store.Unregister(st.key, w);
    forall k ensures store'.Watchers(k) == if k == st.key then store.Watchers(k) - {w} else store.Watchers(k) {
    }
  }

  lemma StepKeepsInv(s: System, a: Action)
    requires Inv(s)
    ensures Inv(Next(s, a))
  {
    if Possible(s, a) {
      match a
      case Put(x, routing, before) => PutKeepsInv(s, x, routing, Late(x, before, s.now));
      case Delete(key) => DeleteKeepsInv(s, key);
      case Expire(key, at, routing) => ExpireKeepsInv(s, key, at, routing);
      case Register(key, w, routing) => RegisterKeepsInv(s, key, w, routing);
      case Deliver(d) => DeliverKeepsInv(s, d);
      case Receive(w) => ReceiveKeepsInv(s, w);
      case Check(w) => CheckKeepsInv(s, w);
      case LookUp(w, routing) => LookUpKeepsInv(s, w, routing);
      case Send(w) => SendKeepsInv(s, w);
      case Cancel(w) => CancelKeepsInv(s, w);
      case Tick(_) =>
    }
  }

  lemma {:induction false} RunKeepsInv(s: System, actions: seq<Action>)
    requires Inv(s)
    ensures Inv(Run(s, actions))
    decreases actions
  {
    if actions != [] {
      StepKeepsInv(s, actions[0]);
      RunKeepsInv(Next(s, actions[0]), actions[1..]);
    }
  }

  // ---- The theorems ----

  /** In every run a stream sends strictly increasing publication orders, all committed for its key. */
  lemma StreamsNeverRewind(now: int, actions: seq<Action>, w: Watcher)
    requires w in Run(Start(now), actions).streams
    ensures
      var s := Run(Start(now), actions);
      var st := s.streams[w];
      && Increasing(st.sent)
      && (forall i :: 0 <= i < |st.sent| ==> Committed(s.history, st.key, st.sent[i].publication))
  {
    RunKeepsInv(Start(now), actions);
  }

  /** Nothing is left to happen for an open stream. */
  ghost predicate Drained(s: System, w: Watcher) {
    && Open(s, w) && s.streams[w].stage.Idle? && s.streams[w].mailbox.slot.None?
    && (forall d :: d in s.owed ==> d.watcher != w)
  }

  /** The last message is the latest publication of the stream's key, tombstones included. */
  ghost predicate EndsWithLatest(s: System, st: Stream) {
    && st.sent != []
    && var message := st.sent[|st.sent| - 1].publication;
    && Committed(s.history, st.key, message) && IsLast(s.history, st.key, message.order)
    && (st.key in s.store.records ==> message == s.store.records[st.key].publication)
    && (st.key !in s.store.records ==> IsTombstone(message.snapshot))
  }

  /** In every run, once all captured deliveries have run and the mailbox is drained, the last
      message of an open stream is the latest publication of its key, tombstones included. */
  lemma StreamsConverge(now: int, actions: seq<Action>, w: Watcher)
    requires Drained(Run(Start(now), actions), w)
    ensures EndsWithLatest(Run(Start(now), actions), Run(Start(now), actions).streams[w])
  {
    RunKeepsInv(Start(now), actions);
    DrainedIsLatest(Run(Start(now), actions), w);
  }

  lemma DrainedIsLatest(s: System, w: Watcher)
    requires Inv(s) && Drained(s, w)
    ensures EndsWithLatest(s, s.streams[w])
  {
    var st := s.streams[w];
    var last := Last(s.latest, st.key);
    DrainedSentLast(s.history, last, s.owed, w, st);
    LastIsRecord(s.store, s.history, s.latest, st.key);
  }

  lemma LastIsRecord(store: State, history: seq<Publication>, latest: map<ClusterKey, nat>, key: ClusterKey)
    requires RecordsOk(store, history, latest) && Last(latest, key) > 0
    ensures IsLast(history, key, Last(latest, key))
    ensures key in store.records ==> store.records[key].publication == history[Last(latest, key) - 1]
    ensures key !in store.records ==> IsTombstone(history[Last(latest, key) - 1].snapshot)
  {
  }

  lemma DrainedSentLast(history: seq<Publication>, last: nat, owed: set<Delivery>, w: Watcher, st: Stream)
    requires StreamOk(history, last, owed, w, st) && IsLast(history, st.key, last)
    requires !st.mailbox.closed && st.stage.Idle? && st.mailbox.slot.None?
    requires forall d :: d in owed ==> d.watcher != w
    ensures st.sent != [] && st.lastSent == last
    ensures Committed(history, st.key, st.sent[|st.sent| - 1].publication)
  {
  }
}

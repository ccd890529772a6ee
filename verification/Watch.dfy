/**
  The store, its notifications in flight and its watch streams as one transition system. A commit
  captures its watchers; each captured delivery runs later, in any order and any number of times.
  An action that is not possible in a state leaves it unchanged.
 */
module Watch {
  import opened Keys
  import opened Api
  import opened Routing
  import opened Stores
  import opened Mailboxes

  datatype Delivery = Delivery(publication: Publication, watcher: Watcher)

  /** Where the loop of a stream is with the publication in its hand. */
  datatype Stage =
    | Idle
    | Received(publication: Publication)
    | Stale(publication: Publication)
    | Checked(publication: Publication, at: int)

  datatype Message = Message(publication: Publication, checkedAt: int)

  datatype Stream = Stream(
    key: ClusterKey, mailbox: Mailbox, stage: Stage, lastSent: nat, sent: seq<Message>)

  /** `history` lists every publication ever committed and `latest` the last order of each key;
      a delivery stays `owed` until it first runs. */
  datatype System = System(
    store: State, streams: map<Watcher, Stream>, captured: set<Delivery>, owed: set<Delivery>,
    history: seq<Publication>, latest: map<ClusterKey, nat>, now: int)

  datatype Action =
    | Put(snapshot: Snapshot, routing: Snapshot, before: int)
    | Delete(key: ClusterKey)
    | Expire(key: ClusterKey, at: int, routing: Snapshot)
    | Register(key: ClusterKey, watcher: Watcher, routing: Snapshot)
    | Deliver(delivery: Delivery)
    | Receive(watcher: Watcher)
    | Check(watcher: Watcher)
    | LookUp(watcher: Watcher, routing: Snapshot)
    | Send(watcher: Watcher)
    | Cancel(watcher: Watcher)
    | Tick(elapsed: nat)

  function Start(now: int): System {
    System(EMPTY.(handler := true), map[], {}, {}, [], map[], now)
  }

  function Captured(n: Notification): set<Delivery> {
    if n.Silent? then {} else set w | w in n.watchers :: Delivery(n.publication, w)
  }

  /** The effect of a commit outside the store. */
  function Published(s: System, store: State, n: Notification): System {
    if n.Silent? then s.(store := store) else
    s.(store := store, history := s.history + [n.publication],
       latest := s.latest[n.publication.snapshot.Key() := n.publication.order],
       captured := s.captured + Captured(n), owed := s.owed + Captured(n))
  }

  ghost predicate ExpiryDigest(store: State, key: ClusterKey, at: int, routing: Snapshot) {
    store.Expires(key, at) ==> CanonicalForm(Invalidated(store.records[key].publication.snapshot), routing)
  }

  predicate Open(s: System, w: Watcher) {
    w in s.streams && !s.streams[w].mailbox.closed
  }

  ghost predicate Possible(s: System, a: Action) {
    match a
    case Put(x, routing, before) => before <= s.now && CanonicalForm(Prepared(x, Late(x, before, s.now)), routing)
    case Delete(_) => true
    case Expire(key, at, routing) => at <= s.now && ExpiryDigest(s.store, key, at, routing)
    case Register(key, w, routing) =>
      w !in s.streams && key in s.store.records && ExpiryDigest(s.store, key, s.now, routing)
    case Deliver(d) => d in s.captured && d.watcher in s.streams
    case Receive(w) => Open(s, w) && s.streams[w].stage.Idle? && s.streams[w].mailbox.slot.Some?
    case Check(w) => Open(s, w) && s.streams[w].stage.Received?
    case LookUp(w, routing) =>
      && Open(s, w) && s.streams[w].stage.Stale?
      && ExpiryDigest(s.store, s.streams[w].stage.publication.snapshot.Key(), s.now, routing)
    case Send(w) => Open(s, w) && s.streams[w].stage.Checked?
    case Cancel(w) => Open(s, w)
    case Tick(_) => true
  }

  function DeliveredTo(s: System, d: Delivery): System
    requires d.watcher in s.streams
  {
    var st := s.streams[d.watcher];
    WithStream(s, d.watcher, st.(mailbox := st.mailbox.Deliver(d.publication))).(owed := s.owed - {d})
  }

  function Taken(st: Stream): Stream
    requires st.mailbox.slot.Some?
  {
    st.(mailbox := st.mailbox.Receive(), stage := Received(st.mailbox.slot.value))
  }

  function CheckedAt(st: Stream, now: int): Stream
    requires st.stage.Received?
  {
    var p := st.stage.publication;
    st.(stage := if MustLookUp(p, now) then Stale(p) else Checked(p, now))
  }

  function Cancelled(s: System, w: Watcher): System
    requires w in s.streams
  {
    var st := s.streams[w];
    WithStream(s, w, st.(mailbox := st.mailbox.Close(), stage := Idle)).(store := s.store.Unregister(st.key, w))
  }

  function PutAt(s: System, x: Snapshot, routing: Snapshot, late: bool): System {
    var store := s.store.Put(x, routing, late);
    Published(s, store, store.Notice(x.Key()))
  }

  function DeletedAt(s: System, key: ClusterKey): System {
    Published(s, s.store.Delete(key), s.store.DeleteNotice(key))
  }

  function ExpiredAt(s: System, key: ClusterKey, at: int, routing: Snapshot): System {
    Published(s, s.store.ExpireRecord(key, at, routing), s.store.ExpireNotice(key, at, routing))
  }

  function WithStream(s: System, w: Watcher, stream: Stream): System {
    s.(streams := s.streams[w := stream])
  }

  function Registered(s: System, key: ClusterKey, w: Watcher, routing: Snapshot): System
    requires key in s.store.records
  {
    var e := ExpiredAt(s, key, s.now, routing);
    var initial := Delivery(e.store.records[key].publication, w);
    e.(store := s.store.Register(key, true, w, s.now, routing),
       streams := e.streams[w := Stream(key, EMPTY_MAILBOX, Idle, 0, [])],
       captured := e.captured + {initial}, owed := e.owed + {initial})
  }

  function Sent(st: Stream): Stream
    requires st.stage.Checked?
  {
    if st.stage.publication.order <= st.lastSent then st.(stage := Idle) else
    st.(stage := Idle, lastSent := st.stage.publication.order,
        sent := st.sent + [Message(st.stage.publication, st.stage.at)])
  }

  function LookedUp(s: System, w: Watcher, routing: Snapshot): System
    requires w in s.streams && s.streams[w].stage.Stale?
  {
    var key := s.streams[w].stage.publication.snapshot.Key();
    var e := ExpiredAt(s, key, s.now, routing);
    var stage := if key in e.store.records then Checked(e.store.records[key].publication, s.now) else Idle;
    WithStream(e, w, s.streams[w].(stage := stage))
  }

  ghost function Next(s: System, a: Action): System {
    if !Possible(s, a) then s else
    match a
    case Put(x, routing, before) => PutAt(s, x, routing, Late(x, before, s.now))
    case Delete(key) => DeletedAt(s, key)
    case Expire(key, at, routing) => ExpiredAt(s, key, at, routing)
    case Register(key, w, routing) => Registered(s, key, w, routing)
    case Deliver(d) => DeliveredTo(s, d)
    case Receive(w) => WithStream(s, w, Taken(s.streams[w]))
    case Check(w) => WithStream(s, w, CheckedAt(s.streams[w], s.now))
    case LookUp(w, routing) => LookedUp(s, w, routing)
    case Send(w) => WithStream(s, w, Sent(s.streams[w]))
    case Cancel(w) => Cancelled(s, w)
    case Tick(elapsed) => s.(now := s.now + elapsed)
  }

  ghost function Run(s: System, actions: seq<Action>): System
    decreases actions
  {
    if actions == [] then s else Run(Next(s, actions[0]), actions[1..])
  }
}

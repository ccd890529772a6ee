/**
  The observer of one Cluster key and the discovery store with its watch streams, together. A
  critical section of the observer commits to the store step by step, and streams, deliveries and
  expiry run between its commits. What a stream has sent at rest describes the informers as they
  are now, every message was fresh when it was checked, and open streams keep their Cluster scheduled.
 */
module EndToEnd {
  import opened Keys
  import opened Api
  import opened Stores
  import opened Convergence
  import opened Quiescence
  import opened Sections
  import P = Protocol
  import Schedule
  import Slices
  import Stray
  import W = Watch

  function Stored(store: State, key: ClusterKey): Option<Snapshot> {
    if key in store.records then Some(Unrevised(store.records[key].publication.snapshot)) else None
  }

  /** `todo` lists the commits that the observer's current section has still to make. */
  datatype Service = Service(observer: P.World, discovery: W.System, todo: seq<Effect>)

  datatype Action =
    | Observe(action: P.Action, effects: seq<Effect>)
    | Commit(routing: Snapshot, before: int)
    | Serve(step: W.Action)
    | Tick(elapsed: nat)

  function Start(key: ClusterKey, opts: Slices.Options, now: int): Service {
    Service(P.Start(key, opts, now), W.Start(now), [])
  }

  /** The step of the store that makes a commit. */
  function Step(effect: Effect, key: ClusterKey, routing: Snapshot, before: int): W.Action {
    match effect
    case Put(x, _) => W.Put(x, routing, before)
    case Drop => W.Delete(key)
    case Lapse => W.Expire(key, before, routing)
  }

  ghost predicate CanCommit(v: Service, routing: Snapshot, before: int) {
    && v.todo != [] && W.Possible(v.discovery, Step(v.todo[0], v.observer.key, routing, before))
    && match v.todo[0]
       case Put(x, late) => x.Key() == v.observer.key && late == Late(x, before, v.discovery.now)
       case Drop => true
       case Lapse =>
         var records := v.discovery.store.records;
         v.observer.key in records && before >= records[v.observer.key].publication.snapshot.validUntil
  }

  /** Steps of the discovery service that are not the observer's commits for its key. */
  predicate ServesOnly(a: W.Action, key: ClusterKey) {
    !a.Tick? && (a.Put? ==> a.snapshot.Key() != key) && (a.Delete? ==> a.key != key)
  }

  /** The observer's record expires with the store's, unless a commit is about to replace it. */
  ghost function Expiry(v: Service, a: W.Action): Option<P.Action> {
    var store := W.Next(v.discovery, a).store;
    if v.todo == [] && Stored(store, v.observer.key) != Stored(v.discovery.store, v.observer.key) then Some(P.Expire)
        else None
  }

  /** A stream that registers or ends for the key is interest gained or lost. */
  ghost function Interest(v: Service, a: W.Action): Option<P.Action> {
    if !W.Possible(v.discovery, a) then None
    else if a.Register? && a.key == v.observer.key then Some(P.Watch)
    else if a.Cancel? && v.discovery.streams[a.watcher].key == v.observer.key then Some(P.Unwatch)
    else None
  }

  ghost function Taking(w: P.World, a: Option<P.Action>): P.World {
    if a.None? then w else P.Next(w, a.value)
  }

  ghost function Served(v: Service, a: W.Action): Service {
    v.(discovery := W.Next(v.discovery, a), observer := Taking(Taking(v.observer, Expiry(v, a)), Interest(v, a)))
  }

  /** The same commits, except that a Put hidden by a later one may have come in time or not. */
  predicate SamePuts(effects: seq<Effect>, commits: seq<Effect>) {
    && |effects| == |commits|
    && forall i :: 0 <= i < |effects| ==>
         effects[i] == commits[i] || (effects[i].Put? && commits[i].Put? && effects[i].snapshot == commits[i].snapshot)
  }

  /** A section of the observer begins, with the commits that the source makes in it. */
  ghost predicate CanObserve(v: Service, b: P.Action, effects: seq<Effect>) {
    && v.todo == [] && !b.Tick? && !b.Expire? && !b.Watch? && !b.Unwatch?
    && P.Possible(v.observer, b) && SamePuts(effects, SectionCommits(v.observer, b))
    && AllApplied(effects, Content(v.observer.slice.record)) == Content(P.Next(v.observer, b).slice.record)
  }

  ghost predicate Possible(v: Service, a: Action) {
    match a
    case Observe(b, effects) => CanObserve(v, b, effects)
    case Commit(routing, before) => CanCommit(v, routing, before)
    case Serve(b) => ServesOnly(b, v.observer.key)
    case Tick(_) => true
  }

  ghost function Next(v: Service, a: Action): Service {
    if !Possible(v, a) then v else
    match a
    case Observe(b, effects) => v.(observer := P.Next(v.observer, b), todo := effects)
    case Commit(routing, before) =>
      v.(discovery := W.Next(v.discovery, Step(v.todo[0], v.observer.key, routing, before)), todo := v.todo[1..])
    case Serve(b) => Served(v, b)
    case Tick(elapsed) =>
      v.(observer := P.Next(v.observer, P.Tick(elapsed)), discovery := W.Next(v.discovery, W.Tick(elapsed)))
  }

  ghost function Run(v: Service, actions: seq<Action>): Service
    decreases actions
  {
    if actions == [] then v else Run(Next(v, actions[0]), actions[1..])
  }

  // ---- The store follows the observer ----

  /** An expired record is its own invalidation. */
  ghost predicate LapsedOnce(store: State, key: ClusterKey) {
    key in store.records && store.records[key].expired ==>
      Invalidated(store.records[key].publication.snapshot) == store.records[key].publication.snapshot
  }

  /** Once its section has made its commits, the store holds what the observer thinks it does. */
  ghost predicate Agree(v: Service) {
    && v.observer.now == v.discovery.now
    && AllApplied(v.todo, Stored(v.discovery.store, v.observer.key)) == Content(v.observer.slice.record)
    && LapsedOnce(v.discovery.store, v.observer.key)
  }

  lemma InvalidatedTwice(x: Snapshot)
    ensures Invalidated(Invalidated(x)) == Invalidated(x)
  {
    assert InvalidatedMembers(InvalidatedMembers(x.members)) == InvalidatedMembers(x.members);
  }

  /** What a due expiry does to a record. */
  ghost predicate Lapses(store: State, store': State, key: ClusterKey, now: int) {
    && key in store.records && now >= store.records[key].publication.snapshot.validUntil
    && Stored(store', key) == Some(Invalidated(Stored(store, key).value)) && LapsedOnce(store', key)
  }

  lemma ExpiryLapses(store: State, key: ClusterKey, other: ClusterKey, at: int, routing: Snapshot, now: int)
    requires at <= now && LapsedOnce(store, key)
    ensures var store' := store.ExpireRecord(other, at, routing);
            || (Stored(store', key) == Stored(store, key) && LapsedOnce(store', key))
            || Lapses(store, store', key, now)
  {
    if store.Expires(other, at) && other == key {
      InvalidatedTwice(store.records[key].publication.snapshot);
    }
  }

  ghost predicate LapsesOnly(store: State, store': State, key: ClusterKey, now: int) {
    || (Stored(store', key) == Stored(store, key) && LapsedOnce(store', key))
    || Lapses(store, store', key, now)
  }

  lemma RegistrationLapsesOnly(s: W.System, k: ClusterKey, w: Watcher, routing: Snapshot, key: ClusterKey)
    requires LapsedOnce(s.store, key) && k in s.store.records
    ensures LapsesOnly(s.store, W.Registered(s, k, w, routing).store, key, s.now)
  {
    ExpiryLapses(s.store, key, k, s.now, routing, s.now);
    RegisterAdds(s.store, k, w, s.now, routing);
  }

  lemma LookUpLapsesOnly(s: W.System, w: Watcher, routing: Snapshot, key: ClusterKey)
    requires LapsedOnce(s.store, key) && w in s.streams && s.streams[w].stage.Stale?
    ensures LapsesOnly(s.store, W.LookedUp(s, w, routing).store, key, s.now)
  {
    ExpiryLapses(s.store, key, s.streams[w].stage.publication.snapshot.Key(), s.now, routing, s.now);
  }

  lemma OtherPutStays(s: W.System, x: Snapshot, routing: Snapshot, late: bool, key: ClusterKey)
    requires x.Key() != key && LapsedOnce(s.store, key)
    ensures LapsesOnly(s.store, W.PutAt(s, x, routing, late).store, key, s.now)
  {
  }

  /** The discovery service changes the key's record only by expiry. */
  lemma ServiceOnlyLapses(s: W.System, a: W.Action, key: ClusterKey)
    requires ServesOnly(a, key) && LapsedOnce(s.store, key)
    ensures LapsesOnly(s.store, W.Next(s, a).store, key, s.now)
  {
    if W.Possible(s, a) {
      match a
      case Put(x, routing, before) => OtherPutStays(s, x, routing, Late(x, before, s.now), key);
      case Expire(k, at, routing) => ExpiryLapses(s.store, key, k, at, routing, s.now);
      case Register(k, w, routing) => RegistrationLapsesOnly(s, k, w, routing, key);
      case LookUp(w, routing) => LookUpLapsesOnly(s, w, routing, key);
      case _ =>
    }
  }

  lemma ServiceKeepsTime(s: W.System, a: W.Action)
    requires !a.Tick?
    ensures W.Next(s, a).now == s.now
  {
  }

  /** Commits that remain to be made overwrite an expiry that comes first. */
  lemma {:induction false} LapseIsOverwritten(effects: seq<Effect>, x: Snapshot)
    requires effects != []
    ensures AllApplied(effects, Some(Invalidated(x))) == AllApplied(effects, Some(x))
  {
    InvalidatedTwice(x);
    assert Applied(effects[0], Some(Invalidated(x))) == Applied(effects[0], Some(x));
  }

  /** What interest changes of the observer. */
  lemma InterestStep(w: P.World, a: P.Action)
    requires a.Watch? || (a.Unwatch? && w.slice.watchers > 0)
    ensures var w' := P.Next(w, a);
            && w'.slice.record == w.slice.record && w'.now == w.now && w'.key == w.key
            && w'.slice.watchers == w.slice.watchers + if a.Watch? then 1 else -1
  {
  }

  lemma UnwatchedKeeps(w: P.World, a: P.Action)
    requires a.Unwatch?
    ensures var w' := P.Next(w, a); w'.slice.record == w.slice.record && w'.now == w.now && w'.key == w.key
  {
  }

  /** The store's record is untouched, and so is the observer's. */
  lemma UntouchedAgrees(v: Service, s: W.System)
    requires Agree(v) && s.now == v.discovery.now && LapsedOnce(s.store, v.observer.key)
    requires Stored(s.store, v.observer.key) == Stored(v.discovery.store, v.observer.key)
    ensures Agree(v.(discovery := s))
  {
  }

  /** The store's record has expired: commits still to come hide that, and otherwise the observer's
      record expires too. */
  lemma LapsedAgrees(v: Service, s: W.System)
    requires Agree(v) && s.now == v.discovery.now && Lapses(v.discovery.store, s.store, v.observer.key, s.now)
    ensures Agree(v.(discovery := s, observer := if v.todo == [] then P.Next(v.observer, P.Expire) else v.observer))
  {
    var x := Stored(v.discovery.store, v.observer.key).value;
    if v.todo == [] {
      ObserverLapses(v.observer, x);
    } else {
      LapseIsOverwritten(v.todo, x);
    }
  }

  lemma ExpiryKeepsAgree(v: Service, a: W.Action)
    requires Agree(v) && ServesOnly(a, v.observer.key)
    ensures Agree(v.(discovery := W.Next(v.discovery, a), observer := Taking(v.observer, Expiry(v, a))))
  {
    var s := W.Next(v.discovery, a);
    ServiceOnlyLapses(v.discovery, a, v.observer.key);
    ServiceKeepsTime(v.discovery, a);
    if Stored(s.store, v.observer.key) == Stored(v.discovery.store, v.observer.key) {
      UntouchedAgrees(v, s);
    } else {
      LapsedAgrees(v, s);
    }
  }

  lemma ServeAgrees(v: Service, a: W.Action)
    requires Agree(v) && ServesOnly(a, v.observer.key)
    ensures Agree(Served(v, a))
  {
    ExpiryKeepsAgree(v, a);
    InterestKeepsAgree(v.(discovery := W.Next(v.discovery, a), observer := Taking(v.observer, Expiry(v, a))),
        Interest(v, a));
  }

  lemma InterestKeepsAgree(v: Service, a: Option<P.Action>)
    requires Agree(v) && (a.None? || a.value.Watch? || a.value.Unwatch?)
    ensures Agree(v.(observer := Taking(v.observer, a)))
  {
    if a.Some? {
      if a.value.Watch? {
        InterestStep(v.observer, a.value);
      } else {
        UnwatchedKeeps(v.observer, a.value);
      }
    }
  }

  lemma ObserverLapses(w: P.World, x: Snapshot)
    requires Content(w.slice.record) == Some(x) && w.now >= x.validUntil
    ensures var w' := P.Next(w, P.Expire);
            Content(w'.slice.record) == Some(Invalidated(x)) && w'.now == w.now && w'.key == w.key
  {
    assert P.Next(w, P.Expire) == w.(slice := w.slice.ReadRecord(w.now));
  }

  lemma PutApplies(s: W.System, x: Snapshot, routing: Snapshot, late: bool)
    ensures var store := W.PutAt(s, x, routing, late).store;
            Stored(store, x.Key()) == Some(Unrevised(Prepared(x, late))) && LapsedOnce(store, x.Key())
  {
    InvalidatedTwice(x.(apiVersion := API_VERSION));
    var r := W.PutAt(s, x, routing, late).store.records[x.Key()];
    assert r.publication.snapshot == Prepared(x, late).(revision := s.store.PutRevision(x, routing))
           && r.expired == late;
  }

  lemma LapseApplies(s: W.System, key: ClusterKey, at: int, routing: Snapshot)
    requires LapsedOnce(s.store, key) && key in s.store.records
             && at >= s.store.records[key].publication.snapshot.validUntil
    ensures var store := W.ExpiredAt(s, key, at, routing).store;
            Stored(store, key) == Some(Invalidated(Stored(s.store, key).value)) && LapsedOnce(store, key)
  {
    InvalidatedTwice(s.store.records[key].publication.snapshot);
  }

  lemma CommitAgrees(v: Service, routing: Snapshot, before: int)
    requires Agree(v) && CanCommit(v, routing, before)
    ensures Agree(Next(v, Commit(routing, before)))
  {
    var s := v.discovery;
    match v.todo[0]
    case Put(x, late) => PutApplies(s, x, routing, late);
    case Drop =>
    case Lapse => LapseApplies(s, v.observer.key, before, routing);
  }

  lemma StepAgrees(v: Service, a: Action)
    requires Agree(v)
    ensures Agree(Next(v, a))
  {
    if Possible(v, a) {
      match a
      case Observe(b, effects) => ObserverKeepsTime(v.observer, b);
      case Commit(routing, before) => CommitAgrees(v, routing, before);
      case Serve(b) => ServeAgrees(v, b);
      case Tick(_) =>
    }
  }

  lemma ObserverKeepsTime(w: P.World, a: P.Action)
    requires !a.Tick?
    ensures P.Next(w, a).now == w.now && P.Next(w, a).key == w.key
  {
  }

  // ---- Every run ----

  /** What holds of the observer alone. */
  ghost predicate Observes(w: P.World) {
    Basics(w) && Sound(w) && Stray.GoneHasNone(w)
  }

  ghost predicate Joint(v: Service) {
    Agree(v) && Inv(v.discovery) && Observes(v.observer)
  }

  lemma ObserverStep(w: P.World, a: P.Action)
    requires Observes(w)
    ensures Observes(P.Next(w, a))
  {
    StepKeepsBasics(w, a);
    StepKeepsSound(w, a);
    Stray.StepKeepsGone(w, a);
  }

  lemma TakingStep(w: P.World, a: Option<P.Action>)
    requires Observes(w)
    ensures Observes(Taking(w, a))
  {
    if a.Some? {
      ObserverStep(w, a.value);
    }
  }

  lemma StepKeepsJoint(v: Service, a: Action)
    requires Joint(v)
    ensures Joint(Next(v, a))
  {
    StepAgrees(v, a);
    if Possible(v, a) {
      match a
      case Observe(b, effects) => ObserverStep(v.observer, b);
      case Commit(routing, before) => Convergence.StepKeepsInv(v.discovery,
          Step(v.todo[0], v.observer.key, routing, before));
      case Serve(b) =>
        Convergence.StepKeepsInv(v.discovery, b);
        TakingStep(v.observer, Expiry(v, b));
        TakingStep(Taking(v.observer, Expiry(v, b)), Interest(v, b));
      case Tick(elapsed) =>
        Convergence.StepKeepsInv(v.discovery, W.Tick(elapsed));
        ObserverStep(v.observer, P.Tick(elapsed));
    }
  }

  lemma StartIsJoint(key: ClusterKey, opts: Slices.Options, now: int)
    ensures Joint(Start(key, opts, now)) && P.Positions(Start(key, opts, now).observer)
            && Schedule.Kept(Start(key, opts, now).observer)
  {
  }

  lemma {:induction false} RunKeepsJoint(v: Service, actions: seq<Action>)
    requires Joint(v)
    ensures Joint(Run(v, actions))
    decreases actions
  {
    if actions != [] {
      StepKeepsJoint(v, actions[0]);
      RunKeepsJoint(Next(v, actions[0]), actions[1..]);
    }
  }

  lemma {:induction false} RunKeepsSchedule(v: Service, actions: seq<Action>)
    requires P.Positions(v.observer) && Schedule.Kept(v.observer)
    ensures P.Positions(Run(v, actions).observer) && Schedule.Kept(Run(v, actions).observer)
    decreases actions
  {
    if actions != [] {
      ScheduleStep(v, actions[0]);
      RunKeepsSchedule(Next(v, actions[0]), actions[1..]);
    }
  }

  lemma TakingKeepsSchedule(w: P.World, a: Option<P.Action>)
    requires P.Positions(w) && Schedule.Kept(w)
    ensures P.Positions(Taking(w, a)) && Schedule.Kept(Taking(w, a))
  {
    if a.Some? {
      P.StepKeepsPositions(w, a.value);
      Schedule.StepKeeps(w, a.value);
    }
  }

  /** The observer takes at most two steps of its own in one action. */
  ghost function FirstPart(v: Service, a: Action): Option<P.Action> {
    match a
    case Observe(b, _) => Some(b)
    case Commit(_, _) => None
    case Serve(b) => Expiry(v, b)
    case Tick(elapsed) => Some(P.Tick(elapsed))
  }

  ghost function SecondPart(v: Service, a: Action): Option<P.Action> {
    if a.Serve? then Interest(v, a.step) else None
  }

  lemma ObserverParts(v: Service, a: Action)
    requires Possible(v, a)
    ensures Next(v, a).observer == Taking(Taking(v.observer, FirstPart(v, a)), SecondPart(v, a))
  {
  }

  lemma ScheduleStep(v: Service, a: Action)
    requires P.Positions(v.observer) && Schedule.Kept(v.observer)
    ensures P.Positions(Next(v, a).observer) && Schedule.Kept(Next(v, a).observer)
  {
    if Possible(v, a) {
      ObserverParts(v, a);
      TakingKeepsSchedule(v.observer, FirstPart(v, a));
      TakingKeepsSchedule(Taking(v.observer, FirstPart(v, a)), SecondPart(v, a));
    }
  }

  /** Nothing is under way: every metadata event is handled, every commit made, and the stream has
      received and sent what it was owed. */
  ghost predicate AtRest(v: Service, watcher: Watcher) {
    && v.todo == [] && v.observer.handled + 1 == |v.observer.clusters|
       && v.observer.podsHandled + 1 == |v.observer.pods|
    && Drained(v.discovery, watcher) && v.discovery.streams[watcher].key == v.observer.key
  }

  /** The message offers only routes that the informers hold now; while the Cluster is enabled it is
      the store's record of its current incarnation, and once the Cluster is gone a tombstone. */
  ghost predicate ShowsCurrent(v: Service, message: Snapshot)
    requires v.observer.handled < |v.observer.clusters|
  {
    var current := v.observer.clusters[v.observer.handled];
    && (message.available ==> IsCurrent(v.observer, message) && PrimaryReady(message))
    && (current.Some? && current.value.Active() ==>
          Stored(v.discovery.store, v.observer.key) == Some(Unrevised(message))
              && message.cluster.uid == current.value.uid)
    && (current.None? ==> IsTombstone(message))
  }

  lemma SameContentIsCurrent(w: P.World, x: Snapshot, y: Snapshot)
    requires Unrevised(x) == Unrevised(y) && IsCurrent(w, x) && PrimaryReady(x)
    ensures IsCurrent(w, y) && PrimaryReady(y)
  {
    assert y == x.(revision := y.revision);
    assert y.members == x.members;
  }

  /** A message that is the store's record shows what the observer's record does. */
  lemma StoredShowsCurrent(v: Service, message: Snapshot)
    requires Joint(v) && v.todo == [] && v.observer.handled + 1 == |v.observer.clusters|
             && v.observer.podsHandled + 1 == |v.observer.pods|
    requires Stored(v.discovery.store, v.observer.key) == Some(Unrevised(message))
    ensures message.available ==> IsCurrent(v.observer, message) && PrimaryReady(message)
  {
    if message.available {
      SoundAtRest(v.observer);
      SameContentIsCurrent(v.observer, v.observer.slice.record.value, message);
    }
  }

  lemma EnabledIsStored(v: Service)
    requires Agree(v) && v.todo == [] && Schedule.Kept(v.observer) && v.observer.handled + 1 == |v.observer.clusters|
    ensures var current := v.observer.clusters[v.observer.handled];
            current.Some? && current.value.Active() ==>
              var stored := Stored(v.discovery.store, v.observer.key);
              stored.Some? && stored.value.cluster.uid == current.value.uid
  {
  }

  lemma ShownAtRest(v: Service, watcher: Watcher)
    requires Joint(v) && Schedule.Kept(v.observer) && AtRest(v, watcher)
    ensures var sent := v.discovery.streams[watcher].sent;
            sent != [] && ShowsCurrent(v, sent[|sent| - 1].publication.snapshot)
  {
    DrainedIsLatest(v.discovery, watcher);
    var sent := v.discovery.streams[watcher].sent;
    var message := sent[|sent| - 1].publication.snapshot;
    EnabledIsStored(v);
    if v.observer.key in v.discovery.store.records {
      StoredShowsCurrent(v, message);
    }
  }

  /** At rest, in every run of the whole service, the last message of a stream shows the current routes. */
  lemma StreamsShowCurrentRoutes(key: ClusterKey, opts: Slices.Options, now: int, actions: seq<Action>,
                                 watcher: Watcher)
    requires AtRest(Run(Start(key, opts, now), actions), watcher)
    ensures
      var v := Run(Start(key, opts, now), actions);
      var sent := v.discovery.streams[watcher].sent;
      sent != [] && ShowsCurrent(v, sent[|sent| - 1].publication.snapshot)
  {
    StartIsJoint(key, opts, now);
    RunKeepsJoint(Start(key, opts, now), actions);
    RunKeepsSchedule(Start(key, opts, now), actions);
    ShownAtRest(Run(Start(key, opts, now), actions), watcher);
  }
}

/**
  Consumer demand. Ended leases are dropped lazily, by whichever call notices them first; this
  module proves that no caller can tell.
 */
module Demand {
  import opened Keys
  import opened Api
  import opened Stores

  datatype Op =
    | Refresh(key: ClusterKey)
    | Ask(key: ClusterKey)
    | AskAll
    | ExpireTask(at: int)
    | Watch(key: ClusterKey, requireExisting: bool, watcher: Watcher, routing: Snapshot)
    | Unwatch(key: ClusterKey, watcher: Watcher)
    | Put(snapshot: Snapshot, routing: Snapshot, late: bool)
    | Delete(key: ClusterKey)
    | SetLease(lease: int)
    | Tick(elapsed: nat)

  /** `leases` records, without ever pruning, when the last lease of a key since its deletion ends. */
  datatype Book = Book(store: State, leases: map<ClusterKey, int>, now: int)

  function Next(b: Book, op: Op): Book {
    match op
    case Refresh(key) =>
      b.(store := b.store.RequestRefresh(key, b.now),
         leases := if key in b.store.records && b.store.unaryLease > 0
                   then b.leases[key := b.now + b.store.unaryLease] else b.leases)
    case Ask(key) => b.(store := b.store.PruneLease(key, b.now))
    case AskAll => b.(store := b.store.PruneLeases(b.now))
    case ExpireTask(at) => if at <= b.now then b.(store := b.store.PruneLeases(at)) else b
    case Watch(key, requireExisting, w, routing) =>
      b.(store := b.store.Register(key, requireExisting, w, b.now, routing))
    case Unwatch(key, w) => b.(store := b.store.Unregister(key, w))
    case Put(x, routing, late) => b.(store := b.store.Put(x, routing, late))
    case Delete(key) => b.(store := b.store.Delete(key), leases := b.leases - {key})
    case SetLease(lease) => b.(store := b.store.(handler := true, unaryLease := lease))
    case Tick(elapsed) => b.(now := b.now + elapsed)
  }

  function Run(b: Book, ops: seq<Op>): Book
    decreases ops
  {
    if ops == [] then b else Run(Next(b, ops[0]), ops[1..])
  }

  function Start(now: int): Book {
    Book(EMPTY, map[], now)
  }

  /** Demand as its users understand it: a watcher, or a last lease that has not ended. */
  predicate Wanted(b: Book, key: ClusterKey, at: int) {
    b.store.Watchers(key) != {} || (key in b.leases && at < b.leases[key])
  }

  ghost predicate LeasesOk(b: Book) {
    && (forall k :: k in b.store.unaryDemand ==> k in b.leases && b.leases[k] == b.store.unaryDemand[k])
    && (forall k :: k in b.leases && k !in b.store.unaryDemand ==> b.leases[k] <= b.now)
  }

  lemma WatchKeepsLeases(b: Book, key: ClusterKey, requireExisting: bool, w: Watcher, routing: Snapshot)
    requires LeasesOk(b)
    ensures LeasesOk(Next(b, Watch(key, requireExisting, w, routing)))
  {
    assert b.store.ExpireRecord(key, b.now, routing).unaryDemand == b.store.unaryDemand;
  }

  lemma StepKeepsLeases(b: Book, op: Op)
    requires LeasesOk(b)
    ensures LeasesOk(Next(b, op))
  {
    match op
    case Watch(key, requireExisting, w, routing) => WatchKeepsLeases(b, key, requireExisting, w, routing);
    case Put(x, routing, late) => assert b.store.Put(x, routing, late).unaryDemand == b.store.unaryDemand;
    case _ =>
  }

  lemma {:induction false} RunKeepsLeases(b: Book, ops: seq<Op>)
    requires LeasesOk(b)
    ensures LeasesOk(Run(b, ops))
    decreases ops
  {
    if ops != [] {
      StepKeepsLeases(b, ops[0]);
      RunKeepsLeases(Next(b, ops[0]), ops[1..]);
    }
  }

  /** Pruning is invisible: after any run and at any later time, demand is a watcher or the last
      lease since deletion, whatever pruning calls happened in between. */
  lemma PruningIsInvisible(now: int, ops: seq<Op>, key: ClusterKey, at: int)
    requires at >= Run(Start(now), ops).now
    ensures var b := Run(Start(now), ops); b.store.Demanded(key, at) <==> Wanted(b, key, at)
  {
    RunKeepsLeases(Start(now), ops);
  }

  /** The demand callback fires exactly for accepted requests that found no demand. */
  lemma CallbackFiresIff(now: int, ops: seq<Op>, key: ClusterKey, requireExisting: bool)
    requires Run(Start(now), ops).store.handler
    ensures
      var b := Run(Start(now), ops);
      && (b.store.RefreshFires(key, b.now) <==> key in b.store.records && !Wanted(b, key, b.now))
      && (b.store.RegisterFires(key, requireExisting, b.now) <==>
            (key in b.store.records || !requireExisting) && !Wanted(b, key, b.now))
  {
    PruningIsInvisible(now, ops, key, Run(Start(now), ops).now);
  }

  /** Interest in watching survives deletion; a lease does not. */
  lemma DeletionEndsLeasesOnly(b: Book, key: ClusterKey, at: int)
    ensures Wanted(Next(b, Delete(key)), key, at) <==> b.store.Watchers(key) != {}
    ensures b.store.Delete(key).Demanded(key, at) <==> b.store.Watchers(key) != {}
  {
  }
}

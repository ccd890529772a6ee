/**
  One Secret in every interleaving of changes, late handlers, misses, fetches, retries, demand loss
  and pruning. The informer's contents over time are `contents`; event `i` replaces `contents[i]`.
  An action that is not possible in a state leaves it unchanged.
 */
module CAProtocol {
  import opened Keys
  import opened CACaches

  /** `handled` and `seen` are as for Clusters. `begun` is the content at which the read in flight
      began, `verified` the contents at which the cached entry's read began and was installed,
      `confirmed` the newest content known to match it; `issued` counts CA objects read so far. */
  datatype World = World(
    contents: seq<Option<Version>>, handled: nat, seen: nat, cell: Cell,
    begun: nat, verified: (nat, nat), confirmed: nat, issued: nat)

  datatype Action =
    | Change(version: Option<Version>)
    | Handle(read: nat)
    | Ask(read: nat)
    | Take
    | Begin(read: nat, ready: bool, demanded: bool)
    | End(ca: Option<(Version, seq<bv8>)>, read: nat, expired: bool, ready: bool, demanded: bool)
    | Done
    | FireRetry
    | Prune(demanded: bool)

  const START := World([None], 0, 0, EMPTY, 0, (0, 0), 0, 0)

  predicate Reads(w: World, read: nat) {
    w.seen <= read < |w.contents|
  }

  predicate Possible(w: World, a: Action) {
    match a
    case Change(_) => w.contents != []
    case Handle(read) => w.handled + 1 < |w.contents| && w.handled + 1 <= read && Reads(w, read)
    case Ask(read) => Reads(w, read)
    case Take => w.cell.queued && w.cell.worker.Idle?
    case Begin(read, _, _) => w.cell.worker.Holding? && Reads(w, read)
    case End(_, read, _, _, _) => w.cell.worker.Reading? && Reads(w, read)
    case Done => w.cell.worker.Leaving?
    case FireRetry => w.cell.retries > 0
    case Prune(_) => true
  }

  function Left(w: World): World {
    w.(seen := if w.contents == [] then 0 else |w.contents| - 1)
  }

  function Handled(w: World, read: nat): World
    requires read < |w.contents|
  {
    var meta := w.contents[read];
    Left(w).(handled := w.handled + 1, cell := w.cell.SecretEvent(meta),
             confirmed := if w.cell.Fresh(meta) then read else w.confirmed)
  }

  /** The object that a successful read returns is a new one. */
  function Returned(w: World, ca: Option<(Version, seq<bv8>)>): Option<Entry> {
    if ca.None? then None else Some(Entry(w.issued, ca.value.0, ca.value.1))
  }

  function EndedBy(w: World, ca: Option<(Version, seq<bv8>)>, read: nat, expired: bool, ready: bool,
                   demanded: bool): World
    requires read < |w.contents| && w.cell.worker.Reading?
  {
    var entry, meta := Returned(w, ca), w.contents[read];
    var v := Left(w).(cell := w.cell.Ended(entry, meta, expired, ready, demanded), issued := w.issued + 1);
    if w.cell.Verifies(entry, meta, expired, ready) && demanded
    then v.(verified := (w.begun, read), confirmed := read) else v
  }

  function Next(w: World, a: Action): World {
    if !Possible(w, a) then w else
    match a
    case Change(version) => w.(contents := w.contents + [version])
    case Handle(read) => Handled(w, read)
    case Ask(read) => Left(w).(cell := w.cell.Asked(w.contents[read]))
    case Take => w.(cell := w.cell.Taken())
    case Begin(read, ready, demanded) =>
        Left(w).(cell := w.cell.Began(w.contents[read], ready, demanded), begun := read)
    case End(ca, read, expired, ready, demanded) => EndedBy(w, ca, read, expired, ready, demanded)
    case Done => w.(cell := w.cell.(worker := Idle))
    case FireRetry => w.(cell := w.cell.(retries := w.cell.retries - 1, queued := true))
    case Prune(demanded) => w.(cell := w.cell.Pruned(demanded))
  }

  function Run(w: World, actions: seq<Action>): World
    decreases actions
  {
    if actions == [] then w else Run(Next(w, actions[0]), actions[1..])
  }

  predicate At(contents: seq<Option<Version>>, i: nat, version: Version) {
    i < |contents| && contents[i] == Some(version)
  }

  /** A fetch will look at the Secret again. */
  predicate Underway(c: Cell) {
    c.queued || c.retries > 0 || c.worker.Holding? || c.worker.Reading?
  }

  predicate Inv(w: World) {
    && w.handled <= w.seen < |w.contents|
    && (w.cell.pending ==> Underway(w.cell))
    && (w.cell.worker.Reading? ==> w.begun <= w.seen && At(w.contents, w.begun, w.cell.worker.meta))
    && (w.cell.entry.Some? ==>
          var e := w.cell.entry.value;
          && e.id < w.issued && w.handled <= w.confirmed && At(w.contents, w.confirmed, e.version)
          && w.verified.0 <= w.verified.1 && At(w.contents, w.verified.0, e.version)
             && At(w.contents, w.verified.1, e.version))
  }

  lemma HandleKeepsInv(w: World, read: nat)
    requires Inv(w) && w.handled + 1 < |w.contents| && w.handled + 1 <= read && Reads(w, read)
    ensures Inv(Handled(w, read))
  {
  }

  lemma BeginKeepsInv(w: World, read: nat, ready: bool, demanded: bool)
    requires Inv(w) && w.cell.worker.Holding? && Reads(w, read)
    ensures Inv(Left(w).(cell := w.cell.Began(w.contents[read], ready, demanded), begun := read))
  {
  }

  lemma EndKeepsInv(w: World, ca: Option<(Version, seq<bv8>)>, read: nat, expired: bool, ready: bool, demanded: bool)
    requires Inv(w) && w.cell.worker.Reading? && Reads(w, read)
    ensures Inv(EndedBy(w, ca, read, expired, ready, demanded))
  {
  }

  lemma ChangeKeepsInv(w: World, version: Option<Version>)
    requires Inv(w)
    ensures Inv(w.(contents := w.contents + [version]))
  {
  }

  lemma QueueKeepsInv(w: World, a: Action)
    requires Inv(w) && (a.Ask? || a.Take? || a.Done? || a.FireRetry? || a.Prune?)
    ensures Inv(Next(w, a))
  {
  }

  lemma StepKeepsInv(w: World, a: Action)
    requires Inv(w)
    ensures Inv(Next(w, a))
  {
    if Possible(w, a) {
      match a
      case Change(version) => ChangeKeepsInv(w, version);
      case Handle(read) => HandleKeepsInv(w, read);
      case Begin(read, ready, demanded) => BeginKeepsInv(w, read, ready, demanded);
      case End(ca, read, expired, ready, demanded) => EndKeepsInv(w, ca, read, expired, ready, demanded);
      case _ => QueueKeepsInv(w, a);
    }
  }

  lemma {:induction false} RunKeepsInv(w: World, actions: seq<Action>)
    requires Inv(w)
    ensures Inv(Run(w, actions))
    decreases actions
  {
    if actions != [] {
      StepKeepsInv(w, actions[0]);
      RunKeepsInv(Next(w, actions[0]), actions[1..]);
    }
  }

  /** A cached entry's version was the informer's both when its read began and when it was installed. */
  lemma InstalledIsVerified(actions: seq<Action>)
    ensures var w := Run(START, actions);
            w.cell.entry.Some? ==>
              && w.verified.0 <= w.verified.1 && At(w.contents, w.verified.0, w.cell.entry.value.version)
              && At(w.contents, w.verified.1, w.cell.entry.value.version)
  {
    RunKeepsInv(START, actions);
  }

  /** Once no Secret handler is outstanding, a cached entry is the informer's current version. */
  lemma QuiescentEntryIsCurrent(actions: seq<Action>)
    ensures var w := Run(START, actions);
            w.handled + 1 == |w.contents| && w.cell.entry.Some? ==>
                  w.contents[w.handled] == Some(w.cell.entry.value.version)
  {
    RunKeepsInv(START, actions);
  }

  /** No fetch is lost: a pending Secret is queued, held by the worker or waiting for a retry. */
  lemma NoFetchIsLost(actions: seq<Action>)
    ensures Run(START, actions).cell.pending ==> Underway(Run(START, actions).cell)
  {
    RunKeepsInv(START, actions);
  }

  /** Misses share a fetch: however many observations ask, only the first one queues anything. */
  lemma {:induction false} MissesShareOneFetch(w: World, asks: seq<Action>)
    requires forall i :: 0 <= i < |asks| ==> asks[i].Ask?
    requires w.cell.pending
    ensures Run(w, asks).cell == w.cell
    decreases asks
  {
    if asks != [] {
      MissesShareOneFetch(Next(w, asks[0]), asks[1..]);
    }
  }

  /** A cached object that is dropped never comes back. */
  lemma {:induction false} DroppedStaysDropped(w: World, actions: seq<Action>, e: Entry)
    requires e.id < w.issued && w.cell.entry != Some(e)
    ensures Run(w, actions).cell.entry != Some(e)
    decreases actions
  {
    if actions != [] {
      DroppedStaysDropped(Next(w, actions[0]), actions[1..], e);
    }
  }

  lemma {:induction false} RunSplits(w: World, actions: seq<Action>, k: nat)
    requires k <= |actions|
    ensures Run(w, actions) == Run(Run(w, actions[..k]), actions[k..])
    decreases k
  {
    if k == 0 {
      assert actions[0..] == actions;
    } else {
      assert actions[..k][1..] == actions[1..][..k - 1] && actions[k..] == actions[1..][k - 1..];
      RunSplits(Next(w, actions[0]), actions[1..], k - 1);
    }
  }

  lemma {:induction false} IssuedGrows(w: World, actions: seq<Action>)
    ensures w.issued <= Run(w, actions).issued
    decreases actions
  {
    if actions != [] {
      IssuedGrows(Next(w, actions[0]), actions[1..]);
    }
  }

  /** An entry that an observation retained and finds current again was the cached one all along. */
  lemma RetainedMeansUninterrupted(before: seq<Action>, during: seq<Action>, k: nat, e: Entry, meta: Option<Version>)
    requires k <= |during|
    requires Run(START, before).cell.entry == Some(e)
    requires Run(Run(START, before), during).cell.Current(Some(e), meta)
    ensures Run(Run(START, before), during[..k]).cell.entry == Some(e)
  {
    var w := Run(START, before);
    RunKeepsInv(START, before);
    RunSplits(w, during, k);
    IssuedGrows(w, during[..k]);
    if Run(w, during[..k]).cell.entry != Some(e) {
      DroppedStaysDropped(Run(w, during[..k]), during[k..], e);
    }
  }

  /** A read that a Secret event superseded installs nothing, whatever it returns. */
  lemma SupersededReadInstallsNothing(w: World, read: nat, asked: nat, ca: Option<(Version, seq<bv8>)>, expired: bool,
                                      ready: bool, demanded: bool)
    requires Inv(w) && w.cell.worker.Reading? && Possible(w, Handle(read)) && !w.cell.Fresh(w.contents[read])
    ensures Next(Next(w, Handle(read)), End(ca, asked, expired, ready, demanded)).cell.entry.None?
  {
  }

  // ---- What a step changes, field by field ----

  /** The read returned the version that the informer held when it began and holds at its end, in time, with
      healthy watches, and no stale event came between. */
  predicate ReadHolds(w: World, a: Action) {
    && a.End? && Possible(w, a) && a.ca.Some? && !a.expired && a.ready && !w.cell.worker.cancelled
    && w.contents[a.read].Some?
    && var v := w.contents[a.read].value;
       && v.uid == w.cell.worker.meta.uid == a.ca.value.0.uid
       && v.resourceVersion == w.cell.worker.meta.resourceVersion == a.ca.value.0.resourceVersion
  }

  /** The cached entry is of the UID and resource version that the informer holds. */
  predicate IsCached(w: World, read: nat) {
    && read < |w.contents| && w.contents[read].Some? && w.cell.entry.Some?
    && w.contents[read].value.uid == w.cell.entry.value.version.uid
    && w.contents[read].value.resourceVersion == w.cell.entry.value.version.resourceVersion
  }

  /** An entry is installed exactly by a read that holds for a demanded Secret; it is dropped exactly by an
      event of which it is not the version, and by pruning without demand. */
  lemma StepInstallsIff(w: World, a: Action)
    ensures Next(w, a).cell.entry ==
            if ReadHolds(w, a) && a.demanded then Some(Entry(w.issued, a.ca.value.0, a.ca.value.1))
            else if Possible(w, a) && ((a.Handle? && !IsCached(w, a.read)) || (a.Prune? && !a.demanded)) then None
            else w.cell.entry
  {
  }

  /** A fetch becomes pending exactly when an observation misses a Secret that is there, and stops being so
      exactly when it has nothing to fetch or no one to fetch it for, or its read holds. */
  lemma StepPendsIff(w: World, a: Action)
    ensures Next(w, a).cell.pending <==>
            || (a.Ask? && Possible(w, a) && w.contents[a.read].Some? && !IsCached(w, a.read))
            || (&& w.cell.pending && !ReadHolds(w, a)
                && !(a.Begin? && Possible(w, a) && a.ready
                     && (w.contents[a.read].None? || !a.demanded || IsCached(w, a.read))))
  {
  }

  /** A read begins exactly for a Secret that is there, demanded and not cached at that version, with healthy
      watches; a stale event cancels it, and only its end ends it. */
  lemma StepReadsIff(w: World, a: Action)
    ensures Next(w, a).cell.worker.Reading? <==>
            || (w.cell.worker.Reading? && !(a.End? && Possible(w, a)))
            || (a.Begin? && Possible(w, a) && a.ready && w.contents[a.read].Some? && a.demanded && !IsCached(w, a.read))
    ensures Next(w, a).cell.worker.Reading? && w.cell.worker.Reading? ==>
              && Next(w, a).cell.worker.meta == w.cell.worker.meta
              && (Next(w, a).cell.worker.cancelled <==>
                    w.cell.worker.cancelled || (a.Handle? && Possible(w, a) && !IsCached(w, a.read)))
    ensures Next(w, a).cell.worker.Reading? && !w.cell.worker.Reading? ==>
              Next(w, a).cell.worker.meta == w.contents[a.read].value && !Next(w, a).cell.worker.cancelled
  {
  }

  /** The key is queued by the first miss, by a stale event during a fetch and by a retry that comes due; a
      retry is owed after every read that does not hold and every fetch that finds unhealthy watches. */
  lemma StepQueuesIff(w: World, a: Action)
    ensures Next(w, a).cell.queued <==>
            || (w.cell.queued && !(a.Take? && Possible(w, a)))
            || (a.Ask? && Possible(w, a) && w.contents[a.read].Some? && !IsCached(w, a.read) && !w.cell.pending)
            || (a.Handle? && Possible(w, a) && !IsCached(w, a.read) && w.cell.pending)
            || (a.FireRetry? && Possible(w, a))
    ensures Next(w, a).cell.retries - w.cell.retries ==
            if Possible(w, a) && ((a.End? && !ReadHolds(w, a)) || (a.Begin? && !a.ready)) then 1
            else if Possible(w, a) && a.FireRetry? then -1
            else 0
  {
  }
}

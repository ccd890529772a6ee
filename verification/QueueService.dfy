/**
  What the queue guarantees over whole runs: it refines a set of pending and active keys, it
  coalesces events into one follow-up, it drains, and both lanes are served within fixed bounds.
 */
module QueueService {
  import opened Keys
  import opened PriorityQueues

  datatype Op =
    | Promote(key: ClusterKey)
    | Add(key: ClusterKey)
    | Get
    | GetUrgent
    | Done(key: ClusterKey)
    | ShutDown
    | Drain

  function Step(q: Queue, op: Op): Queue {
    match op
    case Promote(k) => q.Promote(k)
    case Add(k) => q.Add(k)
    case Get => q.Get(false)
    case GetUrgent => q.Get(true)
    case Done(k) => q.Done(k)
    case ShutDown => q.ShutDown()
    case Drain => q.BeginDrain()
  }

  function Result(q: Queue, op: Op): Outcome {
    match op
    case Get => q.GetOutcome(false)
    case GetUrgent => q.GetOutcome(true)
    case _ => Nothing
  }

  function Run(q: Queue, ops: seq<Op>): Queue
    decreases ops
  {
    if ops == [] then q else Run(Step(q, ops[0]), ops[1..])
  }

  lemma StepKeepsValid(q: Queue, op: Op)
    requires Valid(q)
    ensures Valid(Step(q, op))
  {
    match op
    case Promote(k) => PromoteKeepsValid(q, k);
    case Add(k) => AddKeepsValid(q, k);
    case Get => GetKeepsValid(q, false);
    case GetUrgent => GetKeepsValid(q, true);
    case Done(k) => DoneKeepsValid(q, k);
    case ShutDown =>
    case Drain =>
  }

  lemma {:induction false} RunKeepsValid(q: Queue, ops: seq<Op>)
    requires Valid(q)
    ensures Valid(Run(q, ops))
    decreases ops
  {
    if ops != [] {
      StepKeepsValid(q, ops[0]);
      RunKeepsValid(Step(q, ops[0]), ops[1..]);
    }
  }

  // ---- Refinement of a set-based work queue ----

  /** A work queue with no order: keys owed an observation, and keys under observation. */
  datatype WorkSet = WorkSet(pending: set<ClusterKey>, active: map<ClusterKey, bool>, closed: bool)

  function Abstract(q: Queue): WorkSet {
    WorkSet(q.dirty, q.processing, q.shuttingDown)
  }

  /** What one operation may do to a work set and what it may return. */
  ghost predicate WorkStep(w: WorkSet, op: Op, result: Outcome, w': WorkSet) {
    match op
    case Promote(_) => w' == w
    case Add(k) => w' == if w.closed then w else w.(pending := w.pending + {k})
    case Done(k) => w' == w.(active := w.active - {k})
    case ShutDown => w' == w.(closed := true)
    case Drain => w' == w.(closed := true)
    case _ =>
      match result
      case Item(k) =>
        && k in w.pending && k !in w.active
        && w'.pending == w.pending - {k} && w'.closed == w.closed
        && w'.active.Keys == w.active.Keys + {k}
        && (forall j :: j in w.active ==> w'.active[j] == w.active[j])
        && (op.GetUrgent? ==> w'.active[k])
      case Closed => w' == w && w.closed && (op.Get? ==> w.pending <= w.active.Keys)
      case Wait => w' == w && !w.closed && (op.Get? ==> w.pending <= w.active.Keys)
      case Nothing => false
  }

  /** Every queue operation is an operation of the work set: nothing queued is ever lost or
      handed out twice, and a regular worker waits only when no key is available. */
  lemma RefinesWorkSet(q: Queue, op: Op)
    requires Valid(q)
    ensures WorkStep(Abstract(q), op, Result(q, op), Abstract(Step(q, op)))
  {
    match op
    case Get => GetRefines(q, false);
    case GetUrgent => GetRefines(q, true);
    case Done(k) => assert k !in q.processing ==> q.processing - {k} == q.processing;
    case _ =>
  }

  lemma GetRefines(q: Queue, urgentOnly: bool)
    requires Valid(q)
    ensures WorkStep(Abstract(q), if urgentOnly then GetUrgent
            else Get, q.GetOutcome(urgentOnly), Abstract(q.Get(urgentOnly)))
  {
  }

  lemma TakenIsAvailable(q: Queue, urgentOnly: bool)
    requires Valid(q)
    ensures !q.MustWait(urgentOnly) ==>
              var k := q.Taken(urgentOnly); k in q.entries && k in q.dirty && k !in q.processing
    ensures q.MustWait(false) ==> q.dirty <= q.processing.Keys
  {
  }

  // ---- Coalescing ----

  ghost function Occurrences(q: Queue, k: ClusterKey): nat {
    multiset(q.urgent + q.background)[k]
  }

  /** While a key is active, any number of events leaves its urgency fixed and it out of both
      lanes; finishing it queues exactly one follow-up if and only if some event asked for one,
      in the urgent lane if and only if some event promoted it. */
  lemma {:induction false} OneFollowUp(q: Queue, ops: seq<Op>, k: ClusterKey)
    requires Valid(q) && !q.shuttingDown && k in q.processing
    requires Done(k) !in ops && ShutDown !in ops && Drain !in ops
    ensures
      var p := Run(q, ops);
      && Valid(p) && k in p.processing && p.processing[k] == q.processing[k]
      && Occurrences(p, k) == 0
      && (k in p.dirty <==> k in q.dirty || Add(k) in ops)
      && (k in p.promoted <==> k in q.promoted || Promote(k) in ops)
      && Occurrences(p.Done(k), k) == (if k in q.dirty || Add(k) in ops then 1 else 0)
      && (k in p.Done(k).urgent <==>
            (k in q.dirty || Add(k) in ops) && (k in q.promoted || Promote(k) in ops))
    decreases ops
  {
    if ops == [] {
      FollowUpOnDone(q, k);
    } else {
      var next := Step(q, ops[0]);
      StepKeepsValid(q, ops[0]);
      ActiveStep(q, ops[0], k);
      assert ops == [ops[0]] + ops[1..];
      OneFollowUp(next, ops[1..], k);
    }
  }

  lemma ActiveStep(q: Queue, op: Op, k: ClusterKey)
    requires Valid(q) && !q.shuttingDown && k in q.processing
    requires op != Done(k) && op != ShutDown && op != Drain
    ensures
      var p := Step(q, op);
      && !p.shuttingDown && k in p.processing && p.processing[k] == q.processing[k]
      && (k in p.dirty <==> k in q.dirty || op == Add(k))
      && (k in p.promoted <==> k in q.promoted || op == Promote(k))
  {
    match op
    case Get => TakenIsAvailable(q, false);
    case GetUrgent => TakenIsAvailable(q, true);
    case _ =>
  }

  lemma FollowUpOnDone(q: Queue, k: ClusterKey)
    requires Valid(q) && k in q.processing
    ensures Occurrences(q, k) == 0
    ensures Occurrences(q.Done(k), k) == if k in q.dirty then 1 else 0
    ensures k in q.Done(k).urgent <==> k in q.dirty && k in q.promoted
  {
  }

  lemma ActiveUrgencyStays(q: Queue, op: Op, k: ClusterKey)
    requires Valid(q) && k in q.processing && op != Done(k)
    ensures k in Step(q, op).processing && Step(q, op).processing[k] == q.processing[k]
  {
    match op
    case Get => TakenIsAvailable(q, false);
    case GetUrgent => TakenIsAvailable(q, true);
    case _ =>
  }

  lemma {:induction false} RunKeepsUrgency(q: Queue, ops: seq<Op>, k: ClusterKey)
    requires Valid(q) && k in q.processing && Done(k) !in ops
    ensures k in Run(q, ops).processing && Run(q, ops).processing[k] == q.processing[k]
    decreases ops
  {
    if ops != [] {
      ActiveUrgencyStays(q, ops[0], k);
      StepKeepsValid(q, ops[0]);
      RunKeepsUrgency(Step(q, ops[0]), ops[1..], k);
    }
  }

  /** Until it is done, a key that was handed out is urgent exactly if it was promoted when it was
      taken, whatever is promoted or added meanwhile. */
  lemma UrgencyIsFixed(q: Queue, urgentOnly: bool, ops: seq<Op>, k: ClusterKey)
    requires Valid(q) && !q.MustWait(urgentOnly) && q.Taken(urgentOnly) == k && Done(k) !in ops
    ensures var p := Run(q.Get(urgentOnly), ops).processing; k in p && (p[k] <==> k in q.promoted)
  {
    TakenIsAvailable(q, urgentOnly);
    assert q.TakesUrgent(urgentOnly) ==> k in q.urgent;
    assert !q.TakesUrgent(urgentOnly) ==> k in q.background;
    GetKeepsValid(q, urgentOnly);
    RunKeepsUrgency(q.Get(urgentOnly), ops, k);
  }

  // ---- Draining ----

  ghost function Remaining(q: Queue): nat {
    2 * |q.dirty| + |q.processing|
  }

  /** Operations that make progress on a closed queue. */
  predicate Effective(q: Queue, op: Op) {
    match op
    case Done(k) => k in q.processing
    case _ => Result(q, op).Item?
  }

  lemma MoveCosts(dirty: set<ClusterKey>, processing: map<ClusterKey, bool>, k: ClusterKey, urgent: bool)
    requires k in dirty && k !in processing
    ensures 2 * |dirty - {k}| + |processing[k := urgent]| + 1 == 2 * |dirty| + |processing|
  {
  }

  lemma GetFalls(q: Queue, urgentOnly: bool)
    requires Valid(q)
    ensures Remaining(q.Get(urgentOnly)) == Remaining(q) - (if q.MustWait(urgentOnly) then 0 else 1)
  {
    if !q.MustWait(urgentOnly) {
      TakenIsAvailable(q, urgentOnly);
      MoveCosts(q.dirty, q.processing, q.Taken(urgentOnly), q.TakesUrgent(urgentOnly));
    }
  }

  lemma DoneFalls(q: Queue, k: ClusterKey)
    requires Valid(q)
    ensures Remaining(q.Done(k)) == Remaining(q) - (if k in q.processing then 1 else 0)
  {
  }

  lemma ClosedStepFalls(q: Queue, op: Op)
    requires Valid(q) && q.shuttingDown
    ensures Step(q, op).shuttingDown
    ensures Remaining(Step(q, op)) == Remaining(q) - (if Effective(q, op) then 1 else 0)
  {
    match op
    case Get => GetFalls(q, false);
    case GetUrgent => GetFalls(q, true);
    case Done(k) => DoneFalls(q, k);
    case _ =>
  }

  function EffectiveOps(q: Queue, ops: seq<Op>): nat
    decreases ops
  {
    if ops == [] then 0 else
    (if Effective(q, ops[0]) then 1 else 0) + EffectiveOps(Step(q, ops[0]), ops[1..])
  }

  /** After shutdown every effective operation brings the queue one step nearer to owing nothing,
      whatever events still arrive; so no run has more effective operations than that. */
  lemma {:induction false} ClosedRunDrains(q: Queue, ops: seq<Op>)
    requires Valid(q) && q.shuttingDown
    ensures Remaining(Run(q, ops)) + EffectiveOps(q, ops) == Remaining(q)
    decreases ops
  {
    if ops != [] {
      ClosedStepFalls(q, ops[0]);
      StepKeepsValid(q, ops[0]);
      ClosedRunDrains(Step(q, ops[0]), ops[1..]);
    }
  }

  /** The drain's exit test, which looks only at queued and active keys, holds of a draining
      queue exactly when nothing at all is owed. */
  lemma DrainExitMeansNothingOwed(q: Queue)
    requires Valid(q) && q.drain
    ensures q.DrainEnds() <==> Remaining(q) == 0
    ensures Remaining(q) > 0 ==> exists op :: Effective(q, op)
  {
    assert |q.processing| == |q.processing.Keys| && |q.entries| == |q.entries.Keys|;
    if |q.processing| > 0 {
      var k :| k in q.processing;
      assert Effective(q, Done(k));
    } else {
      assert forall k :: k in q.dirty ==> k in q.entries;
      assert q.processing.Keys == {} && q.dirty == q.entries.Keys;
      if k :| k in q.dirty {
        assert k in q.urgent || k in q.background;
        assert Effective(q, Get);
      }
    }
  }

  // ---- Service bounds ----

  function Gets(ops: seq<Op>): nat {
    if ops == [] then 0 else (if ops[0].Get? then 1 else 0) + Gets(ops[1..])
  }

  /** The number of regular dequeues after which background position `i` is served at the latest. */
  function BackgroundBound(burst: nat, i: nat): int {
    9 * i + 9 - burst
  }

  /** Operation `n - 1` takes the key out of the background lane. */
  ghost predicate LeavesBackground(q: Queue, ops: seq<Op>, k: ClusterKey, n: nat) {
    0 < n <= |ops| && k in Run(q, ops[..n - 1]).background && k !in Run(q, ops[..n]).background
  }

  /** That happens only by a promotion or a dequeue of the key. */
  predicate TakesOut(q: Queue, op: Op, k: ClusterKey) {
    (op == Promote(k) && !q.shuttingDown) || Result(q, op) == Item(k)
  }

  /** Removing another key moves an element towards the front only. */
  lemma {:induction false} WithoutPosition(lane: seq<ClusterKey>, other: ClusterKey, i: nat) returns (p: nat)
    requires i < |lane| && lane[i] != other
    ensures p <= i && p < |Without(lane, other)| && Without(lane, other)[p] == lane[i]
  {
    if i == 0 {
      p := 0;
    } else {
      var r := WithoutPosition(lane[1..], other, i - 1);
      p := if lane[0] == other then r else r + 1;
    }
  }

  /** One operation other than the one that serves or promotes `k` never moves `k` back, and a
      regular dequeue always brings its bound one nearer. */
  lemma BackgroundStep(q: Queue, op: Op, k: ClusterKey, i: nat) returns (j: nat)
    requires Valid(q) && i < |q.background| && q.background[i] == k
    requires !TakesOut(q, op, k)
    ensures var p := Step(q, op);
            && j < |p.background| && p.background[j] == k
            && BackgroundBound(p.burst, j) <= BackgroundBound(q.burst, i) - (if op.Get? then 1 else 0)
  {
    match op
    case Promote(other) =>
      j := i;
      if !q.shuttingDown && other !in q.promoted && other in q.entries {
        j := WithoutPosition(q.background, other, i);
      }
    case Get =>
      assert !q.MustWait(false);
      j := if q.TakesUrgent(false) then i else i - 1;
    case GetUrgent => j := i;
    case Add(_) => j := i;
    case Done(_) => j := i;
    case ShutDown => j := i;
    case Drain => j := i;
  }

  lemma TakenOutLeaves(q: Queue, op: Op, k: ClusterKey, i: nat)
    requires Valid(q) && i < |q.background| && q.background[i] == k && TakesOut(q, op, k)
    ensures k in q.background && k !in Step(q, op).background
  {
    assert k in q.background && k !in q.urgent;
  }

  /** Whatever other operations interleave, a background key at position `i` is dequeued or
      promoted within `9 * i + 9 - burst` regular dequeues. */
  lemma {:induction false} BackgroundServed(q: Queue, ops: seq<Op>, k: ClusterKey, i: nat) returns (n: nat)
    requires Valid(q) && i < |q.background| && q.background[i] == k
    requires Gets(ops) >= BackgroundBound(q.burst, i)
    ensures LeavesBackground(q, ops, k, n)
    ensures Gets(ops[..n]) <= BackgroundBound(q.burst, i)
    decreases ops
  {
    var op := ops[0];
    if TakesOut(q, op, k) {
      n := 1;
      assert ops[..0] == [] && ops[..1][1..] == [];
      TakenOutLeaves(q, op, k, i);
    } else {
      var j := BackgroundStep(q, op, k, i);
      StepKeepsValid(q, op);
      var m := BackgroundServed(Step(q, op), ops[1..], k, j);
      n := m + 1;
      assert ops[..n][1..] == ops[1..][..m];
      assert ops[..n - 1][1..] == ops[1..][..m - 1];
    }
  }

  function RegularGets(n: nat): seq<Op> {
    if n == 0 then [] else [Get] + RegularGets(n - 1)
  }

  lemma GetMovesOne(q: Queue, i: nat) returns (j: nat)
    requires q.burst <= 8 && i < |q.background| && (i > 0 || q.burst < 8)
    requires |q.urgent| >= 8 * i + 8 - q.burst
    ensures var p := q.Get(false);
            && j < |p.background| && p.background[j] == q.background[i]
            && |p.urgent| >= 8 * j + 8 - p.burst && p.burst <= 8
            && BackgroundBound(p.burst, j) == BackgroundBound(q.burst, i) - 1
  {
    j := if q.burst < 8 then i else i - 1;
  }

  /** The bound cannot be lowered: with enough urgent work, one regular dequeue fewer leaves the
      key waiting. */
  lemma {:induction false} BackgroundBoundIsTight(q: Queue, k: ClusterKey, i: nat, n: nat)
    requires q.burst <= 8 && i < |q.background| && q.background[i] == k
    requires |q.urgent| >= 8 * i + 8 - q.burst
    requires n == BackgroundBound(q.burst, i) - 1
    ensures k in Run(q, RegularGets(n)).background
    decreases n
  {
    if n > 0 {
      var j := GetMovesOne(q, i);
      var p := q.Get(false);
      BackgroundBoundIsTight(p, k, j, n - 1);
      assert RegularGets(n)[1..] == RegularGets(n - 1);
      assert Step(q, Get) == p;
    }
  }

  function AnyGets(ops: seq<Op>): nat {
    if ops == [] then 0 else (if ops[0].Get? || ops[0].GetUrgent? then 1 else 0) + AnyGets(ops[1..])
  }

  predicate TakesBackground(q: Queue, op: Op) {
    op.Get? && !q.MustWait(false) && !q.TakesUrgent(false)
  }

  function BackgroundTaken(q: Queue, ops: seq<Op>): nat
    decreases ops
  {
    if ops == [] then 0 else
    (if TakesBackground(q, ops[0]) then 1 else 0) + BackgroundTaken(Step(q, ops[0]), ops[1..])
  }

  /** Background dequeues that can precede urgent position `j`. */
  function UrgentDelay(burst: nat, j: nat): nat {
    (burst + j) / 8
  }

  lemma UrgentStep(q: Queue, op: Op, k: ClusterKey, j: nat) returns (i: nat)
    requires Valid(q) && j < |q.urgent| && q.urgent[j] == k && Result(q, op) != Item(k)
    ensures var p := Step(q, op);
            && i <= j && i < |p.urgent| && p.urgent[i] == k
            && UrgentDelay(p.burst, i) + (if TakesBackground(q, op) then 1 else 0) <= UrgentDelay(q.burst, j)
            && ((op.Get? || op.GetUrgent?) ==>
                  UrgentDelay(p.burst, i) + i + 1 <= UrgentDelay(q.burst, j) + j)
  {
    match op
    case Get => i := if q.TakesUrgent(false) then j - 1 else j;
    case GetUrgent => i := j - 1;
    case _ => i := j;
  }

  /** An urgent key at position `j` is dequeued within `j + 1` urgent dequeues plus at most one
      background dequeue for each eight urgent ones already spent or still ahead of it. */
  lemma {:induction false} UrgentServed(q: Queue, ops: seq<Op>, k: ClusterKey, j: nat) returns (n: nat)
    requires Valid(q) && j < |q.urgent| && q.urgent[j] == k
    requires AnyGets(ops) >= j + 1 + UrgentDelay(q.burst, j)
    ensures 0 < n <= |ops| && Result(Run(q, ops[..n - 1]), ops[n - 1]) == Item(k)
    ensures AnyGets(ops[..n]) <= j + 1 + UrgentDelay(q.burst, j)
    ensures BackgroundTaken(q, ops[..n]) <= UrgentDelay(q.burst, j) <= 1 + j / 8
    decreases ops
  {
    var op := ops[0];
    if Result(q, op) == Item(k) {
      n := 1;
      assert ops[..0] == [] && ops[..1][1..] == [];
      TakenIsUrgent(q, op, k, j);
    } else {
      var i := UrgentStep(q, op, k, j);
      StepKeepsValid(q, op);
      var m := UrgentServed(Step(q, op), ops[1..], k, i);
      n := m + 1;
      assert ops[..n][1..] == ops[1..][..m];
      assert ops[..n - 1][1..] == ops[1..][..m - 1];
    }
  }

  lemma TakenIsUrgent(q: Queue, op: Op, k: ClusterKey, j: nat)
    requires Valid(q) && j < |q.urgent| && q.urgent[j] == k && Result(q, op) == Item(k)
    ensures !TakesBackground(q, op)
  {
    assert k in q.urgent;
    assert TakesBackground(q, op) ==> k in q.background;
  }

  // ---- Turns of the two lanes ----

  /** How many regular dequeues have taken urgent keys since one last took a background key, when there
      were `n` before. Dequeues by urgent-only workers do not count. */
  function UrgentTurns(q: Queue, ops: seq<Op>, n: nat): nat
    decreases ops
  {
    if ops == [] then n else
    var r := Result(q, ops[0]);
    var m := if !ops[0].Get? || !r.Item? then n else if r.key in q.background then 0 else n + 1;
    UrgentTurns(Step(q, ops[0]), ops[1..], m)
  }

  lemma TurnStep(q: Queue, op: Op, n: nat)
    requires Valid(q) && q.burst == (if n < 8 then n else 8)
    ensures var r := Result(q, op);
            var m := if !op.Get? || !r.Item? then n else if r.key in q.background then 0 else n + 1;
            Step(q, op).burst == if m < 8 then m else 8
  {
    if op.Get? && !q.MustWait(false) {
      var k := q.Taken(false);
      assert q.TakesUrgent(false) ==> k in q.urgent;
      assert !q.TakesUrgent(false) ==> k in q.background;
    }
  }

  lemma {:induction false} RunCountsTurns(q: Queue, ops: seq<Op>, n: nat)
    requires Valid(q) && q.burst == (if n < 8 then n else 8)
    ensures var m := UrgentTurns(q, ops, n); Run(q, ops).burst == if m < 8 then m else 8
    decreases ops
  {
    if ops != [] {
      TurnStep(q, ops[0], n);
      StepKeepsValid(q, ops[0]);
      var r := Result(q, ops[0]);
      var m := if !ops[0].Get? || !r.Item? then n else if r.key in q.background then 0 else n + 1;
      RunCountsTurns(Step(q, ops[0]), ops[1..], m);
    }
  }

  /** In every run, a regular dequeue that finds both lanes occupied takes a background key exactly if
      at least eight regular dequeues have taken urgent keys since the last background one. */
  lemma BackgroundTurnIff(ops: seq<Op>, k: ClusterKey)
    requires var q := Run(EMPTY, ops); q.urgent != [] && q.background != [] && Result(q, Get) == Item(k)
    ensures k in Run(EMPTY, ops).background <==> UrgentTurns(EMPTY, ops, 0) >= 8
  {
    RunKeepsValid(EMPTY, ops);
    RunCountsTurns(EMPTY, ops, 0);
    var q := Run(EMPTY, ops);
    assert q.TakesUrgent(false) ==> k in q.urgent;
    assert !q.TakesUrgent(false) ==> k in q.background;
  }

  // ---- Promotions ----

  /** Whether the key was promoted since it was last handed out, if `was` says so of the start. */
  function PromotedSince(q: Queue, ops: seq<Op>, k: ClusterKey, was: bool): bool
    decreases ops
  {
    if ops == [] then was else
    var now := if Result(q, ops[0]) == Item(k) then false else was || (ops[0] == Promote(k) && !q.shuttingDown);
    PromotedSince(Step(q, ops[0]), ops[1..], k, now)
  }

  lemma PromotionStep(q: Queue, op: Op, k: ClusterKey)
    requires Valid(q)
    ensures k in Step(q, op).promoted <==>
              Result(q, op) != Item(k) && (k in q.promoted || (op == Promote(k) && !q.shuttingDown))
  {
  }

  lemma {:induction false} RunTracksPromotions(q: Queue, ops: seq<Op>, k: ClusterKey)
    requires Valid(q)
    ensures k in Run(q, ops).promoted <==> PromotedSince(q, ops, k, k in q.promoted)
    decreases ops
  {
    if ops != [] {
      PromotionStep(q, ops[0], k);
      StepKeepsValid(q, ops[0]);
      RunTracksPromotions(Step(q, ops[0]), ops[1..], k);
    }
  }

  /** In every run, a queued key is in the urgent lane exactly if it was promoted since it was last handed
      out: one promotion speeds up one observation. */
  lemma UrgentLaneIff(ops: seq<Op>, k: ClusterKey)
    requires k in Run(EMPTY, ops).entries
    ensures k in Run(EMPTY, ops).urgent <==> PromotedSince(EMPTY, ops, k, false)
    ensures k in Run(EMPTY, ops).background <==> !PromotedSince(EMPTY, ops, k, false)
  {
    RunKeepsValid(EMPTY, ops);
    RunTracksPromotions(EMPTY, ops, k);
  }
}

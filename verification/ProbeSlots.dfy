/**
  Probe concurrency. Two channels used as semaphores bound the probes in flight; background callers
  pass a narrower gate first, so that part of the limit stays free for urgent ones. Any number of
  callers arrive, wait, give up and release in any order.
 */
module ProbeSlots {
  function ReservedCapacity(limit: int): (reserve: int)
    ensures limit >= 2 ==> 1 <= reserve < limit && limit / 8 <= reserve && (reserve == 1 || 8 * reserve <= limit)
    ensures limit < 2 ==> reserve == 0
  {
    if limit < 2 then 0 else if limit / 8 > 1 then limit / 8 else 1
  }

  /** Where a caller is. Releasing gives back the slot first and the background slot after. */
  datatype Stage = AtGate | AtSlot(urgent: bool) | Probing(urgent: bool) | Returning {
    /** The caller has taken a background slot and not given it back. */
    predicate HoldsBackground() {
      this == AtSlot(false) || this == Probing(false) || this == Returning
    }
  }

  /** `background` and `slots` are the lengths of the two channels. */
  datatype State = State(limit: int, background: nat, slots: nat, callers: map<nat, Stage>) {
    function BackgroundLimit(): int {
      limit - ReservedCapacity(limit)
    }

    predicate Is(id: nat, stage: Stage) {
      id in callers && callers[id] == stage
    }

    /** A caller whose context has ended leaves at once. */
    function Arrive(id: nat, urgent: bool, ended: bool): State {
      if id in callers || ended then this
      else this.(callers := callers[id := if urgent then AtSlot(true) else AtGate])
    }

    predicate CanPass(id: nat) {
      Is(id, AtGate) && background < BackgroundLimit()
    }

    function Pass(id: nat): State {
      if !CanPass(id) then this else this.(background := background + 1, callers := callers[id := AtSlot(false)])
    }

    predicate CanProbe(id: nat) {
      id in callers && callers[id].AtSlot? && slots < limit
    }

    function Probe(id: nat): State {
      if !CanProbe(id) then this else this.(slots := slots + 1, callers := callers[id := Probing(callers[id].urgent)])
    }

    /** The context ends while the caller waits. */
    function GiveUp(id: nat): State {
      if Is(id, AtGate) || Is(id, AtSlot(true)) then this.(callers := callers - {id})
      else if Is(id, AtSlot(false)) && background > 0
          then this.(background := background - 1, callers := callers - {id})
      else this
    }

    predicate CanRelease(id: nat) {
      id in callers && callers[id].Probing? && slots > 0
    }

    function Release(id: nat): State {
      if !CanRelease(id) then this
      else if callers[id].urgent then this.(slots := slots - 1, callers := callers - {id})
      else this.(slots := slots - 1, callers := callers[id := Returning])
    }

    predicate CanReturn(id: nat) {
      Is(id, Returning) && background > 0
    }

    function Return(id: nat): State {
      if !CanReturn(id) then this else this.(background := background - 1, callers := callers - {id})
    }
  }

  function InBackground(callers: map<nat, Stage>): set<nat> {
    set id | id in callers && callers[id].HoldsBackground()
  }

  function InSlots(callers: map<nat, Stage>): set<nat> {
    set id | id in callers && callers[id].Probing?
  }

  /** Both semaphores equal the callers past each gate, and respect their limits. */
  ghost predicate Valid(s: State) {
    && s.limit >= 1 && s.background == |InBackground(s.callers)| <= s.BackgroundLimit()
    && s.slots == |InSlots(s.callers)| <= s.limit
  }

  datatype Op =
    | Arrive(id: nat, urgent: bool, ended: bool)
    | Pass(id: nat)
    | Probe(id: nat)
    | GiveUp(id: nat)
    | Release(id: nat)
    | Return(id: nat)

  function Next(s: State, op: Op): State {
    match op
    case Arrive(id, urgent, ended) => s.Arrive(id, urgent, ended)
    case Pass(id) => s.Pass(id)
    case Probe(id) => s.Probe(id)
    case GiveUp(id) => s.GiveUp(id)
    case Release(id) => s.Release(id)
    case Return(id) => s.Return(id)
  }

  function Run(s: State, ops: seq<Op>): State
    decreases ops
  {
    if ops == [] then s else Run(Next(s, ops[0]), ops[1..])
  }

  function Start(limit: int): State {
    State(limit, 0, 0, map[])
  }

  // ---- Counting ----

  lemma MovedIn(a: set<nat>, b: set<nat>, id: nat)
    requires a - {id} == b - {id}
    ensures |b| == |a| + (if id in b then 1 else 0) - (if id in a then 1 else 0)
  {
    assert |a - {id}| == |a| - if id in a then 1 else 0;
    assert |b - {id}| == |b| - if id in b then 1 else 0;
  }

  /** Where a caller stands, and what it counts for; nobody counts for nothing. */
  predicate CountsBackground(callers: map<nat, Stage>, id: nat) {
    id in callers && callers[id].HoldsBackground()
  }

  predicate CountsSlot(callers: map<nat, Stage>, id: nat) {
    id in callers && callers[id].Probing?
  }

  /** The semaphores move with the one caller that moves. */
  lemma MoveKeepsValid(s: State, t: State, id: nat)
    requires Valid(s) && t.limit == s.limit && t.callers - {id} == s.callers - {id}
    requires t.background == s.background + (if CountsBackground(t.callers, id) then 1 else 0)
                                          - (if CountsBackground(s.callers, id) then 1 else 0) <= t.BackgroundLimit()
    requires t.slots == s.slots + (if CountsSlot(t.callers, id) then 1 else 0)
                                - (if CountsSlot(s.callers, id) then 1 else 0) <= t.limit
    ensures Valid(t)
  {
    OthersStay(s.callers, t.callers, id);
    MovedIn(InBackground(s.callers), InBackground(t.callers), id);
    MovedIn(InSlots(s.callers), InSlots(t.callers), id);
  }

  lemma OthersStay(a: map<nat, Stage>, b: map<nat, Stage>, id: nat)
    requires a - {id} == b - {id}
    ensures InBackground(a) - {id} == InBackground(b) - {id} && InSlots(a) - {id} == InSlots(b) - {id}
    ensures forall level :: AtLevel(a, level) - {id} == AtLevel(b, level) - {id}
  {
    forall k | k != id
      ensures (k in a <==> k in b) && (k in a ==> a[k] == b[k])
    {
      assert k in a <==> k in a - {id};
      assert k in b <==> k in b - {id};
      assert k in a ==> (a - {id})[k] == a[k];
      assert k in b ==> (b - {id})[k] == b[k];
    }
  }

  lemma StepMovesOne(s: State, op: Op)
    ensures Next(s, op).callers - {op.id} == s.callers - {op.id}
  {
  }

  lemma StepKeepsValid(s: State, op: Op)
    requires Valid(s)
    ensures Valid(Next(s, op))
  {
    StepMovesOne(s, op);
    if Next(s, op) != s {
      MoveKeepsValid(s, Next(s, op), op.id);
    }
  }

  lemma {:induction false} RunKeepsValid(s: State, ops: seq<Op>)
    requires Valid(s)
    ensures Valid(Run(s, ops)) && Run(s, ops).limit == s.limit
    decreases ops
  {
    if ops != [] {
      StepKeepsValid(s, ops[0]);
      RunKeepsValid(Next(s, ops[0]), ops[1..]);
    }
  }

  lemma StartIsValid(limit: int)
    requires limit >= 1
    ensures Valid(Start(limit))
  {
  }

  /** After any run both semaphores equal the callers past each gate. In particular nothing is held
      when nobody is left, however many callers gave up. */
  lemma SemaphoresCountCallers(limit: int, ops: seq<Op>)
    requires limit >= 1
    ensures Valid(Run(Start(limit), ops))
    ensures Run(Start(limit), ops).callers == map[] ==>
              Run(Start(limit), ops).background == 0 == Run(Start(limit), ops).slots
  {
    StartIsValid(limit);
    RunKeepsValid(Start(limit), ops);
  }

  // ---- The reserve ----

  function UrgentProbes(callers: map<nat, Stage>): set<nat> {
    set id | id in callers && callers[id] == Probing(true)
  }

  lemma SubsetIsSmaller(a: set<nat>, b: set<nat>)
    requires a <= b
    ensures |a| <= |b|
  {
    assert b == a + (b - a);
  }

  lemma ProbesSplit(callers: map<nat, Stage>)
    ensures |InSlots(callers)| <= |UrgentProbes(callers)| + |InBackground(callers)|
  {
    var rest := InSlots(callers) - UrgentProbes(callers);
    forall id | id in rest
      ensures id in InBackground(callers)
    {
      assert callers[id] == Probing(callers[id].urgent);
    }
    SubsetIsSmaller(rest, InBackground(callers));
    assert InSlots(callers) == UrgentProbes(callers) + rest;
  }

  /** Background work alone never fills the limit: when no slot is free, urgent probes hold at least
      the reserve, so with a limit of two or more an urgent caller waits only for urgent ones too. */
  lemma UrgentIsNotStarved(limit: int, ops: seq<Op>)
    requires limit >= 1
    ensures var s := Run(Start(limit), ops);
            s.slots == limit ==> |UrgentProbes(s.callers)| >= ReservedCapacity(limit)
  {
    StartIsValid(limit);
    RunKeepsValid(Start(limit), ops);
    ProbesSplit(Run(Start(limit), ops).callers);
  }

  /** An urgent caller gets a slot at once unless an urgent probe is running. */
  lemma UrgentProceeds(limit: int, ops: seq<Op>, id: nat)
    requires limit >= 2 && Run(Start(limit), ops).Is(id, AtSlot(true))
             && UrgentProbes(Run(Start(limit), ops).callers) == {}
    ensures Run(Start(limit), ops).CanProbe(id)
  {
    SemaphoresCountCallers(limit, ops);
    UrgentIsNotStarved(limit, ops);
    StartIsValid(limit);
    RunKeepsValid(Start(limit), ops);
  }

  // ---- Progress ----

  /** How many steps a caller still has to take. */
  function Level(stage: Stage): nat {
    match stage
    case AtGate => 4
    case AtSlot(_) => 3
    case Probing(_) => 2
    case Returning => 1
  }

  function AtLevel(callers: map<nat, Stage>, level: nat): set<nat> {
    set id | id in callers && Level(callers[id]) == level
  }

  function Rank(callers: map<nat, Stage>): nat {
    4 * |AtLevel(callers, 4)| + 3 * |AtLevel(callers, 3)| + 2 * |AtLevel(callers, 2)| + |AtLevel(callers, 1)|
  }

  function LevelOf(callers: map<nat, Stage>, id: nat): nat {
    if id in callers then Level(callers[id]) else 0
  }

  lemma MovedRank(a: map<nat, Stage>, b: map<nat, Stage>, id: nat)
    requires a - {id} == b - {id}
    ensures Rank(b) == Rank(a) + LevelOf(b, id) - LevelOf(a, id)
  {
    OthersStay(a, b, id);
    MovedIn(AtLevel(a, 4), AtLevel(b, 4), id);
    MovedIn(AtLevel(a, 3), AtLevel(b, 3), id);
    MovedIn(AtLevel(a, 2), AtLevel(b, 2), id);
    MovedIn(AtLevel(a, 1), AtLevel(b, 1), id);
  }

  /** Every step except an arrival brings some caller nearer its end. */
  lemma StepFalls(s: State, op: Op)
    requires !op.Arrive? && Next(s, op) != s
    ensures Rank(Next(s, op).callers) < Rank(s.callers)
  {
    StepMovesOne(s, op);
    MovedRank(s.callers, Next(s, op).callers, op.id);
  }

  ghost predicate Effective(s: State, ops: seq<Op>)
    decreases ops
  {
    ops == [] || (!ops[0].Arrive? && Next(s, ops[0]) != s && Effective(Next(s, ops[0]), ops[1..]))
  }

  /** A step that some caller can take without waiting and without giving up. */
  predicate Enabled(s: State, id: nat) {
    s.CanPass(id) || s.CanProbe(id) || s.CanRelease(id) || s.CanReturn(id)
  }

  lemma MemberMeansNonzero(a: set<nat>, id: nat)
    requires id in a
    ensures |a| > 0
  {
  }

  /** A holder releases without waiting. */
  lemma HoldersRelease(s: State, id: nat)
    requires Valid(s) && id in s.callers && (s.callers[id].Probing? || s.callers[id].Returning?)
    ensures Enabled(s, id)
  {
    if s.callers[id].Probing? {
      MemberMeansNonzero(InSlots(s.callers), id);
    } else {
      MemberMeansNonzero(InBackground(s.callers), id);
    }
  }

  lemma PickOne(a: set<nat>) returns (id: nat)
    requires |a| > 0
    ensures id in a
  {
    id :| id in a;
  }

  /** No deadlock: whenever somebody is there, somebody can take a step that needs no waiting. */
  lemma SomebodyProceeds(s: State, id: nat) returns (who: nat)
    requires Valid(s) && id in s.callers
    ensures who in s.callers && Enabled(s, who)
  {
    who := id;
    if s.callers[id].AtSlot? {
      if s.slots >= s.limit {
        who := PickOne(InSlots(s.callers));
        HoldersRelease(s, who);
      }
    } else if s.callers[id].AtGate? {
      if s.background >= s.BackgroundLimit() {
        who := PickOne(InBackground(s.callers));
        if s.callers[who].AtSlot? {
          who := SomebodyBehindGate(s, who);
        } else {
          HoldersRelease(s, who);
        }
      }
    } else {
      HoldersRelease(s, id);
    }
  }

  lemma SomebodyBehindGate(s: State, id: nat) returns (who: nat)
    requires Valid(s) && id in s.callers && s.callers[id].AtSlot?
    ensures who in s.callers && Enabled(s, who)
  {
    who := id;
    if s.slots >= s.limit {
      who := PickOne(InSlots(s.callers));
      HoldersRelease(s, who);
    }
  }

  /** Once arrivals stop, only so many steps can be taken, and when no more can, nobody is left. */
  lemma {:induction false} EverybodyFinishes(s: State, ops: seq<Op>)
    requires Valid(s) && Effective(s, ops)
    ensures |ops| <= Rank(s.callers)
    ensures (forall id :: !Enabled(Run(s, ops), id)) ==>
              Run(s, ops).callers == map[] && Run(s, ops).slots == 0 == Run(s, ops).background
    decreases ops
  {
    if ops == [] {
      if id :| id in s.callers {
        var who := SomebodyProceeds(s, id);
      }
    } else {
      StepFalls(s, ops[0]);
      StepKeepsValid(s, ops[0]);
      EverybodyFinishes(Next(s, ops[0]), ops[1..]);
    }
  }

  // ---- The channels ----

  datatype Outcome = Cancelled | WaitsAtGate | WaitsForSlot | Acquired

  /** The two channels by their lengths. The ghost `callers` says who stands where. */
  class Channels {
    const limit: int
    var background: nat
    var slots: nat
    ghost var callers: map<nat, Stage>

    ghost function Value(): State
      reads this
    {
      State(limit, background, slots, callers)
    }

    constructor (limit: int)
      ensures Value() == Start(limit)
    {
      this.limit := limit;
      background, slots, callers := 0, 0, map[];
    }

    /** Acquiring up to the first wait; the caller keeps what it took. */
    method Acquire(urgent: bool, ended: bool, ghost id: nat) returns (outcome: Outcome)
      requires id !in callers
      modifies this
      ensures Value() == old(Value()).Arrive(id, urgent, ended).Pass(id).Probe(id)
      ensures outcome.Cancelled? <==> id !in callers
      ensures outcome.WaitsAtGate? <==> Value().Is(id, AtGate)
      ensures outcome.WaitsForSlot? <==> Value().Is(id, AtSlot(urgent))
      ensures outcome.Acquired? <==> Value().Is(id, Probing(urgent))
    {
      if ended {
        return Cancelled;
      }
      callers := callers[id := if urgent then AtSlot(true) else AtGate];
      if !urgent {
        if background >= limit - ReservedCapacity(limit) {
          return WaitsAtGate;
        }
        background := background + 1;
        callers := callers[id := AtSlot(false)];
      }
      if slots >= limit {
        return WaitsForSlot;
      }
      slots := slots + 1;
      callers := callers[id := Probing(urgent)];
      outcome := Acquired;
    }

    /** The context of a waiting caller ends; `atGate` says where it waits. */
    method GiveUp(urgent: bool, atGate: bool, ghost id: nat)
      requires Valid(Value()) && Value().Is(id, if atGate then AtGate else AtSlot(urgent)) && (atGate ==> !urgent)
      modifies this
      ensures Value() == old(Value()).GiveUp(id)
    {
      if !urgent && !atGate {
        MemberMeansNonzero(InBackground(callers), id);
        background := background - 1;
      }
      callers := callers - {id};
    }

    /** The release function that a successful acquire returns. */
    method Release(urgent: bool, ghost id: nat)
      requires Valid(Value()) && Value().Is(id, Probing(urgent))
      modifies this
      ensures Value() == old(Value()).Release(id).Return(id)
      ensures id !in callers
    {
      MemberMeansNonzero(InSlots(callers), id);
      slots := slots - 1;
      if !urgent {
        MemberMeansNonzero(InBackground(callers), id);
        background := background - 1;
      }
      callers := callers - {id};
    }
  }
}

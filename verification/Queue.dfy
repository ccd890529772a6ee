/**
  The observation queue. Two FIFO lanes share one coalescing state, so a key has at most one
  observation in flight and at most one pending follow-up. `Queue` is the value a queue holds
  between critical sections; the functions below are its critical sections.
 */
module PriorityQueues {
  import opened Keys

  const URGENT_BURST_LIMIT: nat := 8

  datatype Lane = Urgent | Background

  /** `entries` stands for the element pointers: which lane holds the element of a queued key. */
  datatype Queue = Queue(
    urgent: seq<ClusterKey>,
    background: seq<ClusterKey>,
    entries: map<ClusterKey, Lane>,
    dirty: set<ClusterKey>,
    processing: map<ClusterKey, bool>,
    promoted: set<ClusterKey>,
    burst: nat,
    shuttingDown: bool,
    drain: bool)
  {
    function Push(key: ClusterKey): Queue {
      if key in promoted then
        this.(urgent := urgent + [key], entries := entries[key := Urgent])
      else
        this.(background := background + [key], entries := entries[key := Background])
    }

    function Promote(key: ClusterKey): Queue {
      if shuttingDown || key in promoted then this else
      var p := this.(promoted := promoted + {key});
      if key !in p.entries then p else
      // A list removes only elements that it holds itself.
      var rest := if p.entries[key].Background? then Without(p.background, key) else p.background;
      p.(background := rest, urgent := p.urgent + [key], entries := p.entries[key := Urgent])
    }

    function Add(key: ClusterKey): Queue {
      if shuttingDown || key in dirty then this else
      var p := this.(dirty := dirty + {key});
      if key in p.processing then p else p.Push(key)
    }

    predicate MustWait(urgentOnly: bool) {
      urgent == [] && (urgentOnly || background == [])
    }

    predicate TakesUrgent(urgentOnly: bool) {
      urgent != [] && (urgentOnly || burst < URGENT_BURST_LIMIT || background == [])
    }

    function Taken(urgentOnly: bool): ClusterKey
      requires !MustWait(urgentOnly)
    {
      if TakesUrgent(urgentOnly) then urgent[0] else background[0]
    }

    function Get(urgentOnly: bool): Queue {
      if MustWait(urgentOnly) then this else
      var key := Taken(urgentOnly);
      var taken :=
        if TakesUrgent(urgentOnly) then
          this.(urgent := urgent[1..],
                burst := if !urgentOnly && burst < URGENT_BURST_LIMIT then burst + 1 else burst)
        else
          this.(background := background[1..], burst := 0);
      taken.(entries := taken.entries - {key}, dirty := taken.dirty - {key},
             promoted := taken.promoted - {key},
             processing := taken.processing[key := TakesUrgent(urgentOnly)])
    }

    function GetOutcome(urgentOnly: bool): Outcome {
      if !MustWait(urgentOnly) then Item(Taken(urgentOnly))
      else if shuttingDown then Closed else Wait
    }

    function Done(key: ClusterKey): Queue {
      if key !in processing then this else
      var p := this.(processing := processing - {key});
      if key in p.dirty then p.Push(key) else p
    }

    function ShutDown(): Queue {
      this.(drain := false, shuttingDown := true)
    }

    function BeginDrain(): Queue {
      this.(drain := true, shuttingDown := true)
    }

    /** The negation of the drain wait condition. */
    predicate DrainEnds() {
      !drain || (|entries| == 0 && |processing| == 0)
    }
  }

  /** `Wait` is the outcome of a `get` that has to wait on the condition variable. */
  datatype Outcome = Item(key: ClusterKey) | Closed | Wait | Nothing

  const EMPTY := Queue([], [], map[], {}, map[], {}, 0, false, false)

  function Without(lane: seq<ClusterKey>, key: ClusterKey): (r: seq<ClusterKey>)
    ensures key !in r
    ensures forall k :: k in r <==> k in lane && k != key
    ensures |r| <= |lane|
    ensures key !in lane ==> r == lane
  {
    if lane == [] then [] else
    if lane[0] == key then Without(lane[1..], key) else [lane[0]] + Without(lane[1..], key)
  }

  ghost predicate Distinct(s: seq<ClusterKey>) {
    forall i, j :: 0 <= i < j < |s| ==> s[i] != s[j]
  }

  /** A lane holds exactly the elements recorded for it, each once. */
  ghost predicate Holds(lane: seq<ClusterKey>, entries: map<ClusterKey, Lane>, which: Lane) {
    && Distinct(lane)
    && (forall k :: k in lane <==> k in entries && entries[k] == which)
  }

  /** The representation invariant: the lanes partition the queued keys, and `dirty` is exactly
      the queued keys plus the active keys that owe one follow-up. */
  ghost predicate Valid(q: Queue) {
    && Holds(q.urgent, q.entries, Urgent)
    && Holds(q.background, q.entries, Background)
    && (forall k :: k in q.entries ==> (k in q.promoted <==> q.entries[k] == Urgent))
    && (forall k :: k in q.entries ==> k in q.dirty && k !in q.processing)
    && (forall k :: k in q.dirty ==> k in q.entries || k in q.processing)
    && q.burst <= URGENT_BURST_LIMIT
  }

  lemma Appended(lane: seq<ClusterKey>, entries: map<ClusterKey, Lane>, which: Lane, other: Lane, key: ClusterKey)
    requires Holds(lane, entries, which) && key !in entries && other != which
    ensures Holds(lane + [key], entries[key := which], which)
    ensures Holds(lane, entries[key := other], which)
  {
  }

  lemma FrontRemoved(lane: seq<ClusterKey>, entries: map<ClusterKey, Lane>, which: Lane)
    requires Holds(lane, entries, which) && lane != []
    ensures lane[0] in entries && entries[lane[0]] == which
    ensures Holds(lane[1..], entries - {lane[0]}, which)
  {
  }

  lemma {:induction false} WithoutDistinct(lane: seq<ClusterKey>, key: ClusterKey)
    requires Distinct(lane)
    ensures Distinct(Without(lane, key))
  {
    if lane != [] {
      WithoutDistinct(lane[1..], key);
      assert lane[0] !in lane[1..];
    }
  }

  /** Every critical section keeps the invariant. */
  lemma PromoteKeepsValid(q: Queue, key: ClusterKey)
    requires Valid(q)
    ensures Valid(q.Promote(key))
  {
    WithoutDistinct(q.background, key);
  }

  /** Queueing a key that is owed work but is in no lane. */
  lemma PushKeepsValid(q: Queue, key: ClusterKey)
    requires Valid(q.(dirty := q.dirty - {key}))
    requires key in q.dirty && key !in q.entries && key !in q.processing
    ensures Valid(q.Push(key))
  {
    var p := q.(dirty := q.dirty - {key});
    LanePushKeepsValid(p, q.Push(key), key, if key in q.promoted then Urgent else Background);
  }

  lemma LanePushKeepsValid(p: Queue, t: Queue, key: ClusterKey, lane: Lane)
    requires Valid(p) && key !in p.dirty && key !in p.entries && key !in p.processing
    requires (key in p.promoted <==> lane == Urgent) && t.dirty == p.dirty + {key}
             && t.entries == p.entries[key := lane]
    requires t.processing == p.processing && t.promoted == p.promoted && t.burst == p.burst
    requires t.urgent == if lane == Urgent then p.urgent + [key] else p.urgent
    requires t.background == if lane == Background then p.background + [key] else p.background
    ensures Valid(t)
  {
    Appended(p.urgent, p.entries, Urgent, Background, key);
    Appended(p.background, p.entries, Background, Urgent, key);
  }

  lemma AddKeepsValid(q: Queue, key: ClusterKey)
    requires Valid(q)
    ensures Valid(q.Add(key))
  {
    if key !in q.dirty {
      var p := q.(dirty := q.dirty + {key});
      assert p.(dirty := p.dirty - {key}) == q;
      if key !in q.processing {
        PushKeepsValid(p, key);
      }
    }
  }

  lemma GetKeepsValid(q: Queue, urgentOnly: bool)
    requires Valid(q)
    ensures Valid(q.Get(urgentOnly))
  {
    if q.TakesUrgent(urgentOnly) {
      FrontRemoved(q.urgent, q.entries, Urgent);
    } else if !q.MustWait(urgentOnly) {
      FrontRemoved(q.background, q.entries, Background);
    }
  }

  lemma DoneKeepsValid(q: Queue, key: ClusterKey)
    requires Valid(q)
    ensures Valid(q.Done(key))
  {
    if key in q.processing {
      var p := q.(processing := q.processing - {key});
      if key in q.dirty {
        PushKeepsValid(p, key);
      }
    }
  }

  /** The queue object itself; each method is one critical section under its mutex. */
  class PriorityQueue {
    var urgent: seq<ClusterKey>
    var background: seq<ClusterKey>
    var entries: map<ClusterKey, Lane>
    var dirty: set<ClusterKey>
    var processing: map<ClusterKey, bool>
    var promoted: set<ClusterKey>
    var burst: nat
    var shuttingDown: bool
    var drain: bool

    ghost function Value(): Queue
      reads this
    {
      Queue(urgent, background, entries, dirty, processing, promoted, burst, shuttingDown, drain)
    }

    constructor ()
      ensures Value() == EMPTY && Valid(Value())
    {
      urgent, background, entries := [], [], map[];
      dirty, processing, promoted := {}, map[], {};
      burst, shuttingDown, drain := 0, false, false;
    }

    method Promote(key: ClusterKey)
      requires Valid(Value())
      modifies this
      ensures Value() == old(Value()).Promote(key) && Valid(Value())
    {
      PromoteKeepsValid(Value(), key);
      if shuttingDown || key in promoted {
        return;
      }
      promoted := promoted + {key};
      if key in entries {
        background := if entries[key].Background? then Without(background, key) else background;
        urgent := urgent + [key];
        entries := entries[key := Urgent];
      }
    }

    method Add(key: ClusterKey)
      requires Valid(Value())
      modifies this
      ensures Value() == old(Value()).Add(key) && Valid(Value())
    {
      AddKeepsValid(Value(), key);
      if shuttingDown || key in dirty {
        return;
      }
      dirty := dirty + {key};
      if key !in processing {
        Push(key);
      }
    }

    method Push(key: ClusterKey)
      modifies this
      ensures Value() == old(Value()).Push(key)
    {
      if key in promoted {
        urgent := urgent + [key];
        entries := entries[key := Urgent];
      } else {
        background := background + [key];
        entries := entries[key := Background];
      }
    }

    /** One evaluation of the wait loop and, unless it has to wait, of the dequeue. */
    method Get(urgentOnly: bool) returns (outcome: Outcome)
      requires Valid(Value())
      modifies this
      ensures outcome == old(Value()).GetOutcome(urgentOnly)
      ensures Value() == old(Value()).Get(urgentOnly) && Valid(Value())
    {
      GetKeepsValid(Value(), urgentOnly);
      if |urgent| == 0 && (urgentOnly || |background| == 0) {
        return if shuttingDown then Closed else Wait;
      }
      var key := Dequeue(urgentOnly);
      outcome := Item(key);
    }

    method Dequeue(urgentOnly: bool) returns (key: ClusterKey)
      requires !Value().MustWait(urgentOnly)
      modifies this
      ensures key == old(Value()).Taken(urgentOnly)
      ensures Value() == old(Value()).Get(urgentOnly)
    {
      var takeUrgent := |urgent| > 0 && (urgentOnly || burst < URGENT_BURST_LIMIT || |background| == 0);
      if takeUrgent {
        key := urgent[0];
        urgent := urgent[1..];
        if !urgentOnly && burst < URGENT_BURST_LIMIT {
          burst := burst + 1;
        }
      } else {
        key := background[0];
        background := background[1..];
        burst := 0;
      }
      entries := entries - {key};
      dirty := dirty - {key};
      promoted := promoted - {key};
      processing := processing[key := takeUrgent];
    }

    method Done(key: ClusterKey)
      requires Valid(Value())
      modifies this
      ensures Value() == old(Value()).Done(key) && Valid(Value())
    {
      DoneKeepsValid(Value(), key);
      if key !in processing {
        return;
      }
      processing := processing - {key};
      if key in dirty {
        Push(key);
      }
    }

    /** Nothing more is accepted, and nobody waits for a drain any longer. */
    method ShutDown()
      requires Valid(Value())
      modifies this
      ensures Value() == old(Value()).ShutDown() && Valid(Value())
      ensures Value().DrainEnds() && forall k :: Value().Add(k) == Value() && Value().Promote(k) == Value()
    {
      drain := false;
      shuttingDown := true;
    }

    /** The part of a drain before its wait loop; `ended` is the loop's exit test. */
    method BeginDrain() returns (ended: bool)
      requires Valid(Value())
      modifies this
      ensures Value() == old(Value()).BeginDrain() && Valid(Value())
      ensures ended <==> Value().DrainEnds()
    {
      drain := true;
      shuttingDown := true;
      ended := !drain || (|entries| == 0 && |processing| == 0);
    }
  }
}

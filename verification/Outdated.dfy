/**
  A run to a certified publication, and on to an offered record whose CA has been replaced although no
  Secret handler is outstanding: the new CA is fetched before the Secret's handler runs, which then
  finds the cached entry current.
 */
module Outdated {
  import opened Keys
  import opened Api
  import opened CACaches
  import opened Pending
  import C = Certified
  import CA = CAProtocol
  import P = Protocol
  import Slices

  const SECRET := "ca"
  const NEW := Version("s", "2")

  // ---- Runs of one side ----

  function Observing(actions: seq<P.Action>): seq<C.Action> {
    if actions == [] then [] else [C.Observe(actions[0])] + Observing(actions[1..])
  }

  function Caching(steps: seq<CA.Action>): seq<C.Action> {
    if steps == [] then [] else [C.Cache(SECRET, steps[0], false)] + Caching(steps[1..])
  }

  lemma {:induction false} RunObserving(v: C.System, actions: seq<P.Action>)
    requires forall i :: 0 <= i < |actions| ==> !actions[i].Publish? && !actions[i].HandleSecret?
    ensures C.Run(v, Observing(actions)) == v.(observer := P.Run(v.observer, actions))
    decreases actions
  {
    if actions != [] {
      assert Observing(actions)[1..] == Observing(actions[1..]);
      RunObserving(C.Next(v, C.Observe(actions[0])), actions[1..]);
    }
  }

  lemma {:induction false} RunCaching(v: C.System, steps: seq<CA.Action>)
    requires forall i :: 0 <= i < |steps| ==> !steps[i].Handle?
    ensures var u := C.Run(v, Caching(steps)); u.observer == v.observer
                                               && u.Secret(SECRET) == CA.Run(v.Secret(SECRET), steps)
    decreases steps
  {
    if steps != [] {
      assert Caching(steps)[1..] == Caching(steps[1..]);
      RunCaching(C.Next(v, C.Cache(SECRET, steps[0], false)), steps[1..]);
    }
  }

  lemma {:induction false} RunAppended(v: C.System, actions: seq<C.Action>, more: seq<C.Action>)
    ensures C.Run(v, actions + more) == C.Run(C.Run(v, actions), more)
    decreases actions
  {
    if actions == [] {
      assert [] + more == more;
    } else {
      assert (actions + more)[1..] == actions[1..] + more;
      RunAppended(C.Next(v, actions[0]), actions[1..], more);
    }
  }

  // ---- Fetching ----

  /** The cache of the Secret at rest with that entry, as the informer's last content. */
  predicate Fetched(s: CA.World, contents: seq<Option<Version>>, ca: Entry) {
    && s.contents == contents && s.handled == 0 && s.seen < |contents| && s.issued == ca.id + 1
    && s.cell == Cell(Some(ca), false, false, 0, Leaving)
  }

  function Fetching(version: Version, public: seq<bv8>, read: nat): seq<CA.Action> {
    [CA.Ask(read), CA.Take, CA.Begin(read, true, true), CA.End(Some((version, public)), read, false, true, true)]
  }

  lemma RunFetching(s: CA.World, version: Version, public: seq<bv8>, read: nat)
    requires s.cell.worker == Idle && !s.cell.pending && !s.cell.queued && s.cell.retries == 0 && s.handled == 0
    requires s.seen <= read && read + 1 == |s.contents| && s.contents[read] == Some(version)
             && !s.cell.Fresh(Some(version))
    ensures Fetched(CA.Run(s, Fetching(version, public, read)), s.contents, Entry(s.issued, version, public))
  {
    var steps := Fetching(version, public, read);
    var asked := CA.Next(s, steps[0]);
    var taken := CA.Next(asked, steps[1]);
    var begun := CA.Next(taken, steps[2]);
    assert begun.cell.worker == Reading(version, false) && begun.contents == s.contents && begun.seen == read;
    var ended := CA.Next(begun, steps[3]);
    RunFour(s, steps);
  }

  lemma RunFour(s: CA.World, steps: seq<CA.Action>)
    requires |steps| == 4
    ensures CA.Run(s, steps) == CA.Next(CA.Next(CA.Next(CA.Next(s, steps[0]), steps[1]), steps[2]), steps[3])
  {
    var one, two, three := CA.Next(s, steps[0]), steps[2..], steps[3..];
    assert CA.Run(s, steps) == CA.Run(one, steps[1..]);
    assert steps[1..][1..] == two && CA.Run(one, steps[1..]) == CA.Run(CA.Next(one, steps[1]), two);
    var next := CA.Next(CA.Next(one, steps[1]), steps[2]);
    assert two[1..] == three && CA.Run(CA.Next(one, steps[1]), two) == CA.Run(next, three);
    assert three[1..] == [] && CA.Run(next, three) == CA.Run(CA.Next(next, steps[3]), []);
  }

  const FIRST_FETCH: seq<CA.Action> :=
      [CA.Change(Some(CERTIFICATE.version))] + Fetching(CERTIFICATE.version, CERTIFICATE.public, 1)
  const NEXT_FETCH: seq<CA.Action> := [CA.Done, CA.Change(Some(NEW))] + Fetching(NEW, [2], 2)

  lemma {:induction false} RunCAAppended(s: CA.World, steps: seq<CA.Action>, more: seq<CA.Action>)
    ensures CA.Run(s, steps + more) == CA.Run(CA.Run(s, steps), more)
    decreases steps
  {
    if steps == [] {
      assert [] + more == more;
    } else {
      assert (steps + more)[1..] == steps[1..] + more;
      RunCAAppended(CA.Next(s, steps[0]), steps[1..], more);
    }
  }

  lemma RunFirstFetch()
    ensures Fetched(CA.Run(CA.START, FIRST_FETCH), [None, Some(CERTIFICATE.version)], CERTIFICATE)
  {
    var change := CA.Change(Some(CERTIFICATE.version));
    RunCAAppended(CA.START, [change], Fetching(CERTIFICATE.version, CERTIFICATE.public, 1));
    assert [change][1..] == [];
    var s := CA.Next(CA.START, change);
    assert s.contents == [None, Some(CERTIFICATE.version)];
    RunFetching(s, CERTIFICATE.version, CERTIFICATE.public, 1);
  }

  lemma RunNextFetch(s: CA.World)
    requires Fetched(s, [None, Some(CERTIFICATE.version)], CERTIFICATE)
    ensures Fetched(CA.Run(s, NEXT_FETCH), [None, Some(CERTIFICATE.version), Some(NEW)], Entry(1, NEW, [2]))
  {
    var head := [CA.Done, CA.Change(Some(NEW))];
    RunCAAppended(s, head, Fetching(NEW, [2], 2));
    assert head[1..] == [CA.Change(Some(NEW))] && head[1..][1..] == [];
    var t := CA.Next(CA.Next(s, CA.Done), CA.Change(Some(NEW)));
    assert t.contents == [None, Some(CERTIFICATE.version), Some(NEW)];
    RunFetching(t, NEW, [2], 2);
  }

  // ---- Publishing ----

  const PUBLICATION := C.Publish(OBSERVED, 1, 1, [POD], 1, false)

  /** The publication of the retained CA, which the cache and the informer confirm. */
  lemma Publishing(v: C.System)
    requires Holds(v.observer, [None, Some(FIRST)], 1, [map[], map["a" := POD]], ["a"], 1)
    requires v.observer.slice.claims == None && v.observer.slice.worker == Slices.Observing(false)
    requires Fetched(v.Secret(SECRET), [None, Some(CERTIFICATE.version)], CERTIFICATE) && v.Secret(SECRET).seen <= 1
    ensures var u := C.Next(v, PUBLICATION);
            && u.observer == P.Next(v.observer, PUBLISH) && u.Secret(SECRET) == CA.Left(v.Secret(SECRET))
  {
    assert C.CurrentCA(v, OBSERVED, 1);
    assert C.PublishStep(v, PUBLICATION) == PUBLISH;
  }

  // ---- The handler comes late ----

  /** An offer of the old CA, with the new one cached; `handled` events of the Secret are handled. */
  predicate Replaced(v: C.System, handled: nat) {
    && v.observer.clusters == [None, Some(FIRST)] && v.observer.handled == 1 == v.observer.seen
    && Slices.Offers(v.observer.slice.record)
       && v.observer.slice.record.value.connection.serverCAPEM == CERTIFICATE.public
    && var s := v.Secret(SECRET);
       && s.contents == [None, Some(CERTIFICATE.version), Some(NEW)] && s.handled == handled && s.seen <= 2
       && s.cell.entry == Some(Entry(1, NEW, [2]))
  }

  const HANDLING := C.HandleSecret(SECRET, 2, 1, false)

  lemma LateHandlerKeepsOffer(v: C.System, handled: nat)
    requires Replaced(v, handled) && handled < 2
    ensures Replaced(C.Next(v, HANDLING), handled + 1)
  {
    assert C.Possible(v, HANDLING) && C.Part(v, HANDLING).None?;
  }

  ghost function ReachedJointly(actions: seq<C.Action>): C.System {
    C.Run(C.Start(KEY, OPTIONS, 0), actions)
  }

  ghost function Offered(): seq<C.Action> {
    Observing(PREPARATION) + Caching(FIRST_FETCH) + [PUBLICATION]
  }

  ghost function Refetched(): seq<C.Action> {
    Offered() + Caching(NEXT_FETCH)
  }

  lemma ToOffered()
    ensures var v := ReachedJointly(Offered());
            && v.observer.clusters == [None, Some(FIRST)] && v.observer.handled == 1 == v.observer.seen
            && Slices.Offers(v.observer.slice.record)
               && v.observer.slice.record.value.connection.serverCAPEM == CERTIFICATE.public
            && Fetched(v.Secret(SECRET), [None, Some(CERTIFICATE.version)], CERTIFICATE)
  {
    var start := C.Start(KEY, OPTIONS, 0);
    var prepared := C.Run(start, Observing(PREPARATION));
    RunObserving(start, PREPARATION);
    Prepared();
    RunAppended(start, Observing(PREPARATION), Caching(FIRST_FETCH));
    RunCaching(prepared, FIRST_FETCH);
    assert prepared.Secret(SECRET) == CA.START;
    RunFirstFetch();
    var fetched := C.Run(prepared, Caching(FIRST_FETCH));
    RunAppended(start, Observing(PREPARATION) + Caching(FIRST_FETCH), [PUBLICATION]);
    assert [PUBLICATION][1..] == [];
    Publishing(fetched);
    Offering(fetched.observer);
  }

  lemma ToRefetched()
    ensures Replaced(ReachedJointly(Refetched()), 0)
  {
    ToOffered();
    RunAppended(C.Start(KEY, OPTIONS, 0), Offered(), Caching(NEXT_FETCH));
    Refetching(ReachedJointly(Offered()));
  }

  lemma Refetching(v: C.System)
    requires v.observer.clusters == [None, Some(FIRST)] && v.observer.handled == 1 == v.observer.seen
    requires Slices.Offers(v.observer.slice.record)
             && v.observer.slice.record.value.connection.serverCAPEM == CERTIFICATE.public
    requires Fetched(v.Secret(SECRET), [None, Some(CERTIFICATE.version)], CERTIFICATE)
    ensures Replaced(C.Run(v, Caching(NEXT_FETCH)), 0)
  {
    RunCaching(v, NEXT_FETCH);
    RunNextFetch(v.Secret(SECRET));
  }

  /** Every event of Cluster and Secret is handled, and the record that is offered, which a certified
      publication made, carries a CA that is no longer the cached one. */
  lemma ReplacedCAIsOffered()
    ensures var v := ReachedJointly(Refetched() + [HANDLING, HANDLING]);
            && C.Outdated(v) && v.observer.handled + 1 == |v.observer.clusters|
            && v.Secret(SECRET).handled + 1 == |v.Secret(SECRET).contents|
  {
    ToRefetched();
    var start, v := C.Start(KEY, OPTIONS, 0), ReachedJointly(Refetched());
    RunAppended(start, Refetched(), [HANDLING, HANDLING]);
    LateHandlerKeepsOffer(v, 0);
    LateHandlerKeepsOffer(C.Next(v, HANDLING), 1);
    assert [HANDLING, HANDLING][1..] == [HANDLING] && [HANDLING][1..] == [];
    assert C.Run(v, [HANDLING, HANDLING]) == C.Run(C.Next(v, HANDLING), [HANDLING]) ==
           C.Next(C.Next(v, HANDLING), HANDLING);
    ReplacedIsOutdated(C.Next(C.Next(v, HANDLING), HANDLING));
  }

  lemma ReplacedIsOutdated(v: C.System)
    requires Replaced(v, 2)
    ensures C.Outdated(v)
  {
  }

  /** The offer of the first fetch goes back to a certified publication. */
  lemma CertifiedPublicationIsReached() returns (k: nat)
    ensures k < |Offered()| && C.Certifies(ReachedJointly(Offered()[..k]), Offered()[k])
  {
    ToOffered();
    k := C.EveryOfferIsCertified(KEY, OPTIONS, 0, Offered());
  }
}

/**
  A run to an available record whose primary is not ready. A failover from `a` to `b` is in the
  informer but not yet delivered when the deletion of `a` is.
 */
module Pending {
  import opened Keys
  import opened Api
  import opened Metadata
  import opened Topology
  import opened Evidence
  import opened Slices
  import opened Informers
  import opened Protocol
  import opened Unready
  import opened Quiescence
  import CACaches
  import E = Evidence
  import P = Protocol

  const KEY := ClusterKey("ns", "db")
  const OPTIONS := Options(30, 5)
  const PARAMETERS := Parameters(map[], "")
  const FIRST := Cluster("ns", "db", "u", false, "a", "a", true, Some(PARAMETERS), Unfenced, "app",
      Certificates("ca", ""))
  const SECOND := FIRST.(currentPrimary := "b", targetPrimary := "b")
  const POD := Pod("ns", "a", "pa", false, map[], [Owner("Cluster", API_GROUP, "db", "u")], "node", [],
                   "Running", "10.0.0.1", [Condition("Ready", "True")], [])
  const PROBE := Probe(BLANK_STATUS.(isPrimary := Some(true)), false)
  const CERTIFICATE := CACaches.Entry(0, CACaches.Version("s", "1"), [1])
  const OBSERVED := Observation(FIRST, [POD], [PROBE], CERTIFICATE, 0, false, true)
  const PUBLISH := Publish(OBSERVED, 1, 1, [POD], true, false)

  lemma {:induction false} RunAppend(w: World, actions: seq<Action>, more: seq<Action>)
    ensures P.Run(w, actions + more) == P.Run(P.Run(w, actions), more)
    decreases actions
  {
    if actions == [] {
      assert [] + more == more;
    } else {
      assert (actions + more)[1..] == actions[1..] + more;
      RunAppend(Next(w, actions[0]), actions[1..], more);
    }
  }

  lemma RunOne(w: World, actions: seq<Action>, a: Action)
    ensures P.Run(w, actions + [a]) == Next(P.Run(w, actions), a)
  {
    RunAppend(w, actions, [a]);
    assert [a][1..] == [];
  }

  lemma NoConflict(s: Slice)
    requires s.claims == None
    ensures s.Recorded(OBSERVED, FIRST, [POD]).claims == Some(Claims("u", map[]))
  {
    var c := Collection(FIRST, FIRST, [POD], [POD], [PROBE]);
    assert [c][..0] == [] && E.Run(None, [c]) == Some(Collected(None, c));
    FailoversLeaveNoEvidence([c], "u");
  }

  predicate Shows(x: Snapshot) {
    && x.available && x.primaryID == "pa" && x.validUntil == 30 && x.cluster.uid == "u"
    && |x.members| == 1 && x.members[0].id == "pa" && x.members[0].ready
  }

  lemma Published(s: Slice)
    requires s.claims == None
    ensures var t := s.Publish(OBSERVED, Some(FIRST), [POD], true, 0, OPTIONS, false, true);
            t.record.Some? && Shows(t.record.value)
  {
    var mapped := Mapped([POD], [PROBE], [POD]);
    assert mapped[0] == PROBE;
    assert PodReady(POD);
    assert IsPrimary(FIRST, [POD], mapped, 0);
    AvailableForm(FIRST, [POD], mapped, PARAMETERS, 0, 30, 0);
    ReadyIff(FIRST, [POD], mapped, PARAMETERS, 0, 0);
    NoConflict(s);
  }

  /** Everything about a world except the observer's own state. */
  predicate Holds(w: World, clusters: Clusters, handled: nat, pods: Pods, names: seq<string>, podsHandled: nat) {
    && w.key == KEY && w.opts == OPTIONS && w.now == 0 && w.clusters == clusters && w.handled == handled
    && w.pods == pods && w.podNames == names && w.podsHandled == podsHandled
    && w.seen <= 1 < |clusters| && w.podsSeen < |pods| && w.podsSeen <= 1
  }

  const KNOWN: seq<Action> := [ClusterChanges(Some(FIRST)), HandleCluster(1, false)]
  const WANTED: seq<Action> := [Watch, RunCallback]
  const TAKEN: seq<Action> := [Dequeue, BeginWork(true)]
  const BEGUN: seq<Action> := [BeginObservation, Notified]
  const PODDED: seq<Action> := [PodChanges("a", Some(POD)), HandlePod(1, false)]
  const FAILOVER: seq<Action> := [PUBLISH, ClusterChanges(Some(SECOND))]
  const DELETION: seq<Action> := [PodChanges("a", None), HandlePod(2, false)]

  lemma RunTwo(w: World, a: Action, b: Action)
    ensures P.Run(w, [a, b]) == Next(Next(w, a), b)
  {
    assert [a, b] == [a] + [b] && [a] == [] + [a];
    RunOne(w, [], a);
    RunOne(w, [a], b);
  }

  lemma ToKnown(w: World)
    requires w == P.Start(KEY, OPTIONS, 0)
    ensures var v := P.Run(w, KNOWN);
            && Holds(v, [None, Some(FIRST)], 1, [map[]], [], 0) && v.slice.record.Some?
            && v.slice == INITIAL.(record := v.slice.record)
  {
    RunTwo(w, KNOWN[0], KNOWN[1]);
  }

  lemma ToWanted(w: World)
    requires Holds(w, [None, Some(FIRST)], 1, [map[]], [], 0) && w.slice.record.Some?
             && w.slice == INITIAL.(record := w.slice.record)
    ensures var v := P.Run(w, WANTED);
            && Holds(v, [None, Some(FIRST)], 1, [map[]], [], 0) && v.slice.record.Some? && v.slice.claims == None
            && v.slice.dirty && v.slice.watchers == 1 && v.slice.worker == Free
  {
    RunTwo(w, WANTED[0], WANTED[1]);
  }

  lemma ToTaken(w: World)
    requires Holds(w, [None, Some(FIRST)], 1, [map[]], [], 0) && w.slice.record.Some? && w.slice.claims == None
    requires w.slice.dirty && w.slice.watchers == 1 && w.slice.worker == Free
    ensures var v := P.Run(w, TAKEN);
            Holds(v, [None, Some(FIRST)], 1, [map[]], [], 0) && v.slice.claims == None && v.slice.worker == Accepted
  {
    RunTwo(w, TAKEN[0], TAKEN[1]);
  }

  lemma ToBegun(w: World)
    requires Holds(w, [None, Some(FIRST)], 1, [map[]], [], 0) && w.slice.claims == None && w.slice.worker == Accepted
    ensures var v := P.Run(w, BEGUN);
            Holds(v, [None, Some(FIRST)], 1, [map[]], [], 0) && v.slice.claims == None
                && v.slice.worker == Observing(false)
  {
    RunTwo(w, BEGUN[0], BEGUN[1]);
  }

  lemma ToPodded(w: World)
    requires Holds(w, [None, Some(FIRST)], 1, [map[]], [], 0) && w.slice.claims == None
             && w.slice.worker == Observing(false)
    ensures var v := P.Run(w, PODDED);
            && Holds(v, [None, Some(FIRST)], 1, [map[], map["a" := POD]], ["a"], 1)
            && v.slice.claims == None && v.slice.worker == Observing(false)
  {
    RunTwo(w, PODDED[0], PODDED[1]);
    assert Holds(Next(w, PODDED[0]), [None, Some(FIRST)], 1, [map[], map["a" := POD]], ["a"], 0);
  }

  lemma PublishStep(w: World)
    requires Holds(w, [None, Some(FIRST)], 1, [map[], map["a" := POD]], ["a"], 1) && w.slice.worker == Observing(false)
    ensures Next(w, PUBLISH) == PublishedBy(w, OBSERVED, 1, 1, [POD], true, false)
  {
    assert IsPodList([POD], w.pods[1], KEY, "u");
    assert Possible(w, PUBLISH);
  }

  lemma ToFailover(w: World)
    requires Holds(w, [None, Some(FIRST)], 1, [map[], map["a" := POD]], ["a"], 1)
    requires w.slice.claims == None && w.slice.worker == Observing(false)
    ensures var v := P.Run(w, FAILOVER);
            && Holds(v, [None, Some(FIRST), Some(SECOND)], 1, [map[], map["a" := POD]], ["a"], 1)
            && v.slice.record.Some? && Shows(v.slice.record.value)
  {
    RunTwo(w, FAILOVER[0], FAILOVER[1]);
    PublishStep(w);
    Published(w.slice);
    SecondFollows(Next(w, PUBLISH));
  }

  lemma SecondFollows(w: World)
    requires w.key == KEY && w.clusters == [None, Some(FIRST)]
    ensures Next(w, ClusterChanges(Some(SECOND))) == w.(clusters := [None, Some(FIRST), Some(SECOND)])
  {
  }

  ghost function Reached(actions: seq<Action>): World {
    P.Run(P.Start(KEY, OPTIONS, 0), actions)
  }

  const PREPARATION: seq<Action> := KNOWN + WANTED + TAKEN + BEGUN + PODDED

  /** The Cluster is known and wanted, its pod is there, and it is being observed. */
  lemma Prepared()
    ensures var w := Reached(PREPARATION);
            && Holds(w, [None, Some(FIRST)], 1, [map[], map["a" := POD]], ["a"], 1)
            && w.slice.claims == None && w.slice.worker == Observing(false)
  {
    var start := P.Start(KEY, OPTIONS, 0);
    ToKnown(start);
    RunAppend(start, KNOWN, WANTED);
    ToWanted(Reached(KNOWN));
    RunAppend(start, KNOWN + WANTED, TAKEN);
    ToTaken(Reached(KNOWN + WANTED));
    RunAppend(start, KNOWN + WANTED + TAKEN, BEGUN);
    ToBegun(Reached(KNOWN + WANTED + TAKEN));
    RunAppend(start, KNOWN + WANTED + TAKEN + BEGUN, PODDED);
    ToPodded(Reached(KNOWN + WANTED + TAKEN + BEGUN));
  }

  lemma Offering(w: World)
    requires Holds(w, [None, Some(FIRST)], 1, [map[], map["a" := POD]], ["a"], 1)
    requires w.slice.claims == None && w.slice.worker == Observing(false)
    ensures var v := Next(w, PUBLISH);
            && v.clusters == w.clusters && v.handled == 1 && v.pods == w.pods && v.podsHandled == 1
               && Offers(v.slice.record)
            && v.slice.record.value.connection.serverCAPEM == CERTIFICATE.public && v.seen == 1
  {
    PublishStep(w);
    Published(w.slice);
  }

  /** The run reaches a world in which the primary can be demoted, and demotes it. */
  lemma UnreadyPrimaryIsOffered()
    ensures Demotable(Reached(PREPARATION + FAILOVER), "a", 2)
    ensures OffersUnready(Reached(PREPARATION + FAILOVER + DELETION).slice.record)
  {
    var start := P.Start(KEY, OPTIONS, 0);
    Prepared();
    RunAppend(start, PREPARATION, FAILOVER);
    ToFailover(Reached(PREPARATION));
    RunAppend(start, PREPARATION + FAILOVER, DELETION);
    FailoverIsDemotable(Reached(PREPARATION + FAILOVER));
    DemotableIsDemoted(Reached(PREPARATION + FAILOVER), "a", 2);
  }

  lemma Offered()
    ensures var w := Reached(PREPARATION + [PUBLISH]);
            && w.clusters == [None, Some(FIRST)] && w.handled == 1 && |w.pods| == 2 && w.podsHandled == 1
            && Offers(w.slice.record)
  {
    var start := P.Start(KEY, OPTIONS, 0);
    Prepared();
    RunOne(start, PREPARATION, PUBLISH);
    Offering(Reached(PREPARATION));
  }

  const ANNOTATION: seq<Action> := [ClusterChanges(Some(FIRST.(fencing := EmptyText))), HandleCluster(2, false)]

  lemma ToAnnotated(w: World)
    requires Basics(w) && Sound(w) && Offers(w.slice.record) && w.clusters == [None, Some(FIRST)] && w.handled == 1
    ensures var v := P.Run(w, ANNOTATION);
            && v.handled + 1 == |v.clusters| && v.clusters[v.handled] == Some(FIRST.(fencing := EmptyText))
            && Offers(v.slice.record)
  {
    EmptyAnnotationKeepsRoute(w, false);
    RunTwo(w, ANNOTATION[0], ANNOTATION[1]);
  }

  /** A run to a handled Cluster that is offered although its fencing annotation does not parse, being empty. */
  lemma EmptyAnnotationIsOffered()
    ensures var w := Reached(PREPARATION + [PUBLISH] + ANNOTATION);
            && w.handled + 1 == |w.clusters| && w.clusters[w.handled] == Some(FIRST.(fencing := EmptyText))
            && Offers(w.slice.record)
  {
    Offered();
    EveryRunIsSound(KEY, OPTIONS, 0, PREPARATION + [PUBLISH]);
    ToAnnotated(Reached(PREPARATION + [PUBLISH]));
    RunAppend(P.Start(KEY, OPTIONS, 0), PREPARATION + [PUBLISH], ANNOTATION);
  }

  lemma FailoverIsDemotable(w: World)
    requires Holds(w, [None, Some(FIRST), Some(SECOND)], 1, [map[], map["a" := POD]], ["a"], 1)
    requires w.slice.record.Some? && Shows(w.slice.record.value)
    ensures Demotable(w, "a", 2)
  {
    assert w.slice.record.value.members[0].id == w.slice.record.value.primaryID;
  }
}

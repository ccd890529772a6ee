/**
  Records that no enabled Cluster stands behind. A pod event does not ask whether the Cluster is
  enabled, so the loss of the current primary's pod makes a record again after the Cluster was
  disabled. Exactly such an event does, what it makes offers nothing, and a Cluster that is gone has
  no record.
 */
module Stray {
  import opened Keys
  import opened Api
  import opened Metadata
  import opened Slices
  import opened Protocol
  import opened Quiescence
  import P = Protocol

  predicate Inactive(c: Option<Cluster>) {
    c.None? || !c.value.Active()
  }

  /** Every Cluster event is handled, and the last one left the Cluster disabled or gone. */
  predicate Ended(w: World) {
    w.handled + 1 == |w.clusters| && Inactive(w.clusters[w.handled])
  }

  /** There is a record all the same. */
  predicate Strays(w: World) {
    Ended(w) && w.slice.record.Some?
  }

  /** The next pod event loses the route of the pod that the Cluster read names as current primary. */
  predicate NextEventRevives(w: World, read: nat) {
    && w.podsHandled < |w.podNames| && w.podsHandled + 1 < |w.pods| && read < |w.clusters|
    && var j, name := w.podsHandled, w.podNames[w.podsHandled];
       RevivesAt(w.key, At(w.pods[j], name), At(w.pods[j + 1], name), w.clusters[read])
  }

  predicate RevivesAt(key: ClusterKey, was: Option<Pod>, pod: Option<Pod>, cluster: Option<Cluster>) {
    Loses(key, was, pod, cluster) && was.value.name == cluster.value.currentPrimary
  }

  ghost predicate RevivingStep(w: World, a: Action) {
    a.HandlePod? && Possible(w, a) && NextEventRevives(w, a.read)
  }

  // ---- Steps ----

  lemma PodEventRevivesIff(s: Slice, key: ClusterKey, was: Option<Pod>, pod: Option<Pod>, cluster: Option<Cluster>,
                           now: int, opts: Options, late: bool, present: bool)
    requires s.record.None?
    ensures s.PodEvent(key, was, pod, cluster, now, opts, late, present).record.Some? <==>
              RevivesAt(key, was, pod, cluster)
  {
    if Loses(key, was, pod, cluster) {
      assert s.PodEvent(key, was, pod, cluster, now, opts, late, present).record ==
             s.PodRouteChanged(was.value, cluster.value, now, opts, late).record;
    }
  }

  lemma HandledPodRevivesAt(w: World, read: nat, late: bool, j: nat, name: string, was: Option<Pod>, pod: Option<Pod>)
    requires w.slice.record.None?
    requires j == w.podsHandled < |w.podNames| && w.podNames[j] == name && j + 1 < |w.pods| && read < |w.clusters|
    requires was == At(w.pods[j], name) && pod == At(w.pods[j + 1], name)
    ensures HandledPod(w, read, late).slice.record.Some? <==> RevivesAt(w.key, was, pod, w.clusters[read])
  {
    PodEventRevivesIff(w.slice, w.key, was, pod, w.clusters[read], w.now, w.opts, late, Present(w));
  }

  lemma NextEventIs(w: World, read: nat, j: nat, name: string)
    requires j == w.podsHandled < |w.podNames| && w.podNames[j] == name && j + 1 < |w.pods| && read < |w.clusters|
    ensures NextEventRevives(w, read) <==>
              RevivesAt(w.key, At(w.pods[j], name), At(w.pods[j + 1], name), w.clusters[read])
  {
  }

  lemma PublishRevivesNothing(s: Slice, o: Observation, latest: Option<Cluster>, pods: seq<Pod>, caCurrent: bool,
                              now: int, opts: Options, late: bool, present: bool)
    requires |o.results| == |o.probed| && Inactive(latest)
    ensures s.Publish(o, latest, pods, caCurrent, now, opts, late, present).record.None?
  {
  }

  lemma QuietRevivesNothing(w: World, a: Action)
    requires Positions(w) && Ended(w) && w.slice.record.None?
    requires !a.HandleCluster? && !a.HandlePod? && !a.Publish?
    ensures Next(w, a).slice.record.None?
  {
  }

  /** From no record, with the Cluster disabled or gone and that event handled, a step makes a record
      if and only if it is such a pod event. */
  lemma StepRevivesIff(w: World, a: Action)
    requires Positions(w) && Ended(w) && w.slice.record.None?
    ensures Next(w, a).slice.record.Some? <==> RevivingStep(w, a)
  {
    if !a.HandleCluster? && !a.HandlePod? && !a.Publish? {
      QuietRevivesNothing(w, a);
    } else if Possible(w, a) {
      if a.HandlePod? {
        var j, name := w.podsHandled, w.podNames[w.podsHandled];
        HandledPodRevivesAt(w, a.read, a.late, j, name, At(w.pods[j], name), At(w.pods[j + 1], name));
        NextEventIs(w, a.read, j, name);
      } else if a.Publish? {
        PublishRevivesNothing(w.slice, a.o, w.clusters[a.read], a.list, a.caCurrent, w.now, w.opts, a.late, Present(w));
      }
    }
  }

  lemma HandledClusterEnds(w: World, read: nat, late: bool)
    requires Positions(w) && Alternates(w.clusters) && w.handled + 2 == |w.clusters| && read == w.handled + 1
    requires Inactive(w.clusters[w.handled + 1])
    ensures HandledCluster(w, read, late).slice.record.None?
  {
    assert w.clusters[w.handled].Some? || w.clusters[w.handled + 1].Some?;
  }

  /** The event of a disabled or vanished Cluster leaves no record, if it is the last. */
  lemma HandlerEnds(w: World, a: Action)
    requires Positions(w) && Alternates(w.clusters) && a.HandleCluster? && Possible(w, a) && Ended(Next(w, a))
    ensures Next(w, a).slice.record.None?
  {
    HandledClusterEnds(w, a.read, a.late);
  }

  lemma OthersKeepPlace(w: World, a: Action)
    requires !a.ClusterChanges? && !(a.HandleCluster? && Possible(w, a))
    ensures Next(w, a).clusters == w.clusters && Next(w, a).handled == w.handled
  {
  }

  lemma ChangesAreOutstanding(w: World, a: Action)
    requires Positions(w) && a.ClusterChanges? && Possible(w, a)
    ensures Next(w, a).handled + 1 < |Next(w, a).clusters|
  {
  }

  /** Where there is no stray record, a step makes one exactly if it is such an event. */
  lemma StepStraysIff(w: World, a: Action)
    requires Positions(w) && Alternates(w.clusters) && !Strays(w)
    ensures Strays(Next(w, a)) <==> Ended(w) && RevivingStep(w, a)
  {
    if a.ClusterChanges? && Possible(w, a) {
      ChangesAreOutstanding(w, a);
    } else if a.HandleCluster? && Possible(w, a) {
      if Ended(Next(w, a)) {
        HandlerEnds(w, a);
      }
    } else if !a.ClusterChanges? {
      OthersKeepPlace(w, a);
      if Ended(w) {
        StepRevivesIff(w, a);
      }
    }
  }

  // ---- Runs ----

  /** In every run, a stray record goes back to such an event. */
  lemma {:induction false} StrayWasRevived(w: World, actions: seq<Action>) returns (k: nat)
    requires Basics(w) && !Strays(w) && Strays(P.Run(w, actions))
    ensures k < |actions|
    ensures var v := P.Run(w, actions[..k]); Ended(v) && v.slice.record.None? && RevivingStep(v, actions[k])
    decreases actions
  {
    var a := actions[0];
    StepStraysIff(w, a);
    StepKeepsBasics(w, a);
    if Strays(Next(w, a)) {
      k := 0;
      assert actions[..0] == [];
    } else {
      var j := StrayWasRevived(Next(w, a), actions[1..]);
      k := j + 1;
      assert actions[..k][1..] == actions[1..][..j];
    }
  }

  /** With its events handled, a Cluster that is gone has no record. */
  ghost predicate GoneHasNone(w: World) {
    w.handled + 1 == |w.clusters| && w.clusters[w.handled].None? ==> w.slice.record.None?
  }

  lemma StepKeepsGone(w: World, a: Action)
    requires Basics(w) && GoneHasNone(w)
    ensures GoneHasNone(Next(w, a))
  {
    if !Strays(w) {
      StepStraysIff(w, a);
    } else if a.ClusterChanges? && Possible(w, a) {
      ChangesAreOutstanding(w, a);
    } else if !a.ClusterChanges? {
      OthersKeepPlace(w, a);
    }
  }

  lemma {:induction false} RunKeepsGone(w: World, actions: seq<Action>)
    requires Basics(w) && GoneHasNone(w)
    ensures GoneHasNone(P.Run(w, actions))
    decreases actions
  {
    if actions != [] {
      StepKeepsBasics(w, actions[0]);
      StepKeepsGone(w, actions[0]);
      RunKeepsGone(Next(w, actions[0]), actions[1..]);
    }
  }

  /** In every run, with no Cluster handler outstanding, a Cluster that is gone has no record. */
  lemma GoneClusterHasNoRecord(key: ClusterKey, opts: Options, now: int, actions: seq<Action>)
    ensures GoneHasNone(P.Run(P.Start(key, opts, now), actions))
  {
    RunKeepsGone(P.Start(key, opts, now), actions);
  }

  /** In every run, with no Cluster handler outstanding, nothing is offered for a Cluster that is
      disabled or gone: a stray record offers no route. */
  lemma StrayOffersNothing(key: ClusterKey, opts: Options, now: int, actions: seq<Action>)
    ensures var w := P.Run(P.Start(key, opts, now), actions); Ended(w) ==> !Offers(w.slice.record)
  {
    EveryRunIsSound(key, opts, now, actions);
    var w := P.Run(P.Start(key, opts, now), actions);
    if Ended(w) && Offers(w.slice.record) {
      HandledMeansUnmoved(w.clusters, w.handled, w.source.clusterIndex);
    }
  }

  // ---- It can happen, and how it ends ----

  /** The Cluster is disabled and has no record, and the pod it names as primary is still there. */
  ghost predicate Revivable(w: World, name: string) {
    && Positions(w) && Ended(w) && w.clusters[w.handled].Some? && w.slice.record.None?
    && w.clusters[w.handled].value.currentPrimary == name
    && w.podsHandled + 1 == |w.pods| && |w.pods| == |w.podNames| + 1 && name in w.pods[w.podsHandled]
    && var pod := w.pods[w.podsHandled][name];
       pod.name == name && PodCluster(pod) == Some(w.key)
  }

  /** From every such world, deleting the pod and handling that event makes a stray record, and no
      Cluster handler is outstanding that could remove it. */
  lemma RevivableIsRevived(w: World, name: string, late: bool)
    requires Revivable(w, name)
    ensures Strays(P.Run(w, [PodChanges(name, None), HandlePod(w.handled, late)]))
  {
    var change, handle := PodChanges(name, None), HandlePod(w.handled, late);
    var v := Next(w, change);
    PodVanishes(w, name);
    StepKeepsPositions(w, change);
    VanishedRevives(w, v, name);
    StepRevivesIff(v, handle);
    OthersKeepPlace(v, handle);
    assert [change, handle][1..] == [handle] && [handle][1..] == [];
    assert P.Run(w, [change, handle]) == P.Run(v, [handle]) == P.Run(Next(v, handle), []);
  }

  lemma VanishedRevives(w: World, v: World, name: string)
    requires Revivable(w, name)
    requires v == w.(pods := w.pods + [w.pods[w.podsHandled] - {name}], podNames := w.podNames + [name])
    ensures NextEventRevives(v, w.handled)
  {
    var j := w.podsHandled;
    assert v.podNames[j] == name && At(v.pods[j], name) == Some(w.pods[j][name]) && At(v.pods[j + 1], name) == None;
  }

  lemma PodEventQueues(s: Slice, key: ClusterKey, was: Option<Pod>, pod: Option<Pod>, cluster: Option<Cluster>,
                       now: int, opts: Options, late: bool)
    requires RevivesAt(key, was, pod, cluster) && s.Demanded(now)
    ensures s.PodEvent(key, was, pod, cluster, now, opts, late, true).dirty
  {
  }

  /** With demand, the event that makes a stray record also queues the key. */
  lemma RevivedIsQueued(w: World, a: Action)
    requires Positions(w) && Ended(w) && RevivingStep(w, a) && w.slice.Demanded(w.now)
    ensures Next(w, a).slice.dirty
  {
    var j, name := w.podsHandled, w.podNames[w.podsHandled];
    NextEventIs(w, a.read, j, name);
    PodEventQueues(w.slice, w.key, At(w.pods[j], name), At(w.pods[j + 1], name), w.clusters[a.read], w.now, w.opts,
        a.late);
  }

  /** The observation that it leads to removes the record before it collects anything. */
  lemma ObservationRemovesStray(w: World, read: nat)
    requires Positions(w) && Ended(w) && Possible(w, StartObservation(read))
    ensures Next(w, StartObservation(read)).slice.record.None? && !Strays(Next(w, StartObservation(read)))
  {
  }
}

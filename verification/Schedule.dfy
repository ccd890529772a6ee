/**
  No schedule is lost: an enabled Cluster that has demand is queued, being observed or waiting for
  a delayed add, in every interleaving of the protocol, unless a metadata handler or a demand
  callback is still outstanding.
 */
module Schedule {
  import opened Keys
  import opened Metadata
  import opened Slices
  import opened Informers
  import opened Protocol

  /** The key will be observed again. A superseded observation does not count. */
  predicate Scheduled(s: Slice) {
    s.dirty || s.delayed > 0 || s.worker.Dequeued? || s.worker.Accepted? || s.worker == Observing(false)
  }

  /** The last delivered event shows an enabled Cluster, and no later one changes its route. */
  ghost predicate Steady(h: Clusters, handled: nat) {
    handled < |h| && h[handled].Some? && h[handled].value.Active() && !Reroutes(h, handled)
  }

  /** The record describes this incarnation, and demand, once its callback has run, is scheduled. */
  predicate Attended(s: Slice, now: int, uid: string) {
    && s.record.Some? && s.record.value.cluster.uid == uid
    && (s.Demanded(now) && s.callbacks == 0 ==> Scheduled(s))
  }

  ghost predicate Kept(w: World) {
    Steady(w.clusters, w.handled) ==> Attended(w.slice, w.now, w.clusters[w.handled].value.uid)
  }

  /** While the Cluster is steady, every read sees its route. */
  lemma SteadyReads(h: Clusters, handled: nat, read: nat)
    requires Steady(h, handled) && handled <= read < |h|
    ensures h[read].Some? && h[read].value.Active() && h[read].value.uid == h[handled].value.uid
  {
    if handled < read && !(h[read].Some? && SameClusterRoute(h[handled].value, h[read].value)) {
      DifferentRouteReroutes(h, handled, read);
    }
  }

  lemma SteadyBefore(h: Clusters, c: Option<Cluster>, handled: nat)
    requires handled < |h| && Steady(h + [c], handled)
    ensures Steady(h, handled)
  {
    GrowsReroutes(h, c, handled);
  }

  // ---- What critical sections do to an attended key ----

  lemma SecretEventAttends(s: Slice, c: Cluster, now: int, opts: Options, late: bool)
    requires Attended(s, now, c.uid)
    ensures Attended(s.SecretEvent(c, now, opts, late, true), now, c.uid)
  {
  }

  lemma PublishAttends(s: Slice, o: Observation, c: Cluster, pods: seq<Pod>, caCurrent: bool, now: int, opts: Options,
                       late: bool)
    requires Attended(s, now, c.uid) && c.Active() && |o.results| == |o.probed|
    ensures Attended(s.Publish(o, Some(c), pods, caCurrent, now, opts, late, true), now, c.uid)
  {
    var r := s.Recorded(o, c, pods);
    RecordedAttends(s, o, c, pods, now);
    if PublishesVerified(o, Some(c), caCurrent) {
      VerifiedAttends(r, o, c, pods, now, opts, late);
    } else if !o.cancelled && o.ready {
      NotifiedAttends(r, c, now, opts, if SameClusterRoute(o.observed, c) then "connection_defaults_changed"
          else "topology_changed_during_observation", late);
    }
  }

  lemma RecordedAttends(s: Slice, o: Observation, c: Cluster, pods: seq<Pod>, now: int)
    requires Attended(s, now, c.uid) && |o.results| == |o.probed|
    ensures Attended(s.Recorded(o, c, pods), now, c.uid)
  {
  }

  lemma VerifiedAttends(r: Slice, o: Observation, c: Cluster, pods: seq<Pod>, now: int, opts: Options, late: bool)
    requires Attended(r, now, c.uid) && |o.results| == |o.probed|
    ensures Attended(r.(record := Committed(r.Verified(o, c, pods, opts), late)), now, c.uid)
  {
    assert r.Verified(o, c, pods, opts).cluster == c.Ref();
  }

  lemma NotifiedAttends(r: Slice, c: Cluster, now: int, opts: Options, reason: string, late: bool)
    requires Attended(r, now, c.uid)
    ensures Attended(r.Notify(now, true).Withdraw(c, now, opts, reason, late), now, c.uid)
  {
  }

  lemma FailureAttends(s: Slice, cancelled: bool, c: Cluster, reason: string, now: int, opts: Options, late: bool)
    requires Attended(s, now, c.uid) && c.Active()
    ensures Attended(s.PublishFailure(cancelled, Some(c), reason, now, opts, late), now, c.uid)
  {
  }

  /** An event that adds the Cluster or changes its route schedules it. */
  lemma ClusterEventAttends(s: Slice, was: Option<Cluster>, c: Cluster, now: int, opts: Options, late: bool)
    requires c.Active() && (was.Some? && SameClusterRoute(was.value, c) ==> Attended(s, now, c.uid))
    ensures Attended(s.ClusterEvent(was, c, now, opts, late, true), now, c.uid)
  {
  }

  // ---- Every step ----

  lemma HandleClusterKeeps(w: World, read: nat, late: bool)
    requires Kept(w) && w.handled + 1 < |w.clusters| && read < |w.clusters|
    ensures Kept(HandledCluster(w, read, late))
  {
    var h, i := w.clusters, w.handled;
    if Steady(h, i + 1) {
      SteadyReads(h, i + 1, |h| - 1);
      if KeepsRoute(h, i) {
        assert Steady(h, i);
      }
      ClusterEventAttends(w.slice, h[i], h[i + 1].value, w.now, w.opts, late);
    }
  }

  lemma HandlePodKeeps(w: World, read: nat, late: bool, c: Cluster)
    requires Attended(w.slice, w.now, c.uid) && Present(w) && read < |w.clusters| && w.clusters[read] == Some(c)
    requires w.podsHandled + 1 < |w.pods| && w.podsHandled < |w.podNames|
    ensures Attended(HandledPod(w, read, late).slice, w.now, c.uid)
  {
  }

  lemma PublishKeeps(w: World, o: Observation, read: nat, podsRead: nat, list: seq<Pod>, caCurrent: bool, late: bool,
                     c: Cluster)
    requires Attended(w.slice, w.now, c.uid) && Present(w) && read < |w.clusters| && w.clusters[read] == Some(c)
    requires c.Active() && |o.results| == |o.probed|
    ensures Attended(PublishedBy(w, o, read, podsRead, list, caCurrent, late).slice, w.now, c.uid)
  {
    PublishAttends(w.slice, o, c, list, caCurrent, w.now, w.opts, late);
  }

  lemma SectionKeeps(w: World, a: Action, c: Cluster)
    requires Attended(w.slice, w.now, c.uid) && Present(w) && Possible(w, a)
    requires a.HandlePod? || a.HandleSecret? || a.StartObservation? || a.Publish? || a.Fail?
    requires w.clusters[a.read] == Some(c) && c.Active()
    ensures Attended(Next(w, a).slice, w.now, c.uid)
  {
    match a
    case HandlePod(read, late) => HandlePodKeeps(w, read, late, c);
    case HandleSecret(_, late) => SecretEventAttends(w.slice, c, w.now, w.opts, late);
    case StartObservation(_) =>
    case Publish(o, read, podsRead, list, caCurrent, late) =>
        PublishKeeps(w, o, read, podsRead, list, caCurrent, late, c);
    case Fail(cancelled, reason, _, late) => FailureAttends(w.slice, cancelled, c, reason, w.now, w.opts, late);
  }

  /** Demand, time and the worker. */
  lemma WorkKeeps(w: World, a: Action, uid: string)
    requires Attended(w.slice, w.now, uid) && Present(w) && Possible(w, a)
    requires !a.ClusterChanges? && !a.PodChanges? && !a.HandleCluster?
    requires !(a.HandlePod? || a.HandleSecret? || a.StartObservation? || a.Publish? || a.Fail?)
    ensures Attended(Next(w, a).slice, Next(w, a).now, uid)
  {
  }

  lemma StepKeeps(w: World, a: Action)
    requires Positions(w) && Kept(w)
    ensures Kept(Next(w, a))
  {
    if Possible(w, a) {
      if a.ClusterChanges? {
        if Steady(w.clusters + [a.cluster], w.handled) {
          SteadyBefore(w.clusters, a.cluster, w.handled);
        }
      } else if a.HandleCluster? {
        HandleClusterKeeps(w, a.read, a.late);
      } else if Steady(w.clusters, w.handled) && !a.PodChanges? {
        if a.HandlePod? || a.HandleSecret? || a.StartObservation? || a.Publish? || a.Fail? {
          SteadyReads(w.clusters, w.handled, a.read);
          SteadyReads(w.clusters, w.handled, |w.clusters| - 1);
          SectionKeeps(w, a, w.clusters[a.read].value);
        } else {
          SteadyReads(w.clusters, w.handled, |w.clusters| - 1);
          WorkKeeps(w, a, w.clusters[w.handled].value.uid);
        }
      }
    }
  }

  lemma {:induction false} RunKeeps(w: World, actions: seq<Action>)
    requires Positions(w) && Kept(w)
    ensures Positions(Run(w, actions)) && Kept(Run(w, actions))
    decreases actions
  {
    if actions != [] {
      StepKeepsPositions(w, actions[0]);
      StepKeeps(w, actions[0]);
      RunKeeps(Next(w, actions[0]), actions[1..]);
    }
  }

  /** No schedule is lost: with no Cluster handler and no demand callback outstanding, an enabled
      Cluster in the informer has a record of its incarnation, and while there is demand for it,
      it is queued, being observed or waiting for a delayed add. */
  lemma NoScheduleIsLost(key: ClusterKey, opts: Options, now: int, actions: seq<Action>)
    ensures
      var w := Run(Start(key, opts, now), actions);
      w.handled + 1 == |w.clusters| && w.clusters[w.handled].Some? && w.clusters[w.handled].value.Active() ==>
        && w.slice.record.Some? && w.slice.record.value.cluster.uid == w.clusters[w.handled].value.uid
        && (w.slice.Demanded(w.now) && w.slice.callbacks == 0 ==> Scheduled(w.slice))
  {
    RunKeeps(Start(key, opts, now), actions);
  }

  /** The same holds earlier, as soon as no undelivered event can change the route. */
  lemma NoScheduleIsLostWhileSteady(key: ClusterKey, opts: Options, now: int, actions: seq<Action>)
    ensures
      var w := Run(Start(key, opts, now), actions);
      Steady(w.clusters, w.handled) ==> Attended(w.slice, w.now, w.clusters[w.handled].value.uid)
  {
    RunKeeps(Start(key, opts, now), actions);
  }
}

/**
  More that holds in every run of the whole service: each message was fresh when it was checked, and
  an open stream keeps its Cluster scheduled.
 */
module ServiceRuns {
  import opened Keys
  import opened Api
  import opened Stores
  import opened Convergence
  import opened Sections
  import opened EndToEnd
  import E = EndToEnd
  import Metadata
  import P = Protocol
  import Publications
  import Reasons
  import Schedule
  import Slices
  import W = Watch

  /** The commits that a section of the source makes are ones that the service admits for it. */
  lemma SectionsAreAdmitted(v: Service, b: P.Action)
    requires v.todo == [] && P.Possible(v.observer, b) && !b.Tick? && !b.Expire? && !b.Watch? && !b.Unwatch?
    ensures CanObserve(v, b, SectionCommits(v.observer, b))
  {
    SectionsAddUp(v.observer, b);
  }

  // ---- Freshness ----

  ghost predicate Fresh(v: Service) {
    Publications.FreshInv(v.discovery) && Reasons.Alive(v.observer.slice.record) && Reasons.AllSafe(v.todo)
  }

  /** Snapshots put for other Clusters come from sections like these. */
  ghost predicate OthersSafe(a: E.Action) {
    a.Serve? && a.step.Put? ==> Publications.SafePut(a.step.snapshot)
  }

  lemma TakingKeepsAlive(w: P.World, a: Option<P.Action>)
    requires Reasons.Alive(w.slice.record)
    ensures Reasons.Alive(Taking(w, a).slice.record)
  {
    if a.Some? {
      Reasons.StepKeepsAlive(w, a.value);
    }
  }

  lemma StepKeepsAlive(v: Service, a: E.Action)
    requires Reasons.Alive(v.observer.slice.record)
    ensures Reasons.Alive(E.Next(v, a).observer.slice.record)
  {
    if E.Possible(v, a) {
      ObserverParts(v, a);
      TakingKeepsAlive(v.observer, FirstPart(v, a));
      TakingKeepsAlive(Taking(v.observer, FirstPart(v, a)), SecondPart(v, a));
    }
  }

  /** The step of the discovery service in an action, if it has one. */
  ghost function DiscoveryPart(v: Service, a: E.Action): Option<W.Action> {
    match a
    case Observe(_, _) => None
    case Commit(routing, before) => if v.todo == [] then None
        else Some(E.Step(v.todo[0], v.observer.key, routing, before))
    case Serve(b) => Some(b)
    case Tick(elapsed) => Some(W.Tick(elapsed))
  }

  lemma DiscoveryParts(v: Service, a: E.Action)
    requires E.Possible(v, a)
    ensures E.Next(v, a).discovery == if DiscoveryPart(v, a).None? then v.discovery
            else W.Next(v.discovery, DiscoveryPart(v, a).value)
  {
  }

  lemma StepKeepsFreshDiscovery(v: Service, a: E.Action)
    requires Fresh(v) && OthersSafe(a) && E.Possible(v, a)
    ensures Publications.FreshInv(E.Next(v, a).discovery)
  {
    DiscoveryParts(v, a);
    if DiscoveryPart(v, a).Some? {
      Publications.StepKeepsFresh(v.discovery, DiscoveryPart(v, a).value);
    }
  }

  lemma StepKeepsSafe(v: Service, a: E.Action)
    requires Fresh(v) && E.Possible(v, a)
    ensures Reasons.AllSafe(E.Next(v, a).todo)
  {
    if a.Observe? {
      Reasons.SectionPutsAreSafe(v.observer, a.action);
    }
  }

  lemma {:induction false} RunKeepsFresh(v: Service, actions: seq<E.Action>)
    requires Fresh(v) && forall i :: 0 <= i < |actions| ==> OthersSafe(actions[i])
    ensures Fresh(E.Run(v, actions))
    decreases actions
  {
    if actions != [] {
      var a := actions[0];
      StepKeepsAlive(v, a);
      if E.Possible(v, a) {
        StepKeepsFreshDiscovery(v, a);
        StepKeepsSafe(v, a);
      }
      RunKeepsFresh(E.Next(v, a), actions[1..]);
    }
  }

  /** Fail closed, end to end: whatever the observer publishes, each message that a stream sent was,
      when it was checked, within its validity or offered no route. */
  lemma StreamsFailClosed(key: ClusterKey, opts: Slices.Options, now: int, actions: seq<E.Action>, w: Watcher, i: nat)
    requires forall j :: 0 <= j < |actions| ==> OthersSafe(actions[j])
    requires var streams := E.Run(E.Start(key, opts, now), actions).discovery.streams;
             w in streams && i < |streams[w].sent|
    ensures var m := E.Run(E.Start(key, opts, now), actions).discovery.streams[w].sent[i];
            Publications.FreshAt(m.publication, m.checkedAt)
  {
    RunKeepsFresh(E.Start(key, opts, now), actions);
  }

  // ---- Interest ----

  /** The observer counts exactly the watchers that the store has for its key. */
  ghost predicate Tied(v: Service) {
    v.observer.slice.watchers == |v.discovery.store.Watchers(v.observer.key)|
  }

  lemma HandledClusterKeepsWatchers(w: P.World, read: nat, late: bool)
    requires w.handled + 1 < |w.clusters| && read < |w.clusters|
    ensures P.HandledCluster(w, read, late).slice.watchers == w.slice.watchers
  {
  }

  lemma PodEventKeepsWatchers(s: Slices.Slice, key: ClusterKey, was: Option<Metadata.Pod>, pod: Option<Metadata.Pod>,
                              cluster: Option<Metadata.Cluster>, now: int, opts: Slices.Options, late: bool,
                              present: bool)
    ensures s.PodEvent(key, was, pod, cluster, now, opts, late, present).watchers == s.watchers
  {
  }

  lemma HandledPodKeepsWatchers(w: P.World, read: nat, late: bool, j: nat, name: string)
    requires j == w.podsHandled < |w.podNames| && w.podNames[j] == name && j + 1 < |w.pods| && read < |w.clusters|
    ensures P.HandledPod(w, read, late).slice.watchers == w.slice.watchers
  {
    PodEventKeepsWatchers(w.slice, w.key, P.At(w.pods[j], name), P.At(w.pods[j + 1], name), w.clusters[read], w.now,
        w.opts, late, P.Present(w));
  }

  lemma PublishKeepsWatchers(s: Slices.Slice, o: Slices.Observation, latest: Option<Metadata.Cluster>,
                             pods: seq<Metadata.Pod>, caCurrent: bool, now: int, opts: Slices.Options, late: bool,
                             present: bool)
    requires |o.results| == |o.probed|
    ensures s.Publish(o, latest, pods, caCurrent, now, opts, late, present).watchers == s.watchers
  {
  }

  lemma OtherStepsKeepWatchers(w: P.World, a: P.Action)
    requires !a.Watch? && !a.Unwatch?
    ensures P.Next(w, a).slice.watchers == w.slice.watchers
  {
    if P.Possible(w, a) {
      match a
      case HandleCluster(read, late) => HandledClusterKeepsWatchers(w, read, late);
      case HandlePod(read, late) => HandledPodKeepsWatchers(w, read, late, w.podsHandled, w.podNames[w.podsHandled]);
      case Publish(o, read, _, list, caCurrent, late) =>
        PublishKeepsWatchers(w.slice, o, w.clusters[read], list, caCurrent, w.now, w.opts, late, P.Present(w));
      case _ =>
    }
  }

  /** What an action of the discovery service does to the number of watchers. */
  ghost function Gained(s: W.System, a: W.Action, key: ClusterKey): int {
    if !W.Possible(s, a) then 0
    else if a.Register? && a.key == key then 1
    else if a.Cancel? && s.streams[a.watcher].key == key then -1
    else 0
  }

  lemma RegisterGains(s: W.System, k: ClusterKey, w: Watcher, routing: Snapshot, key: ClusterKey)
    requires WatchersOk(s.store, s.streams) && w !in s.streams && k in s.store.records
    ensures |W.Registered(s, k, w, routing).store.Watchers(key)| == |s.store.Watchers(key)| + if k == key then 1 else 0
  {
    RegisterAdds(s.store, k, w, s.now, routing);
    var e := s.store.ExpireRecord(k, s.now, routing);
    assert e.subscribers == s.store.subscribers;
    assert e.Watchers(key) == s.store.Watchers(key);
    assert w !in s.store.Watchers(key);
  }

  lemma CancelLoses(s: W.System, w: Watcher, key: ClusterKey)
    requires WatchersOk(s.store, s.streams) && W.Open(s, w)
    ensures |W.Cancelled(s, w).store.Watchers(key)| == |s.store.Watchers(key)| - if s.streams[w].key == key then 1
            else 0
  {
    var k := s.streams[w].key;
    assert w in s.store.Watchers(k);
    assert W.Cancelled(s, w).store.Watchers(key) == if k == key then s.store.Watchers(key) - {w}
           else s.store.Watchers(key);
  }

  lemma ExpiryKeepsSubscribers(s: W.System, key: ClusterKey, at: int, routing: Snapshot)
    ensures W.ExpiredAt(s, key, at, routing).store.subscribers == s.store.subscribers
  {
  }

  lemma OtherServiceKeepsWatchers(s: W.System, a: W.Action)
    requires !a.Register? && !a.Cancel?
    ensures W.Next(s, a).store.subscribers == s.store.subscribers
  {
    if W.Possible(s, a) {
      match a
      case Put(x, routing, before) =>
        assert s.store.Put(x, routing, Late(x, before, s.now)).subscribers == s.store.subscribers;
      case Expire(key, at, routing) => ExpiryKeepsSubscribers(s, key, at, routing);
      case LookUp(w, routing) =>
        ExpiryKeepsSubscribers(s, s.streams[w].stage.publication.snapshot.Key(), s.now, routing);
      case _ =>
    }
  }

  lemma StoreGains(s: W.System, a: W.Action, key: ClusterKey)
    requires WatchersOk(s.store, s.streams)
    ensures |W.Next(s, a).store.Watchers(key)| == |s.store.Watchers(key)| + Gained(s, a, key)
  {
    if a.Register? && W.Possible(s, a) {
      RegisterGains(s, a.key, a.watcher, a.routing, key);
    } else if a.Cancel? && W.Possible(s, a) {
      CancelLoses(s, a.watcher, key);
    } else if !a.Register? && !a.Cancel? {
      OtherServiceKeepsWatchers(s, a);
    }
  }

  lemma TakingExpiry(w: P.World, a: Option<P.Action>)
    requires a.None? || a.value.Expire?
    ensures Taking(w, a).slice.watchers == w.slice.watchers && Taking(w, a).key == w.key
  {
    if a.Some? {
      OtherStepsKeepWatchers(w, a.value);
      ObserverKeepsTime(w, a.value);
    }
  }

  lemma TakingInterest(w: P.World, a: Option<P.Action>)
    requires a.None? || a.value.Watch? || (a.value.Unwatch? && w.slice.watchers > 0)
    ensures Taking(w, a).slice.watchers == w.slice.watchers + (if a.None? then 0 else if a.value.Watch? then 1 else -1)
    ensures Taking(w, a).key == w.key
  {
    if a.Some? {
      InterestStep(w, a.value);
    }
  }

  /** A registration or an end of a stream is interest that the observer gains or loses. */
  lemma ServeKeepsTied(v: Service, a: W.Action)
    requires Tied(v) && WatchersOk(v.discovery.store, v.discovery.streams)
    ensures Tied(Served(v, a))
  {
    StoreGains(v.discovery, a, v.observer.key);
    TakingExpiry(v.observer, Expiry(v, a));
    TakingInterest(Taking(v.observer, Expiry(v, a)), Interest(v, a));
  }

  lemma StepKeepsTied(v: Service, a: E.Action)
    requires Tied(v) && WatchersOk(v.discovery.store, v.discovery.streams)
    ensures Tied(E.Next(v, a))
  {
    if E.Possible(v, a) {
      match a
      case Observe(b, _) =>
        OtherStepsKeepWatchers(v.observer, b);
        ObserverKeepsTime(v.observer, b);
      case Commit(routing, before) =>
        OtherServiceKeepsWatchers(v.discovery, E.Step(v.todo[0], v.observer.key, routing, before));
      case Serve(b) => ServeKeepsTied(v, b);
      case Tick(_) =>
    }
  }

  lemma {:induction false} RunKeepsTied(v: Service, actions: seq<E.Action>)
    requires Joint(v) && Tied(v)
    ensures Joint(E.Run(v, actions)) && Tied(E.Run(v, actions))
    decreases actions
  {
    if actions != [] {
      StepKeepsJoint(v, actions[0]);
      StepKeepsTied(v, actions[0]);
      RunKeepsTied(E.Next(v, actions[0]), actions[1..]);
    }
  }

  /** In every run, while a stream is open on an enabled Cluster whose events are all handled, and no
      demand callback is outstanding, the Cluster is queued, being observed or waiting for a delayed
      add. */
  lemma OpenStreamIsScheduled(key: ClusterKey, opts: Slices.Options, now: int, actions: seq<E.Action>, w: Watcher)
    requires var v := E.Run(E.Start(key, opts, now), actions);
             && W.Open(v.discovery, w) && v.discovery.streams[w].key == v.observer.key
             && v.observer.handled + 1 == |v.observer.clusters| && v.observer.slice.callbacks == 0
             && v.observer.clusters[v.observer.handled].Some? && v.observer.clusters[v.observer.handled].value.Active()
    ensures Schedule.Scheduled(E.Run(E.Start(key, opts, now), actions).observer.slice)
  {
    var v := OpenRun(key, opts, now, actions);
    OpenIsScheduled(v, w);
  }

  lemma OpenRun(key: ClusterKey, opts: Slices.Options, now: int, actions: seq<E.Action>) returns (v: Service)
    ensures v == E.Run(E.Start(key, opts, now), actions)
    ensures Tied(v) && Joint(v) && P.Positions(v.observer) && Schedule.Kept(v.observer)
  {
    v := E.Run(E.Start(key, opts, now), actions);
    StartIsJoint(key, opts, now);
    assert Tied(E.Start(key, opts, now));
    RunKeepsTied(E.Start(key, opts, now), actions);
    RunKeepsSchedule(E.Start(key, opts, now), actions);
  }

  lemma OpenIsScheduled(v: Service, w: Watcher)
    requires Tied(v) && Joint(v) && P.Positions(v.observer) && Schedule.Kept(v.observer)
    requires W.Open(v.discovery, w) && v.discovery.streams[w].key == v.observer.key
    requires v.observer.handled + 1 == |v.observer.clusters| && v.observer.slice.callbacks == 0
    requires v.observer.clusters[v.observer.handled].Some? && v.observer.clusters[v.observer.handled].value.Active()
    ensures Schedule.Scheduled(v.observer.slice)
  {
    assert w in v.discovery.store.Watchers(v.observer.key);
    assert v.observer.slice.Demanded(v.observer.now);
  }
}

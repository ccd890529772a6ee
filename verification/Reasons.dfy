/**
  Watch streams recognise a tombstone by its reason. The observer never publishes a snapshot with
  that reason itself, so every snapshot it puts is safe for the streams.
 */
module Reasons {
  import opened Keys
  import opened Api
  import opened Metadata
  import opened Topology
  import opened Slices
  import opened Sections
  import opened Protocol
  import P = Protocol
  import Publications

  predicate Alive(record: Option<Snapshot>) {
    record.Some? ==> record.value.reason != DELETED
  }

  lemma CommittedIsAlive(x: Snapshot, late: bool)
    requires x.reason != DELETED
    ensures Alive(Committed(x, late))
  {
  }

  lemma BuiltIsAlive(cluster: Cluster, pods: seq<Pod>, results: seq<Probe>, params: Parameters, at: int, ttl: int)
    requires |results| == |pods|
    ensures Built(cluster, pods, results, params, at, ttl).reason != DELETED
  {
  }

  lemma PublishIsAlive(s: Slice, o: Observation, latest: Option<Cluster>, pods: seq<Pod>, caCurrent: bool, now: int,
                       opts: Options, late: bool, present: bool)
    requires |o.results| == |o.probed| && Alive(s.record)
    ensures Alive(s.Publish(o, latest, pods, caCurrent, now, opts, late, present).record)
  {
    if PublishesVerified(o, latest, caCurrent) {
      var c, r := latest.value, s.Recorded(o, latest.value, pods);
      BuiltIsAlive(c, pods, Mapped(o.probed, o.results, pods), o.Params(), o.started, opts.ttl);
      CommittedIsAlive(r.Verified(o, c, pods, opts), late);
    }
  }

  lemma SecretEventIsAlive(s: Slice, cluster: Cluster, now: int, opts: Options, late: bool, present: bool)
    requires Alive(s.record)
    ensures Alive(s.SecretEvent(cluster, now, opts, late, present).record)
  {
  }

  lemma FailureIsAlive(s: Slice, cancelled: bool, latest: Option<Cluster>, reason: string, now: int, opts: Options,
                       late: bool)
    requires Alive(s.record) && reason in FAILURES
    ensures Alive(s.PublishFailure(cancelled, latest, reason, now, opts, late).record)
  {
  }

  lemma HandledClusterIsAlive(w: World, read: nat, late: bool)
    requires Alive(w.slice.record) && w.handled + 1 < |w.clusters| && read < |w.clusters|
    ensures Alive(HandledCluster(w, read, late).slice.record)
  {
  }

  lemma HandledPodIsAlive(w: World, read: nat, late: bool)
    requires Alive(w.slice.record) && w.podsHandled + 1 < |w.pods| && w.podsHandled < |w.podNames|
             && read < |w.clusters|
    ensures Alive(HandledPod(w, read, late).slice.record)
  {
  }

  lemma SectionKeepsAlive(w: World, a: Action)
    requires Alive(w.slice.record) && Possible(w, a)
    requires a.HandleCluster? || a.HandlePod? || a.HandleSecret? || a.Publish? || a.Fail?
    ensures Alive(Next(w, a).slice.record)
  {
    match a
    case HandleCluster(read, late) => HandledClusterIsAlive(w, read, late);
    case HandlePod(read, late) => HandledPodIsAlive(w, read, late);
    case HandleSecret(read, late) =>
      SecretEventIsAlive(w.slice, w.clusters[read].value, w.now, w.opts, late, Present(w));
    case Publish(o, read, podsRead, list, caCurrent, late) =>
      PublishIsAlive(w.slice, o, w.clusters[read], list, caCurrent, w.now, w.opts, late, Present(w));
    case Fail(cancelled, reason, read, late) =>
      FailureIsAlive(w.slice, cancelled, w.clusters[read], reason, w.now, w.opts, late);
  }

  lemma StepKeepsAlive(w: World, a: Action)
    requires Alive(w.slice.record)
    ensures Alive(Next(w, a).slice.record)
  {
    if Possible(w, a) && (a.HandleCluster? || a.HandlePod? || a.HandleSecret? || a.Publish? || a.Fail?) {
      SectionKeepsAlive(w, a);
    }
  }

  lemma {:induction false} RunKeepsAlive(w: World, actions: seq<Action>)
    requires Alive(w.slice.record)
    ensures Alive(Run(w, actions).slice.record)
    decreases actions
  {
    if actions != [] {
      StepKeepsAlive(w, actions[0]);
      RunKeepsAlive(Next(w, actions[0]), actions[1..]);
    }
  }

  // ---- Each snapshot put ----

  ghost predicate AllSafe(effects: seq<Effect>) {
    forall i :: 0 <= i < |effects| && effects[i].Put? ==> effects[i].snapshot.reason != DELETED
  }

  lemma ClusterEventPutsAreSafe(s: Slice, was: Option<Cluster>, cluster: Cluster, now: int, opts: Options, late: bool)
    ensures AllSafe(ClusterEventCommits(s, was, cluster, now, opts, late))
  {
  }

  lemma PodEventPutsAreSafe(s: Slice, key: ClusterKey, was: Option<Pod>, pod: Option<Pod>, cluster: Option<Cluster>,
                            now: int, opts: Options, late: bool)
    requires Alive(s.record)
    ensures AllSafe(PodEventCommits(s, key, was, pod, cluster, now, opts, late))
  {
  }

  lemma PublishPutsAreSafe(s: Slice, o: Observation, latest: Option<Cluster>, pods: seq<Pod>, caCurrent: bool, now: int,
                           opts: Options, late: bool)
    requires |o.results| == |o.probed|
    ensures AllSafe(PublishCommits(s, o, latest, pods, caCurrent, now, opts, late))
  {
    if latest.Some? {
      BuiltIsAlive(latest.value, pods, Mapped(o.probed, o.results, pods), o.Params(), o.started, opts.ttl);
    }
  }

  lemma HandledClusterPutsAreSafe(w: World, read: nat, late: bool)
    requires w.handled + 1 < |w.clusters| && read < |w.clusters|
    ensures AllSafe(HandledClusterCommits(w, read, late))
  {
    if w.clusters[w.handled + 1].Some? {
      ClusterEventPutsAreSafe(w.slice, w.clusters[w.handled], w.clusters[w.handled + 1].value, w.now, w.opts, late);
    }
  }

  lemma HandledPodPutsAreSafe(w: World, read: nat, late: bool)
    requires w.podsHandled + 1 < |w.pods| && w.podsHandled < |w.podNames| && read < |w.clusters|
             && Alive(w.slice.record)
    ensures AllSafe(HandledPodCommits(w, read, late))
  {
    var j, name := w.podsHandled, w.podNames[w.podsHandled];
    PodEventPutsAreSafe(w.slice, w.key, At(w.pods[j], name), At(w.pods[j + 1], name), w.clusters[read], w.now, w.opts,
        late);
  }

  lemma SectionPutsAreSafe(w: World, a: P.Action)
    requires P.Possible(w, a) && Alive(w.slice.record)
    ensures AllSafe(SectionCommits(w, a))
  {
    match a
    case HandleCluster(read, late) => HandledClusterPutsAreSafe(w, read, late);
    case HandlePod(read, late) => HandledPodPutsAreSafe(w, read, late);
    case Publish(o, read, _, list, caCurrent, late) =>
      PublishPutsAreSafe(w.slice, o, w.clusters[read], list, caCurrent, w.now, w.opts, late);
    case _ =>
  }

  /** In every run, every snapshot that a section of the observer puts, also one that a later put of
      the same section hides, is safe for the streams to forward. */
  lemma ObserverPutsAreSafe(key: ClusterKey, opts: Options, now: int, actions: seq<P.Action>, a: P.Action, i: nat)
    requires var w := Run(Start(key, opts, now), actions);
             P.Possible(w, a) && i < |SectionCommits(w, a)| && SectionCommits(w, a)[i].Put?
    ensures Publications.SafePut(SectionCommits(Run(Start(key, opts, now), actions), a)[i].snapshot)
  {
    RunKeepsAlive(Start(key, opts, now), actions);
    SectionPutsAreSafe(Run(Start(key, opts, now), actions), a);
  }
}

/**
  One Cluster key in the whole observer, as a transition system. The informers change at any time;
  their handlers run later and in order; observations span both. Every critical section of the
  state mutex is one action, and what it reads from an informer may date from any moment since the
  previous section ended. An action that is not possible in a state leaves it unchanged.
 */
module Protocol {
  import opened Keys
  import opened Metadata
  import opened Slices
  import opened Informers

  /** What an available record was built from, when the informers held it, and the observation that did. */
  datatype Source =
    | NoSource
    | Source(cluster: Cluster, primary: Pod, clusterIndex: nat, podIndex: nat, observation: Observation)

  /** `handled` counts the events whose handler has run; `seen` is the newest content that a finished
      critical section may have read. Pod event `j` is about the pod named `podNames[j]`. */
  datatype World = World(
    key: ClusterKey, opts: Options,
    clusters: Clusters, handled: nat, seen: nat,
    pods: Pods, podNames: seq<string>, podsHandled: nat, podsSeen: nat,
    slice: Slice, source: Source, now: int)

  datatype Action =
    | ClusterChanges(cluster: Option<Cluster>)
    | PodChanges(name: string, pod: Option<Pod>)
    | HandleCluster(read: nat, late: bool)
    | HandlePod(read: nat, late: bool)
    | HandleSecret(read: nat, late: bool)
    | StartObservation(read: nat)
    | Publish(o: Observation, read: nat, podsRead: nat, list: seq<Pod>, caCurrent: bool, late: bool)
    | Fail(cancelled: bool, reason: string, read: nat, late: bool)
    | Expire
    | Notified
    | Tick(elapsed: nat)
    | Watch
    | Unwatch
    | Refresh(lease: nat)
    | RunCallback
    | Dequeue
    | BeginWork(ready: bool)
    | BeginObservation
    | EndWork(superseded: bool)
    | Finish
    | FireDelayed

  /** Why an observation fails before it probes anything. */
  const FAILURES := ["invalid_configuration", "primary_transition", "connection_defaults_unavailable"]

  function Start(key: ClusterKey, opts: Options, now: int): World {
    World(key, opts, [None], 0, 0, [map[]], [], 0, 0, INITIAL, NoSource, now)
  }

  predicate Present(w: World) {
    w.clusters != [] && w.clusters[|w.clusters| - 1].Some?
  }

  /** The end of a critical section: later ones read no older contents. */
  function Left(w: World, slice: Slice): World {
    w.(slice := slice, seen := if w.clusters == [] then 0 else |w.clusters| - 1,
       podsSeen := if w.pods == [] then 0 else |w.pods| - 1)
  }

  predicate Reads(w: World, read: nat) {
    w.seen <= read < |w.clusters|
  }

  function At(m: map<string, Pod>, name: string): Option<Pod> {
    if name in m then Some(m[name]) else None
  }

  /** The observation in flight finds its context cancelled if it was superseded; it may also be
      cancelled from outside. */
  predicate Collecting(worker: Worker, cancelled: bool) {
    worker.Observing? && (worker.superseded ==> cancelled)
  }

  ghost predicate DistinctNames(pods: seq<Pod>) {
    forall i, j :: 0 <= i < j < |pods| ==> pods[i].name != pods[j].name
  }

  ghost predicate Possible(w: World, a: Action) {
    match a
    case ClusterChanges(c) => MayBecome(w.clusters, w.key, c)
    case PodChanges(name, pod) => PodMayBecome(w.pods, w.key, name, pod)
    case HandleCluster(read, _) => w.handled + 1 < |w.clusters| && w.handled + 1 <= read && Reads(w, read)
    case HandlePod(read, _) => w.podsHandled + 1 < |w.pods| && w.podsHandled < |w.podNames| && Reads(w, read)
    case HandleSecret(read, _) => Reads(w, read) && w.clusters[read].Some?
    case StartObservation(read) => w.slice.worker.Observing? && Reads(w, read)
    case Publish(o, read, podsRead, list, _, _) =>
      && Collecting(w.slice.worker, o.cancelled) && Reads(w, read) && w.podsSeen <= podsRead < |w.pods|
      && |o.results| == |o.probed| && DistinctNames(o.probed)
      && (w.clusters[read].Some? ==> IsPodList(list, w.pods[podsRead], w.key, w.clusters[read].value.uid))
    case Fail(cancelled, reason, read, _) => Collecting(w.slice.worker, cancelled) && Reads(w, read)
        && reason in FAILURES
    case Unwatch => w.slice.watchers > 0
    case Refresh(_) => w.slice.record.Some?
    case RunCallback => w.slice.callbacks > 0
    case Dequeue => w.slice.dirty && w.slice.worker.Free?
    case BeginWork(_) => w.slice.worker.Dequeued?
    case BeginObservation => w.slice.worker.Accepted?
    case EndWork(superseded) => w.slice.worker.Observing? && (superseded ==> w.slice.worker.superseded)
    case Finish => w.slice.worker.Leaving?
    case FireDelayed => w.slice.delayed > 0
    case _ => true
  }

  function HandledCluster(w: World, read: nat, late: bool): World
    requires w.handled + 1 < |w.clusters| && read < |w.clusters|
  {
    var was, cluster := w.clusters[w.handled], w.clusters[w.handled + 1];
    var slice :=
      if cluster.Some? then w.slice.ClusterEvent(was, cluster.value, w.now, w.opts, late, Present(w))
      else if was.Some? then w.slice.ClusterDeleted(was.value, w.clusters[read])
      else w.slice;
    Left(w, slice).(handled := w.handled + 1)
  }

  function HandledPod(w: World, read: nat, late: bool): World
    requires w.podsHandled + 1 < |w.pods| && w.podsHandled < |w.podNames| && read < |w.clusters|
  {
    var name := w.podNames[w.podsHandled];
    var was, pod := At(w.pods[w.podsHandled], name), At(w.pods[w.podsHandled + 1], name);
    var slice := w.slice.PodEvent(w.key, was, pod, w.clusters[read], w.now, w.opts, late, Present(w));
    Left(w, slice).(podsHandled := w.podsHandled + 1)
  }

  /** The primary an observation verified, if it published an available snapshot. */
  function SourceOf(o: Observation, latest: Option<Cluster>, list: seq<Pod>, read: nat, podsRead: nat): Source
    requires |o.results| == |o.probed|
  {
    if latest.None? then NoSource else
    var i := PodIndex(list, latest.value.currentPrimary);
    if i < 0 then NoSource else Source(latest.value, list[i], read, podsRead, o)
  }

  function PodIndex(list: seq<Pod>, name: string): (i: int)
    ensures -1 <= i < |list|
    ensures i >= 0 ==> list[i].name == name
    ensures i < 0 ==> forall k :: 0 <= k < |list| ==> list[k].name != name
  {
    if list == [] then -1 else if list[0].name == name then 0 else
    var i := PodIndex(list[1..], name);
    if i < 0 then -1 else i + 1
  }

  function PublishedBy(w: World, o: Observation, read: nat, podsRead: nat, list: seq<Pod>, caCurrent: bool,
                       late: bool): World
    requires read < |w.clusters| && |o.results| == |o.probed|
  {
    var latest := w.clusters[read];
    Left(w, w.slice.Publish(o, latest, list, caCurrent, w.now, w.opts, late, Present(w))).(
      source := if PublishesVerified(o, latest, caCurrent) then SourceOf(o, latest, list, read, podsRead) else w.source)
  }

  ghost function Next(w: World, a: Action): World {
    if !Possible(w, a) then w else
    var s := w.slice;
    match a
    case ClusterChanges(c) => w.(clusters := w.clusters + [c])
    case PodChanges(name, pod) =>
      w.(pods := w.pods + [PodsAfter(w.pods[|w.pods| - 1], name, pod)], podNames := w.podNames + [name])
    case HandleCluster(read, late) => HandledCluster(w, read, late)
    case HandlePod(read, late) => HandledPod(w, read, late)
    case HandleSecret(read, late) => Left(w, s.SecretEvent(w.clusters[read].value, w.now, w.opts, late, Present(w)))
    case StartObservation(read) => Left(w, s.ObserveMissing(w.clusters[read]))
    case Publish(o, read, podsRead, list, caCurrent, late) => PublishedBy(w, o, read, podsRead, list, caCurrent, late)
    case Fail(cancelled, reason, read, late) =>
      Left(w, s.PublishFailure(cancelled, w.clusters[read], reason, w.now, w.opts, late))
    case Expire => w.(slice := s.ReadRecord(w.now))
    case Notified => w.(slice := s.Notify(w.now, Present(w)))
    case Tick(elapsed) => w.(now := w.now + elapsed)
    case Watch => w.(slice := s.(watchers := s.watchers + 1, callbacks :=
        s.callbacks + (if s.Demanded(w.now) then 0 else 1)))
    case Unwatch => w.(slice := s.(watchers := s.watchers - 1))
    case Refresh(lease) =>
      w.(slice := s.(lease := Some(w.now + lease), callbacks := s.callbacks + (if s.Demanded(w.now) then 0 else 1)))
    case RunCallback => w.(slice := s.(callbacks := s.callbacks - 1).EnqueueDemand(w.now, w.opts, Present(w)))
    case Dequeue => w.(slice := s.(dirty := false, worker := Dequeued))
    case BeginWork(ready) => w.(slice := s.Began(w.now, ready))
    case BeginObservation => w.(slice := s.BeginObservation())
    case EndWork(superseded) => w.(slice := s.Ended(w.now, superseded))
    case Finish => w.(slice := s.(worker := Free))
    case FireDelayed => w.(slice := s.(delayed := s.delayed - 1, dirty := true))
  }

  ghost function Run(w: World, actions: seq<Action>): World
    decreases actions
  {
    if actions == [] then w else Run(Next(w, actions[0]), actions[1..])
  }

  /** Handlers trail the contents that critical sections have read, which trail the informers. */
  ghost predicate Positions(w: World) {
    w.handled <= w.seen < |w.clusters| && w.podsHandled <= w.podsSeen < |w.pods|
  }

  lemma StepKeepsPositions(w: World, a: Action)
    requires Positions(w)
    ensures Positions(Next(w, a))
  {
  }

  lemma PodVanishes(w: World, name: string)
    requires |w.pods| == |w.podNames| + 1 && w.podsHandled + 1 == |w.pods| && name in w.pods[w.podsHandled]
    ensures var v := Next(w, PodChanges(name, None));
            && v == w.(pods := w.pods + [w.pods[w.podsHandled] - {name}], podNames := w.podNames + [name])
  {
    assert PodMayBecome(w.pods, w.key, name, None);
  }
}

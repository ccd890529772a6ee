/**
  The observer as seen by one Cluster key: its published record, its evidence, the observation in
  flight and its place in the work queue. `Slice` is that state between critical sections of the
  state mutex, and its functions are those sections. What a section reads from the informers is
  passed in, since informers change without taking the mutex.
 */
module Slices {
  import opened Keys
  import opened Api
  import opened Metadata
  import opened Topology
  import opened Evidence
  import S = Stores
  import CACaches

  /** Where the one worker that may hold the key is. */
  datatype Worker = Free | Dequeued | Accepted | Observing(superseded: bool) | Leaving

  /** Options fixed when the observer starts. */
  datatype Options = Options(ttl: int, pollInterval: int)

  /** A finished collection about to be published, with the CA entry it has retained since it began;
      `cancelled` and `ready` are read inside the critical section. */
  datatype Observation = Observation(
    observed: Cluster, probed: seq<Pod>, results: seq<Probe>, ca: CACaches.Entry,
    started: int, cancelled: bool, ready: bool)
  {
    /** An observation of a Cluster whose parameters are invalid fails before it collects. */
    function Params(): Parameters {
      if observed.params.Some? then observed.params.value else Parameters(map[], "")
    }

    function Defaults(): Connection {
      Connection(observed.database, ca.public)
    }
  }

  /** A finished collection is published as verified only with its context live, the watches healthy,
      its Cluster's route unchanged and its CA still the cached and current one. */
  predicate PublishesVerified(o: Observation, latest: Option<Cluster>, caCurrent: bool) {
    && latest.Some? && latest.value.Active() && !o.cancelled && o.ready
    && SameClusterRoute(o.observed, latest.value) && caCurrent
  }

  /** There is a record, and it offers a route. */
  predicate Offers(record: Option<Snapshot>) {
    record.Some? && record.value.available
  }

  /** The commit of a snapshot; `late` says that its validity had ended by then. */
  function Committed(snapshot: Snapshot, late: bool): Option<Snapshot> {
    Some(S.Prepared(snapshot, late))
  }

  function MarkMember(m: Member, id: string): Member {
    if m.id == id then m.(ready := false, reason := "member_changed") else m
  }

  function MarkMembers(members: seq<Member>, id: string): (r: seq<Member>)
    ensures |r| == |members|
    ensures forall i :: 0 <= i < |r| ==> r[i] == MarkMember(members[i], id)
  {
    seq(|members|, i requires 0 <= i < |members| => MarkMember(members[i], id))
  }

  /** The last probed pod of that name, -1 if there is none. */
  function ProbedIndex(probed: seq<Pod>, name: string): (i: int)
    ensures -1 <= i < |probed|
    ensures i >= 0 ==> probed[i].name == name
    decreases |probed|
  {
    if probed == [] then -1 else
    var n := |probed| - 1;
    if probed[n].name == name then n else ProbedIndex(probed[..n], name)
  }

  const BLANK_STATUS := Status(None, "", 0, "", false, false, false, false, [])
  const CHANGED := Probe(BLANK_STATUS, true)

  /** The result that counts for a current pod: none if its route changed since it was probed. */
  function MappedResult(probed: seq<Pod>, results: seq<Probe>, pod: Pod): Probe
    requires |results| == |probed|
  {
    var i := ProbedIndex(probed, pod.name);
    if i < 0 || !SamePodRoute(probed[i], pod) then CHANGED else results[i]
  }

  function Mapped(probed: seq<Pod>, results: seq<Probe>, current: seq<Pod>): (r: seq<Probe>)
    requires |results| == |probed|
    ensures |r| == |current|
    ensures forall i :: 0 <= i < |r| ==> r[i] == MappedResult(probed, results, current[i])
  {
    seq(|current|, i requires 0 <= i < |current| => MappedResult(probed, results, current[i]))
  }

  /** Withdraws every route of a snapshot for which conflicting primaries were observed. */
  function Conflicted(s: Snapshot): Snapshot {
    s.(available := false, primaryID := "", reason := "multiple_primaries_observed",
       members := seq(|s.members|, i requires 0 <= i < |s.members| => s.members[i].(ready := false)))
  }

  datatype Slice = Slice(
    record: Option<Snapshot>, claims: Option<Claims>, worker: Worker,
    watchers: nat, lease: Option<int>, callbacks: nat,
    dirty: bool, delayed: nat, demandNext: Option<int>)
  {
    predicate Demanded(now: int) {
      watchers > 0 || (lease.Some? && now < lease.value)
    }

    /** Cancelling marks an observation in flight as superseded. */
    function Cancel(): Slice {
      if worker.Observing? then this.(worker := Observing(true)) else this
    }

    function Delete(): Slice {
      this.(record := None, lease := None)
    }

    /** The key is gone from discovery. */
    function Forget(): Slice {
      Cancel().Delete().(claims := None, demandNext := None)
    }

    function Withdraw(cluster: Cluster, now: int, opts: Options, reason: string, late: bool): Slice {
      this.(record := Committed(Unavailable(cluster, now, opts.ttl, reason), late))
    }

    /** An urgent enqueue; `present` says that the informer knows the Cluster. */
    function Notify(now: int, present: bool): Slice {
      if Demanded(now) && present then this.(dirty := true) else this
    }

    predicate Unknown(cluster: Cluster) {
      record.None? || record.value.cluster.uid != cluster.uid
    }

    function ClusterEvent(was: Option<Cluster>, cluster: Cluster, now: int, opts: Options, late: bool,
                          present: bool): Slice {
      if !cluster.Active() then Forget() else
      var s := if Unknown(cluster)
               then Cancel().(claims := None, demandNext :=
                   None).Withdraw(cluster, now, opts, "awaiting_observation", late)
               else this;
      if was.Some? && SameClusterRoute(was.value, cluster) then s else
      var t := if was.Some? then s.Cancel().Withdraw(cluster, now, opts, "topology_changed", late) else s;
      t.Notify(now, present)
    }

    /** `current` is what the informer holds now. */
    function ClusterDeleted(cluster: Cluster, current: Option<Cluster>): Slice {
      if current.Some? && current.value.uid != cluster.uid then this else Forget()
    }

    /** Reading the record commits its expiry. */
    function ReadRecord(now: int): Slice {
      if record.Some? && now >= record.value.validUntil then this.(record := Some(Invalidated(record.value))) else this
    }

    function MemberChanged(cluster: Cluster, id: string, now: int, late: bool): Slice {
      var s := ReadRecord(now);
      if s.record.None? || s.record.value.cluster.uid != cluster.uid then s else
      s.(record := Committed(s.record.value.(members := MarkMembers(s.record.value.members, id)), late))
    }

    /** The part of a pod event that withdraws routes; `cluster` is the informer's current one. */
    function PodRouteChanged(pod: Pod, cluster: Cluster, now: int, opts: Options, late: bool): Slice {
      if pod.name == cluster.currentPrimary
      then Cancel().Withdraw(cluster, now, opts, "primary_changed", late)
      else MemberChanged(cluster, pod.uid, now, late)
    }

    function PodEvent(key: ClusterKey, was: Option<Pod>, pod: Option<Pod>, cluster: Option<Cluster>, now: int,
                      opts: Options, late: bool, present: bool): Slice {
      if Unremarkable(was, pod) || !Concerns(key, was, pod) then this else
      var s := if cluster.Some? && LosesRoute(was, pod) then PodRouteChanged(was.value, cluster.value, now, opts, late)
          else this;
      s.Notify(now, present)
    }

    /** A rotated or vanished CA of a Cluster that uses it. */
    function SecretEvent(cluster: Cluster, now: int, opts: Options, late: bool, present: bool): Slice {
      var s := Cancel().ReadRecord(now);
      var t := if s.record.Some? && (s.record.value.available || s.record.value.connection.serverCAPEM != [])
               then s.Withdraw(cluster, now, opts, "connection_defaults_changed", late) else s;
      t.Notify(now, present)
    }

    /** The start of an observation drops a Cluster that is gone or disabled. */
    function ObserveMissing(latest: Option<Cluster>): Slice {
      if latest.None? || !latest.value.Active() then Delete().(claims := None) else this
    }

    function PublishFailure(cancelled: bool, latest: Option<Cluster>, reason: string, now: int, opts: Options,
                            late: bool): Slice {
      if cancelled then this
      else if latest.None? || !latest.value.Active() then Delete()
      else
        var snapshot := Unavailable(latest.value, now, opts.ttl, reason).(transitioning := Transitioning(latest.value));
        this.(record := Committed(snapshot, late))
    }

    /** Evidence is recorded even by a superseded collection of the same Cluster. */
    function Recorded(o: Observation, latest: Cluster, pods: seq<Pod>): Slice
      requires |o.results| == |o.probed|
    {
      if o.observed.uid != latest.uid then this else
      this.(claims := Some(Collected(claims, Collection(o.observed, latest, o.probed, pods, o.results))))
    }

    predicate Conflict(o: Observation, latest: Cluster) {
      o.observed.uid == latest.uid && claims.Some? && Conflicts(claims.value, latest)
    }

    /** The snapshot a verified observation publishes, given the evidence after it. */
    function Verified(o: Observation, latest: Cluster, pods: seq<Pod>, opts: Options): Snapshot
      requires |o.results| == |o.probed|
    {
      var built := Built(latest, pods, Mapped(o.probed, o.results, pods), o.Params(), o.started, opts.ttl);
      (if Conflict(o, latest) then Conflicted(built) else built).(connection := o.Defaults())
    }

    /** `caCurrent` is the verdict on the retained CA, reached in the same section. */
    function Publish(o: Observation, latest: Option<Cluster>, pods: seq<Pod>, caCurrent: bool, now: int, opts: Options,
                     late: bool, present: bool): Slice
      requires |o.results| == |o.probed|
    {
      if latest.None? || !latest.value.Active() then Delete().(claims := None) else
      var c := latest.value;
      var s := Recorded(o, c, pods);
      if o.cancelled || !o.ready then s
      else if !SameClusterRoute(o.observed, c) then
        s.Notify(now, present).Withdraw(c, now, opts, "topology_changed_during_observation", late)
      else if !caCurrent then
        s.Notify(now, present).Withdraw(c, now, opts, "connection_defaults_changed", late)
      else
        s.(record := Committed(s.Verified(o, c, pods, opts), late))
    }

    predicate Needed(now: int) {
      Demanded(now) && record.Some?
    }

    /** A worker that took the key drops it, puts it off, or goes on to observe it. */
    function Began(now: int, ready: bool): Slice {
      if !Needed(now) then this.(worker := Leaving)
      else if !ready then this.(delayed := delayed + 1, worker := Leaving)
      else this.(worker := Accepted)
    }

    /** From here on events can supersede the observation. */
    function BeginObservation(): Slice {
      this.(worker := Observing(false))
    }

    /** After an observation: an event that superseded it has queued its replacement; otherwise the
        next poll or retry is a delayed add. */
    function Ended(now: int, superseded: bool): Slice {
      if superseded || !Needed(now) then this.(worker := Leaving)
      else this.(delayed := delayed + 1, worker := Leaving)
    }

    /** A demand callback, paced to one refresh per poll interval. */
    function EnqueueDemand(now: int, opts: Options, present: bool): Slice {
      if !Demanded(now) || !present then this
      else if demandNext.Some? && now < demandNext.value then this.(delayed := delayed + 1)
      else this.(demandNext := Some(now + opts.pollInterval), dirty := true)
    }
  }

  const INITIAL := Slice(None, None, Free, 0, None, 0, false, 0, None)

  /** Events that change neither the route nor the published labels of a pod. */
  predicate Unremarkable(was: Option<Pod>, pod: Option<Pod>) {
    && was.Some? && pod.Some? && SamePodRoute(was.value, pod.value)
    && Label(was.value, ZONE) == Label(pod.value, ZONE) && Label(was.value, REGION) == Label(pod.value, REGION)
  }

  predicate Concerns(key: ClusterKey, was: Option<Pod>, pod: Option<Pod>) {
    (was.Some? && PodCluster(was.value) == Some(key)) || (pod.Some? && PodCluster(pod.value) == Some(key))
  }

  predicate LosesRoute(was: Option<Pod>, pod: Option<Pod>) {
    was.Some? && (pod.None? || !SamePodRoute(was.value, pod.value))
  }

  /** The event takes away a route of this Cluster, and `cluster` is read as the current one. */
  predicate Loses(key: ClusterKey, was: Option<Pod>, pod: Option<Pod>, cluster: Option<Cluster>) {
    LosesRoute(was, pod) && Concerns(key, was, pod) && cluster.Some?
  }
}

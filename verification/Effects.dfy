/** What each critical section does to the observer's state of one key, field by field. */
module Effects {
  import opened Keys
  import opened Api
  import opened Metadata
  import opened Evidence
  import opened Slices

  /** The record says only that the Cluster has no route, since when and why; a commit that came too late
      says that it expired. */
  predicate Notice(record: Option<Snapshot>, c: Cluster, now: int, ttl: int, reason: string, late: bool) {
    && record.Some?
    && var x := record.value;
       && x.cluster.namespace == c.namespace && x.cluster.name == c.name && x.cluster.uid == c.uid
       && x.observedAt == now && x.validUntil == now + ttl && x.reason == (if late then "expired" else reason)
       && !x.available && x.primaryID == "" && x.members == [] && x.connection == Connection("", [])
  }

  /** Nothing of the key is left to serve, and no observation in flight can publish. */
  predicate Dropped(s: Slice) {
    && s.record.None? && s.claims.None? && s.lease.None? && s.demandNext.None? && s.worker != Observing(false)
  }

  /** The event neither moves the Cluster nor is its first. */
  predicate Unmoved(was: Option<Cluster>, cluster: Cluster) {
    was.Some? && ClusterAlike(was.value, cluster) && cluster.params.Some?
  }

  predicate OfOther(s: Slice, cluster: Cluster) {
    s.record.None? || s.record.value.cluster.uid != cluster.uid
  }

  predicate Stopped(before: Worker, after: Worker) {
    after == if before.Observing? then Observing(true) else before
  }

  /** The parts of the state that only demand and the work queue change. */
  predicate SameInterest(s: Slice, t: Slice) {
    t.watchers == s.watchers && t.lease == s.lease && t.callbacks == s.callbacks && t.delayed == s.delayed
  }

  predicate Wanted(s: Slice, now: int, present: bool) {
    present && (s.watchers > 0 || (s.lease.Some? && now < s.lease.value))
  }

  /** What an event leaves of a Cluster that takes part: a new one starts without evidence and awaits its first
      observation; one that moved is withdrawn and its observation stopped. */
  predicate Heard(s: Slice, t: Slice, was: Option<Cluster>, cluster: Cluster, now: int, opts: Options, late: bool) {
    var other, moved := OfOther(s, cluster), was.Some? && !Unmoved(was, cluster);
    && SameInterest(s, t)
    && (if other then t.claims.None? && t.demandNext.None?
        else t.claims == s.claims && t.demandNext == s.demandNext)
    && (if other || moved
        then Stopped(s.worker, t.worker)
             && Notice(t.record, cluster, now, opts.ttl, if moved then "topology_changed" else "awaiting_observation",
                       late)
        else t.record == s.record && t.worker == s.worker)
  }

  /** A disabled or deleted Cluster is dropped. One that is new or moved is queued if wanted; an event that
      neither adds nor moves its Cluster changes nothing. */
  lemma ClusterEventByFields(s: Slice, was: Option<Cluster>, cluster: Cluster, now: int, opts: Options, late: bool,
                             present: bool)
    ensures
      var t := s.ClusterEvent(was, cluster, now, opts, late, present);
      if !cluster.enabled || cluster.deleting then Dropped(t) && t.dirty == s.dirty && t.watchers == s.watchers
      else
        && Heard(s, t, was, cluster, now, opts, late)
        && (t.dirty <==> s.dirty || (!Unmoved(was, cluster) && Wanted(s, now, present)))
  {
    if was.Some? {
      ClusterRouteIff(was.value, cluster);
    }
    if cluster.enabled && !cluster.deleting {
      if OfOther(s, cluster) {
        NewIsHeard(s, was, cluster, now, opts, late, present);
      } else {
        KnownIsHeard(s, was, cluster, now, opts, late, present);
      }
    }
  }

  lemma NewIsHeard(s: Slice, was: Option<Cluster>, cluster: Cluster, now: int, opts: Options, late: bool,
                   present: bool)
    requires cluster.enabled && !cluster.deleting && OfOther(s, cluster)
    ensures
      var t := s.ClusterEvent(was, cluster, now, opts, late, present);
      && Heard(s, t, was, cluster, now, opts, late)
      && (t.dirty <==> s.dirty || (!Unmoved(was, cluster) && Wanted(s, now, present)))
  {
    if was.Some? {
      ClusterRouteIff(was.value, cluster);
    }
  }

  lemma KnownIsHeard(s: Slice, was: Option<Cluster>, cluster: Cluster, now: int, opts: Options, late: bool,
                     present: bool)
    requires cluster.enabled && !cluster.deleting && !OfOther(s, cluster)
    ensures
      var t := s.ClusterEvent(was, cluster, now, opts, late, present);
      && Heard(s, t, was, cluster, now, opts, late)
      && (t.dirty <==> s.dirty || (!Unmoved(was, cluster) && Wanted(s, now, present)))
  {
    if was.Some? {
      ClusterRouteIff(was.value, cluster);
    }
  }

  /** A deletion drops the key, unless the informer already holds another incarnation. */
  lemma ClusterDeletedByFields(s: Slice, cluster: Cluster, current: Option<Cluster>)
    ensures var t := s.ClusterDeleted(cluster, current);
            if current.Some? && current.value.uid != cluster.uid then t == s
            else Dropped(t) && t.dirty == s.dirty && t.watchers == s.watchers && t.delayed == s.delayed
  {
  }

  // ---- Pods ----

  predicate LabelMoved(a: Pod, b: Pod, key: string) {
    (if key in a.labels then a.labels[key] else "") != (if key in b.labels then b.labels[key] else "")
  }

  /** The pod's route is gone or another one. */
  ghost predicate Lost(was: Option<Pod>, pod: Option<Pod>) {
    was.Some? && (pod.None? || !PodAlike(was.value, pod.value))
  }

  /** The event is of a pod of this Cluster, and changes its route or a published label. */
  ghost predicate Matters(key: ClusterKey, was: Option<Pod>, pod: Option<Pod>) {
    && ((was.Some? && BelongsTo(was.value, key)) || (pod.Some? && BelongsTo(pod.value, key)))
    && (was.None? || Lost(was, pod)
        || LabelMoved(was.value, pod.value, "topology.kubernetes.io/zone")
        || LabelMoved(was.value, pod.value, "topology.kubernetes.io/region"))
  }

  lemma MattersIff(key: ClusterKey, was: Option<Pod>, pod: Option<Pod>)
    requires was.Some? || pod.Some?
    ensures Matters(key, was, pod) <==> !Unremarkable(was, pod) && Concerns(key, was, pod)
    ensures Lost(was, pod) <==> LosesRoute(was, pod)
  {
    if was.Some? {
      PodClusterIff(was.value, key);
      if pod.Some? {
        PodRouteIff(was.value, pod.value);
      }
    }
    if pod.Some? {
      PodClusterIff(pod.value, key);
    }
  }

  /** The members with that ID are unready, and say so; the rest is as it was. */
  predicate Marked(before: seq<Member>, after: seq<Member>, id: string) {
    && |after| == |before|
    && (forall i :: 0 <= i < |before| ==>
          after[i] == if before[i].id == id then before[i].(ready := false, reason := "member_changed") else before[i])
  }

  /** In time, only members of a record of that incarnation change. */
  lemma MemberChangedByFields(s: Slice, cluster: Cluster, id: string, now: int)
    requires s.record.Some? && now < s.record.value.validUntil
    ensures
      var t := s.MemberChanged(cluster, id, now, false);
      && t == s.(record := t.record) && t.record.Some?
      && var x, y := s.record.value, t.record.value;
         if x.cluster.uid != cluster.uid then y == x
         else Marked(x.members, y.members, id) && y == x.(apiVersion := API_VERSION, members := y.members)
  {
  }

  /** An event that matters queues the key if it is wanted. A route that was lost takes the record with it if
      it was the current primary's, and otherwise its member; an event that does not matter changes nothing. */
  lemma PodEventByFields(s: Slice, key: ClusterKey, was: Option<Pod>, pod: Option<Pod>, cluster: Option<Cluster>,
                         now: int, opts: Options, late: bool, present: bool)
    requires was.Some? || pod.Some?
    ensures
      var t := s.PodEvent(key, was, pod, cluster, now, opts, late, present);
      if !Matters(key, was, pod) then t == s
      else
        && SameInterest(s, t) && t.claims == s.claims && t.demandNext == s.demandNext
        && (t.dirty <==> s.dirty || Wanted(s, now, present))
        && (if !Lost(was, pod) || cluster.None? then t.record == s.record && t.worker == s.worker
            else if was.value.name == cluster.value.currentPrimary
            then Stopped(s.worker, t.worker) && Notice(t.record, cluster.value, now, opts.ttl, "primary_changed", late)
            else t.worker == s.worker && t.record == s.MemberChanged(cluster.value, was.value.uid, now, late).record)
  {
    MattersIff(key, was, pod);
    if Matters(key, was, pod) {
      var r := if cluster.Some? && Lost(was, pod) then s.PodRouteChanged(was.value, cluster.value, now, opts, late)
               else s;
      assert s.PodEvent(key, was, pod, cluster, now, opts, late, present) == r.Notify(now, present);
      if cluster.Some? && Lost(was, pod) {
        LostByFields(s, was.value, cluster.value, now, opts, late);
      }
    }
  }

  lemma LostByFields(s: Slice, pod: Pod, cluster: Cluster, now: int, opts: Options, late: bool)
    ensures
      var t := s.PodRouteChanged(pod, cluster, now, opts, late);
      && SameInterest(s, t) && t.claims == s.claims && t.demandNext == s.demandNext && t.dirty == s.dirty
      && if pod.name == cluster.currentPrimary
         then Stopped(s.worker, t.worker) && Notice(t.record, cluster, now, opts.ttl, "primary_changed", late)
         else t.worker == s.worker && t.record == s.MemberChanged(cluster, pod.uid, now, late).record
  {
  }

  // ---- Secrets ----

  /** A record that offers a route or carries a CA is withdrawn; one past its time offers none. */
  ghost predicate Uncertified(before: Option<Snapshot>, after: Option<Snapshot>, cluster: Cluster, now: int,
                              opts: Options, late: bool) {
    if before.None? then after.None?
    else
      var x := before.value;
      var expired := now >= x.validUntil;
      if (x.available && !expired) || x.connection.serverCAPEM != []
      then Notice(after, cluster, now, opts.ttl, "connection_defaults_changed", late)
      else after.Some? && if expired then ExpiredForm(x, after.value) else after.value == x
  }

  /** A stale Secret stops the observation and withdraws what used it; the key is queued if wanted. */
  lemma SecretEventByFields(s: Slice, cluster: Cluster, now: int, opts: Options, late: bool, present: bool)
    ensures
      var t := s.SecretEvent(cluster, now, opts, late, present);
      && SameInterest(s, t) && t.claims == s.claims && t.demandNext == s.demandNext && Stopped(s.worker, t.worker)
      && (t.dirty <==> s.dirty || Wanted(s, now, present))
      && Uncertified(s.record, t.record, cluster, now, opts, late)
  {
    SecretRecord(s, cluster, now, opts, late, present);
  }

  lemma SecretRecord(s: Slice, cluster: Cluster, now: int, opts: Options, late: bool, present: bool)
    ensures Uncertified(s.record, s.SecretEvent(cluster, now, opts, late, present).record, cluster, now, opts, late)
  {
    if s.record.Some? {
      InvalidatedForm(s.record.value);
    }
  }

  // ---- Observations ----

  /** A superseded failure changes nothing; one of a Cluster that is gone removes its record; any other
      withdraws it with the reason given. */
  lemma FailureByFields(s: Slice, cancelled: bool, latest: Option<Cluster>, reason: string, now: int, opts: Options,
                        late: bool)
    ensures
      var t := s.PublishFailure(cancelled, latest, reason, now, opts, late);
      if cancelled then t == s
      else if latest.None? || !latest.value.enabled || latest.value.deleting
      then t == s.(record := None, lease := None)
      else
        var c := latest.value;
        && t == s.(record := t.record) && Notice(t.record, c, now, opts.ttl, reason, late)
        && (t.record.value.transitioning <==> c.currentPrimary == "" || c.currentPrimary != c.targetPrimary)
  {
  }

  /** What evidence an observation records: the claims that are held after it, if it was of this incarnation. */
  lemma RecordedByClaim(s: Slice, o: Observation, latest: Cluster, pods: seq<Pod>, c: Collection, name: string,
                        uid: string)
    requires c.WellFormed() && c.probed == o.probed && c.results == o.results && c.current == pods
    requires c.observed == o.observed && c.cluster == latest
    ensures
      var t := s.Recorded(o, latest, pods);
      && t == s.(claims := t.claims)
      && if o.observed.uid != latest.uid then t.claims == s.claims
         else
           && t.claims.Some? && t.claims.value.clusterUID == latest.uid
           && (name in t.claims.value.members && t.claims.value.members[name] == uid <==>
                 && Held(s.claims, c, name, uid)
                 && exists n, u :: Held(s.claims, c, n, u) && n != o.observed.currentPrimary)
  {
    assert c == Collection(o.observed, latest, o.probed, pods, o.results);
    if o.observed.uid == latest.uid {
      EvidenceByClaim(s.claims, c, name, uid);
    }
  }

  /** What an observation does that publishes no verified snapshot: nothing but its evidence if it was
      superseded or the watches are not ready; otherwise it withdraws a Cluster that moved or whose CA is no
      longer current, and queues it if wanted. */
  lemma RejectedByFields(s: Slice, o: Observation, latest: Option<Cluster>, pods: seq<Pod>, caCurrent: bool, now: int,
                         opts: Options, late: bool, present: bool)
    requires |o.results| == |o.probed| && !PublishesVerified(o, latest, caCurrent)
    ensures
      var t := s.Publish(o, latest, pods, caCurrent, now, opts, late, present);
      if latest.None? || !latest.value.enabled || latest.value.deleting
      then t == s.(record := None, lease := None, claims := None)
      else
        var c, moved := latest.value, !(ClusterAlike(o.observed, latest.value) && latest.value.params.Some?);
        && SameInterest(s, t) && t.worker == s.worker && t.demandNext == s.demandNext
        && t.claims == s.Recorded(o, c, pods).claims
        && if o.cancelled || !o.ready then t.record == s.record && t.dirty == s.dirty
           else
             && (moved || !caCurrent) && (t.dirty <==> s.dirty || Wanted(s, now, present))
             && Notice(t.record, c, now, opts.ttl,
                       if moved then "topology_changed_during_observation" else "connection_defaults_changed", late)
  {
    if latest.Some? {
      ClusterRouteIff(o.observed, latest.value);
    }
  }

  /** A conflict keeps what is published of the members, but none of them is ready and nothing is offered. */
  lemma ConflictedByFields(x: Snapshot)
    ensures
      var y := Conflicted(x);
      && !y.available && y.primaryID == "" && y.reason == "multiple_primaries_observed"
      && y.cluster == x.cluster && y.observedAt == x.observedAt && y.validUntil == x.validUntil
      && y.transitioning == x.transitioning && |y.members| == |x.members|
      && (forall i :: 0 <= i < |x.members| ==> y.members[i] == x.members[i].(ready := false))
  {
  }

  // ---- Work ----

  /** A callback queues a wanted key at once, unless the last one did so less than a poll interval ago, when it
      is put off. */
  lemma DemandByFields(s: Slice, now: int, opts: Options, present: bool)
    ensures
      var t := s.EnqueueDemand(now, opts, present);
      if !Wanted(s, now, present) then t == s
      else if s.demandNext.Some? && now < s.demandNext.value then t == s.(delayed := s.delayed + 1)
      else t == s.(demandNext := Some(now + opts.pollInterval), dirty := true)
  {
  }
}

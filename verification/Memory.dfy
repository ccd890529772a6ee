/**
  How long the observer remembers a claim to be primary, over whole runs of the protocol. Besides
  the collections that weigh a claim, metadata handlers and vanished Clusters clear the evidence;
  their condition is exact, and while one incarnation of the Cluster lasts it never holds.
 */
module Memory {
  import opened Keys
  import opened Api
  import opened Metadata
  import opened Topology
  import opened Evidence
  import opened Slices
  import opened Informers
  import opened Protocol
  import P = Protocol

  predicate Gone(latest: Option<Cluster>) {
    latest.None? || !latest.value.Active()
  }

  /** The claims of one incarnation, which may be none. */
  predicate BookOf(claims: Option<Claims>, uid: string) {
    claims.Some? && claims.value.clusterUID == uid
  }

  /** The step drops the book of `uid` without weighing its claims: a Cluster event of a disabled
      Cluster or of another incarnation than the record's, a deletion that is not ignored, an
      observation that finds the Cluster gone, or a collection of another incarnation. */
  ghost predicate Forgets(w: World, a: Action, uid: string) {
    && Possible(w, a)
    && match a
       case HandleCluster(read, _) =>
         var was, cluster := w.clusters[w.handled], w.clusters[w.handled + 1];
         if cluster.Some? then !cluster.value.Active() || w.slice.Unknown(cluster.value)
         else was.Some? && !(w.clusters[read].Some? && w.clusters[read].value.uid != was.value.uid)
       case StartObservation(read) => Gone(w.clusters[read])
       case Publish(o, read, _, _, _, _) =>
         Gone(w.clusters[read]) || (o.observed.uid == w.clusters[read].value.uid && o.observed.uid != uid)
       case _ => false
  }

  /** The collection that a publication records. */
  function Recording(w: World, a: Action): Collection
    requires a.Publish? && a.read < |w.clusters| && w.clusters[a.read].Some?
  {
    Collection(a.o.observed, w.clusters[a.read].value, a.o.probed, a.list, a.o.results)
  }

  ghost predicate Collects(w: World, a: Action, uid: string) {
    && a.Publish? && Possible(w, a) && !Gone(w.clusters[a.read])
    && a.o.observed.uid == w.clusters[a.read].value.uid == uid && Recording(w, a).WellFormed()
  }

  lemma PublishRecords(s: Slice, o: Observation, latest: Option<Cluster>, pods: seq<Pod>, caCurrent: bool, now: int,
                       opts: Options, late: bool, present: bool)
    requires |o.results| == |o.probed|
    ensures s.Publish(o, latest, pods, caCurrent, now, opts, late, present).claims ==
            if Gone(latest) then None else s.Recorded(o, latest.value, pods).claims
  {
  }

  lemma ClusterEventForgets(s: Slice, was: Option<Cluster>, cluster: Cluster, now: int, opts: Options, late: bool,
                            present: bool)
    ensures s.ClusterEvent(was, cluster, now, opts, late, present).claims ==
            if !cluster.Active() || s.Unknown(cluster) then None else s.claims
  {
  }

  lemma PodEventRemembers(s: Slice, key: ClusterKey, was: Option<Pod>, pod: Option<Pod>, cluster: Option<Cluster>,
                          now: int, opts: Options, late: bool, present: bool)
    ensures s.PodEvent(key, was, pod, cluster, now, opts, late, present).claims == s.claims
  {
  }

  lemma HandledClusterClaims(w: World, read: nat, late: bool)
    requires w.handled + 1 < |w.clusters| && read < |w.clusters|
    ensures var was, cluster := w.clusters[w.handled], w.clusters[w.handled + 1];
            HandledCluster(w, read, late).slice.claims ==
            if cluster.Some? then (if !cluster.value.Active() || w.slice.Unknown(cluster.value) then None
                else w.slice.claims)
            else if was.Some? && !(w.clusters[read].Some? && w.clusters[read].value.uid != was.value.uid) then None
            else w.slice.claims
  {
    var was, cluster := w.clusters[w.handled], w.clusters[w.handled + 1];
    if cluster.Some? {
      ClusterEventForgets(w.slice, was, cluster.value, w.now, w.opts, late, Present(w));
    }
  }

  lemma HandledPodClaims(w: World, read: nat, late: bool, j: nat, name: string)
    requires j == w.podsHandled < |w.podNames| && w.podNames[j] == name && j + 1 < |w.pods| && read < |w.clusters|
    ensures HandledPod(w, read, late).slice.claims == w.slice.claims
  {
    PodEventRemembers(w.slice, w.key, At(w.pods[j], name), At(w.pods[j + 1], name), w.clusters[read], w.now, w.opts,
        late, Present(w));
  }

  lemma PublishedClaims(w: World, a: Action, uid: string)
    requires a.Publish? && Possible(w, a) && BookOf(w.slice.claims, uid)
    ensures var after := PublishedBy(w, a.o, a.read, a.podsRead, a.list, a.caCurrent, a.late).slice.claims;
            if Gone(w.clusters[a.read]) then after == None
            else if a.o.observed.uid != w.clusters[a.read].value.uid then after == w.slice.claims
            else Recording(w, a).WellFormed() && after == Some(Collected(w.slice.claims, Recording(w, a)))
  {
    PublishRecords(w.slice, a.o, w.clusters[a.read], a.list, a.caCurrent, w.now, w.opts, a.late, Present(w));
  }

  lemma SecretEventRemembers(s: Slice, cluster: Cluster, now: int, opts: Options, late: bool, present: bool)
    ensures s.SecretEvent(cluster, now, opts, late, present).claims == s.claims
  {
  }

  lemma OtherClaims(w: World, a: Action)
    requires !a.HandleCluster? && !a.HandlePod? && !a.Publish?
    ensures Next(w, a).slice.claims == if a.StartObservation? && Possible(w, a) && Gone(w.clusters[a.read]) then None
            else w.slice.claims
  {
    if a.HandleSecret? && Possible(w, a) {
      SecretEventRemembers(w.slice, w.clusters[a.read].value, w.now, w.opts, a.late, Present(w));
    }
  }

  /** A step weighs the claims, forgets the book, or keeps it. */
  ghost predicate Accounted(w: World, a: Action, uid: string, after: Option<Claims>) {
    && (Forgets(w, a, uid) <==> !BookOf(after, uid))
    && (!Forgets(w, a, uid) ==>
          if Collects(w, a, uid) then after == Some(Collected(w.slice.claims, Recording(w, a)))
              else after == w.slice.claims)
  }

  lemma PublishIsAccounted(w: World, a: Action, uid: string)
    requires BookOf(w.slice.claims, uid) && a.Publish? && Possible(w, a)
    ensures Accounted(w, a, uid, PublishedBy(w, a.o, a.read, a.podsRead, a.list, a.caCurrent, a.late).slice.claims)
  {
    PublishedClaims(w, a, uid);
  }

  lemma ClusterEventIsAccounted(w: World, a: Action, uid: string)
    requires BookOf(w.slice.claims, uid) && a.HandleCluster? && Possible(w, a)
    ensures Accounted(w, a, uid, HandledCluster(w, a.read, a.late).slice.claims)
  {
    HandledClusterClaims(w, a.read, a.late);
  }

  lemma PodEventIsAccounted(w: World, a: Action, uid: string)
    requires BookOf(w.slice.claims, uid) && a.HandlePod? && Possible(w, a)
    ensures Accounted(w, a, uid, HandledPod(w, a.read, a.late).slice.claims)
  {
    HandledPodClaims(w, a.read, a.late, w.podsHandled, w.podNames[w.podsHandled]);
  }

  /** Every step accounts for the evidence, and the condition for forgetting it is exact. */
  lemma StepClaims(w: World, a: Action, uid: string)
    requires BookOf(w.slice.claims, uid)
    ensures Accounted(w, a, uid, Next(w, a).slice.claims)
  {
    if !a.HandleCluster? && !a.HandlePod? && !a.Publish? {
      OtherClaims(w, a);
    } else if Possible(w, a) {
      if a.Publish? {
        PublishIsAccounted(w, a, uid);
      } else if a.HandlePod? {
        PodEventIsAccounted(w, a, uid);
      } else {
        ClusterEventIsAccounted(w, a, uid);
      }
    }
  }

  /** A claim that a step does not forget leaves only by being released. */
  lemma ClaimIsReleased(w: World, a: Action, uid: string, name: string)
    requires BookOf(w.slice.claims, uid) && name in w.slice.claims.value.members && !Forgets(w, a, uid)
    requires name !in Carried(Next(w, a).slice.claims, uid)
    ensures Collects(w, a, uid) && Released(w.slice.claims.value.members, Recording(w, a), name)
  {
    StepClaims(w, a, uid);
    StepReleases(w.slice.claims, Recording(w, a), name);
  }

  // ---- Runs ----

  /** No step of the run forgets the book. */
  ghost predicate Remembers(w: World, actions: seq<Action>, uid: string)
    decreases actions
  {
    actions == [] || (!Forgets(w, actions[0], uid) && Remembers(Next(w, actions[0]), actions[1..], uid))
  }

  /** Over every run that does not forget it, a claim that is gone was released by one of the
      collections. */
  lemma {:induction false} ClaimsPersist(w: World, actions: seq<Action>, uid: string, name: string) returns (k: nat)
    requires BookOf(w.slice.claims, uid) && name in w.slice.claims.value.members && Remembers(w, actions, uid)
    requires name !in Carried(P.Run(w, actions).slice.claims, uid)
    ensures k < |actions|
    ensures var v := P.Run(w, actions[..k]);
            && BookOf(v.slice.claims, uid) && name in v.slice.claims.value.members
            && Collects(v, actions[k], uid) && Released(v.slice.claims.value.members, Recording(v, actions[k]), name)
    decreases actions
  {
    var v := Next(w, actions[0]);
    StepClaims(w, actions[0], uid);
    if name in v.slice.claims.value.members {
      var j := ClaimsPersist(v, actions[1..], uid, name);
      k := j + 1;
      assert actions[..k][1..] == actions[1..][..j];
    } else {
      ClaimIsReleased(w, actions[0], uid, name);
      k := 0;
      assert actions[..0] == [];
    }
  }

  // ---- One incarnation ----

  ghost predicate Lasts(h: Clusters, from: nat, uid: string) {
    forall i :: from <= i < |h| ==> h[i].Some? && h[i].value.Active() && h[i].value.uid == uid
  }

  /** Every content from the last handled one on is the enabled Cluster of that UID, and so is the
      record. */
  ghost predicate Incarnate(w: World, uid: string) {
    && Positions(w) && Lasts(w.clusters, w.handled, uid)
    && w.slice.record.Some? && w.slice.record.value.cluster.uid == uid
  }

  lemma IncarnateRemembers(w: World, a: Action, uid: string)
    requires Incarnate(w, uid)
    ensures !Forgets(w, a, uid)
  {
  }

  predicate RecordOf(record: Option<Snapshot>, uid: string) {
    record.Some? && record.value.cluster.uid == uid
  }

  lemma ClusterEventKeepsRecord(s: Slice, was: Option<Cluster>, cluster: Cluster, now: int, opts: Options, late: bool,
                                present: bool)
    requires cluster.Active() && RecordOf(s.record, cluster.uid)
    ensures RecordOf(s.ClusterEvent(was, cluster, now, opts, late, present).record, cluster.uid)
  {
  }

  lemma PodEventKeepsRecord(s: Slice, key: ClusterKey, was: Option<Pod>, pod: Option<Pod>, cluster: Cluster, now: int,
                            opts: Options, late: bool, present: bool)
    requires RecordOf(s.record, cluster.uid)
    ensures RecordOf(s.PodEvent(key, was, pod, Some(cluster), now, opts, late, present).record, cluster.uid)
  {
  }

  lemma PublishKeepsRecord(s: Slice, o: Observation, c: Cluster, pods: seq<Pod>, caCurrent: bool, now: int,
                           opts: Options, late: bool, present: bool)
    requires RecordOf(s.record, c.uid) && c.Active() && |o.results| == |o.probed|
    ensures RecordOf(s.Publish(o, Some(c), pods, caCurrent, now, opts, late, present).record, c.uid)
  {
    if PublishesVerified(o, Some(c), caCurrent) {
      assert s.Recorded(o, c, pods).Verified(o, c, pods, opts).cluster == c.Ref();
    }
  }

  lemma HandledClusterKeepsRecord(w: World, read: nat, late: bool, uid: string)
    requires Incarnate(w, uid) && w.handled + 1 < |w.clusters| && read < |w.clusters|
    ensures RecordOf(HandledCluster(w, read, late).slice.record, uid)
  {
    ClusterEventKeepsRecord(w.slice, w.clusters[w.handled], w.clusters[w.handled + 1].value, w.now, w.opts, late,
        Present(w));
  }

  lemma HandledPodKeepsRecord(w: World, read: nat, late: bool, c: Cluster, j: nat, name: string)
    requires j == w.podsHandled < |w.podNames| && w.podNames[j] == name && j + 1 < |w.pods|
    requires read < |w.clusters| && w.clusters[read] == Some(c) && RecordOf(w.slice.record, c.uid)
    ensures RecordOf(HandledPod(w, read, late).slice.record, c.uid)
  {
    PodEventKeepsRecord(w.slice, w.key, At(w.pods[j], name), At(w.pods[j + 1], name), c, w.now, w.opts, late,
        Present(w));
  }

  lemma SectionKeepsRecord(w: World, a: Action, uid: string)
    requires Incarnate(w, uid) && Possible(w, a) && (a.HandleCluster? || a.HandlePod? || a.Publish?)
    ensures RecordOf(Next(w, a).slice.record, uid)
  {
    match a
    case HandleCluster(read, late) => HandledClusterKeepsRecord(w, read, late, uid);
    case HandlePod(read, late) => HandledPodKeepsRecord(w, read, late, w.clusters[read].value, w.podsHandled,
        w.podNames[w.podsHandled]);
    case Publish(o, read, _, list, caCurrent, late) =>
      PublishKeepsRecord(w.slice, o, w.clusters[read].value, list, caCurrent, w.now, w.opts, late, Present(w));
  }

  lemma SecretEventKeepsRecord(s: Slice, cluster: Cluster, now: int, opts: Options, late: bool, present: bool)
    requires RecordOf(s.record, cluster.uid)
    ensures RecordOf(s.SecretEvent(cluster, now, opts, late, present).record, cluster.uid)
  {
  }

  lemma FailureKeepsRecord(s: Slice, cancelled: bool, c: Cluster, reason: string, now: int, opts: Options, late: bool)
    requires RecordOf(s.record, c.uid) && c.Active()
    ensures RecordOf(s.PublishFailure(cancelled, Some(c), reason, now, opts, late).record, c.uid)
  {
  }

  lemma OtherKeepsRecord(w: World, a: Action, uid: string)
    requires Incarnate(w, uid) && !a.HandleCluster? && !a.HandlePod? && !a.Publish?
    ensures RecordOf(Next(w, a).slice.record, uid)
  {
    if Possible(w, a) {
      match a
      case HandleSecret(read, late) =>
        SecretEventKeepsRecord(w.slice, w.clusters[read].value, w.now, w.opts, late, Present(w));
      case Fail(cancelled, reason, read, late) =>
        FailureKeepsRecord(w.slice, cancelled, w.clusters[read].value, reason, w.now, w.opts, late);
      case _ =>
    }
  }

  ghost predicate SameIncarnation(a: Action, uid: string) {
    a.ClusterChanges? ==> a.cluster.Some? && a.cluster.value.Active() && a.cluster.value.uid == uid
  }

  lemma StepKeepsContents(w: World, a: Action, uid: string)
    requires Positions(w) && Lasts(w.clusters, w.handled, uid) && SameIncarnation(a, uid)
    ensures Lasts(Next(w, a).clusters, Next(w, a).handled, uid)
  {
  }

  lemma StepKeepsIncarnate(w: World, a: Action, uid: string)
    requires Incarnate(w, uid) && SameIncarnation(a, uid)
    ensures Incarnate(Next(w, a), uid)
  {
    StepKeepsPositions(w, a);
    StepKeepsContents(w, a, uid);
    if (a.HandleCluster? || a.HandlePod? || a.Publish?) && Possible(w, a) {
      SectionKeepsRecord(w, a, uid);
    } else if !a.HandleCluster? && !a.HandlePod? && !a.Publish? {
      OtherKeepsRecord(w, a, uid);
    }
  }

  lemma {:induction false} IncarnationRemembers(w: World, actions: seq<Action>, uid: string)
    requires Incarnate(w, uid) && forall i :: 0 <= i < |actions| ==> SameIncarnation(actions[i], uid)
    ensures Remembers(w, actions, uid)
    decreases actions
  {
    if actions != [] {
      IncarnateRemembers(w, actions[0], uid);
      StepKeepsIncarnate(w, actions[0], uid);
      IncarnationRemembers(Next(w, actions[0]), actions[1..], uid);
    }
  }

  /** While one incarnation of the Cluster lasts, whatever fences, primaries, failed probes and
      vanished pods come and go, a claim leaves only by a collection that released it. */
  lemma ClaimsPersistThroughout(w: World, actions: seq<Action>, uid: string, name: string) returns (k: nat)
    requires Incarnate(w, uid) && forall i :: 0 <= i < |actions| ==> SameIncarnation(actions[i], uid)
    requires BookOf(w.slice.claims, uid) && name in w.slice.claims.value.members
    requires name !in Carried(P.Run(w, actions).slice.claims, uid)
    ensures k < |actions|
    ensures var v := P.Run(w, actions[..k]);
            && BookOf(v.slice.claims, uid) && name in v.slice.claims.value.members
            && Collects(v, actions[k], uid) && Released(v.slice.claims.value.members, Recording(v, actions[k]), name)
  {
    IncarnationRemembers(w, actions, uid);
    k := ClaimsPersist(w, actions, uid, name);
  }
}

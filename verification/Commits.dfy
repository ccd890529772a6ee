/** What an observation commits, and what it has verified when it does. */
module Commits {
  import opened Keys
  import opened Api
  import opened Metadata
  import opened Topology
  import opened Classification
  import opened Evidence
  import opened Slices

  lemma LateIsWithdrawn(x: Snapshot, late: bool)
    ensures Committed(x, late).value.available ==> !late && x.available
    ensures !late ==> Committed(x, late).value == x.(apiVersion := API_VERSION)
  {
  }

  /** A ready member is backed by a usable probe of the same pod as it is now: same instance, container,
      address, node and owners. */
  ghost predicate Backed(o: Observation, pod: Pod) {
    exists j :: 0 <= j < |o.probed| && j < |o.results| && PodAlike(o.probed[j], pod)
                && !o.results[j].failed && o.results[j].status.isPrimary.Some?
  }

  /** A result counts for a pod exactly if it is of the same pod as it is now; otherwise the pod counts as not
      answering. */
  lemma {:induction false} MappedIs(probed: seq<Pod>, results: seq<Probe>, pod: Pod)
    requires |results| == |probed|
    requires forall i, j :: 0 <= i < j < |probed| ==> probed[i].name != probed[j].name
    ensures var r := MappedResult(probed, results, pod);
            && (forall j :: 0 <= j < |probed| && PodAlike(probed[j], pod) ==> r == results[j])
            && ((forall j :: 0 <= j < |probed| ==> !PodAlike(probed[j], pod)) ==> r.failed)
  {
    FindsProbed(probed, pod.name);
    forall j | 0 <= j < |probed|
      ensures SamePodRoute(probed[j], pod) <==> PodAlike(probed[j], pod)
    {
      PodRouteIff(probed[j], pod);
    }
  }

  lemma {:induction false} FindsProbed(probed: seq<Pod>, name: string)
    requires forall i, j :: 0 <= i < j < |probed| ==> probed[i].name != probed[j].name
    ensures forall j :: 0 <= j < |probed| && probed[j].name == name ==> ProbedIndex(probed, name) == j
    decreases |probed|
  {
    if probed != [] {
      FindsProbed(probed[..|probed| - 1], name);
    }
  }

  lemma MappedIsBacked(o: Observation, pod: Pod)
    requires |o.results| == |o.probed|
    ensures var r := MappedResult(o.probed, o.results, pod);
            !r.failed && r.status.isPrimary.Some? ==> Backed(o, pod)
  {
    var j := ProbedIndex(o.probed, pod.name);
    if j >= 0 {
      PodRouteIff(o.probed[j], pod);
    }
  }

  /** The member publishes this pod, at the addresses and server names that the Cluster's parameters
      give it. */
  ghost predicate Describes(m: Member, pod: Pod, cluster: Cluster) {
    && m.id == pod.uid && m.name == pod.name && m.node == pod.nodeName
    && cluster.params.Some? && AddressedBy(m.endpoints, pod, cluster, cluster.params.value)
  }

  ghost predicate MemberBacked(o: Observation, m: Member, pod: Pod, cluster: Cluster) {
    && Describes(m, pod, cluster)
    && (m.ready ==> Serving(pod) && NotFenced(cluster.fencing, pod.name) && Backed(o, pod))
  }

  /** The facts that hold, at the commit point, of an available snapshot an observation commits: the Cluster
      is as it was observed, the current and target primary leads alone, no recorded claim challenges it, and
      the connection is that of the Cluster and the retained CA. */
  ghost predicate SoundCommit(s: Slice, o: Observation, latest: Cluster, pods: seq<Pod>, caCurrent: bool,
                              snapshot: Snapshot)
    requires |o.results| == |o.probed|
  {
    && latest.enabled && !o.cancelled && o.ready && caCurrent && ClusterAlike(o.observed, latest) && latest.params.Some?
    && Unchallenged(s, o, latest, pods)
    && snapshot.cluster == latest.Ref() && |snapshot.members| == |pods|
    && snapshot.connection.database == latest.database && snapshot.connection.serverCAPEM == o.ca.public
    && (exists p: nat :: LeadsAlone(latest, pods, Mapped(o.probed, o.results, pods), p)
                         && snapshot.primaryID == pods[p].uid && snapshot.members[p].ready)
    && (forall i :: 0 <= i < |pods| ==> MemberBacked(o, snapshot.members[i], pods[i], latest))
  }

  /** The annotation is not malformed, and every claim recorded for this Cluster is by the current primary or
      fenced off. */
  ghost predicate Unchallenged(s: Slice, o: Observation, latest: Cluster, pods: seq<Pod>)
    requires |o.results| == |o.probed|
  {
    var claims := s.Recorded(o, latest, pods).claims;
    !latest.fencing.Malformed? && (claims.Some? ==> !Challenged(claims.value, latest))
  }

  lemma ConflictMeansChallenged(s: Slice, o: Observation, latest: Cluster, pods: seq<Pod>)
    requires |o.results| == |o.probed| && o.observed.uid == latest.uid
    ensures s.Recorded(o, latest, pods).Conflict(o, latest) <==> !Unchallenged(s, o, latest, pods)
  {
    ConflictIff(s.Recorded(o, latest, pods).claims.value, latest);
  }

  /** Whatever an observation leaves available was either there before or verified by it against the
      current route, CA, pods and evidence, with its context live and the watches healthy. */
  lemma PublishIsSound(s: Slice, o: Observation, latest: Option<Cluster>, pods: seq<Pod>, caCurrent: bool, now: int,
                       opts: Options, late: bool, present: bool)
    requires |o.results| == |o.probed|
    ensures
      var t := s.Publish(o, latest, pods, caCurrent, now, opts, late, present);
      t.record.Some? && t.record.value.available ==>
        || (t.record == s.record && !PublishesVerified(o, latest, caCurrent))
        || (latest.Some? && SoundCommit(s, o, latest.value, pods, caCurrent, t.record.value))
  {
    var t := s.Publish(o, latest, pods, caCurrent, now, opts, late, present);
    if PublishesVerified(o, latest, caCurrent) && t.record.value.available {
      var c, r := latest.value, s.Recorded(o, latest.value, pods);
      var built := Built(c, pods, Mapped(o.probed, o.results, pods), o.Params(), o.started, opts.ttl);
      LateIsWithdrawn(r.Verified(o, c, pods, opts), late);
      assert t.record.value == built.(connection := o.Defaults(), apiVersion := API_VERSION);
      BuiltIsBacked(o, c, pods, opts);
      ConflictMeansChallenged(s, o, c, pods);
      ClusterRouteIff(o.observed, c);
    }
  }

  /** In time, what a verified observation commits is available exactly if no recorded claim challenges the
      current primary and that primary leads alone; so a rogue primary that is fenced off does not withdraw
      the Cluster. */
  lemma PublishedIsAvailableIff(s: Slice, o: Observation, latest: Cluster, pods: seq<Pod>, now: int, opts: Options,
                                present: bool)
    requires |o.results| == |o.probed| && latest.Active() && !o.cancelled && o.ready
    requires ClusterAlike(o.observed, latest) && latest.params.Some?
    ensures var t := s.Publish(o, Some(latest), pods, true, now, opts, false, present);
            && t.record.Some?
            && (t.record.value.available <==>
                  && Unchallenged(s, o, latest, pods)
                  && exists p: nat :: LeadsAlone(latest, pods, Mapped(o.probed, o.results, pods), p))
            && t.record.value.observedAt == o.started && t.record.value.validUntil == o.started + opts.ttl
  {
    ClusterRouteIff(o.observed, latest);
    ConflictMeansChallenged(s, o, latest, pods);
    AvailableByFields(latest, pods, Mapped(o.probed, o.results, pods), o.Params(), o.started, opts.ttl);
    SnapshotByFields(latest, pods, Mapped(o.probed, o.results, pods), o.Params(), o.started, opts.ttl);
    LateIsWithdrawn(s.Recorded(o, latest, pods).Verified(o, latest, pods, opts), false);
  }

  lemma BuiltIsBacked(o: Observation, c: Cluster, pods: seq<Pod>, opts: Options)
    requires |o.results| == |o.probed| && SameClusterRoute(o.observed, c)
    requires Built(c, pods, Mapped(o.probed, o.results, pods), o.Params(), o.started, opts.ttl).available
    ensures
      var s := Built(c, pods, Mapped(o.probed, o.results, pods), o.Params(), o.started, opts.ttl);
      && s.cluster == c.Ref() && |s.members| == |pods|
      && (exists p: nat :: LeadsAlone(c, pods, Mapped(o.probed, o.results, pods), p) && s.primaryID == pods[p].uid
                      && s.members[p].ready)
      && (forall i :: 0 <= i < |pods| ==> MemberBacked(o, s.members[i], pods[i], c))
  {
    var results := Mapped(o.probed, o.results, pods);
    AvailableIff(c, pods, results, o.Params(), o.started, opts.ttl);
    var p: nat :| IsPrimary(c, pods, results, p);
    AvailableForm(c, pods, results, o.Params(), o.started, opts.ttl, p);
    LeadsAloneIff(c, pods, results, p);
    forall i | 0 <= i < |pods|
      ensures MemberBacked(o, FinalMember(c, pods, results, o.Params(), p, i), pods[i], c)
    {
      FinalIsBacked(o, c, pods, p, i);
    }
    FinalIsBacked(o, c, pods, p, p);
  }

  lemma FinalIsBacked(o: Observation, c: Cluster, pods: seq<Pod>, p: nat, i: nat)
    requires |o.results| == |o.probed| && SameClusterRoute(o.observed, c) && i < |pods|
    requires IsPrimary(c, pods, Mapped(o.probed, o.results, pods), p)
    ensures var m := FinalMember(c, pods, Mapped(o.probed, o.results, pods), o.Params(), p, i);
            MemberBacked(o, m, pods[i], c) && (i == p ==> m.ready)
  {
    var results := Mapped(o.probed, o.results, pods);
    ReadyIff(c, pods, results, o.Params(), p, i);
    MappedIsBacked(o, pods[i]);
    FinalByFields(c, pods, results, o.Params(), p, i);
    EligibleIff(c, pods[i], results[i]);
  }

  /** While a recorded claim is neither expected nor fenced, an observation of that Cluster commits
      nothing available. */
  lemma ConflictBlocksAvailability(s: Slice, o: Observation, latest: Cluster, pods: seq<Pod>, caCurrent: bool, now: int,
                                   opts: Options, late: bool, present: bool, name: string)
    requires |o.results| == |o.probed| && PublishesVerified(o, Some(latest), caCurrent)
    requires var claims := s.Recorded(o, latest, pods).claims.value;
             && name in claims.members && name != latest.currentPrimary
             && !FencedOff(latest.fencing, name)
    ensures var t := s.Publish(o, Some(latest), pods, caCurrent, now, opts, late, present);
            t.record.Some? && Withdrawn(t.record.value)
  {
    var r := s.Recorded(o, latest, pods);
    ConflictMeansChallenged(s, o, latest, pods);
    assert r.Conflict(o, latest);
    var verified := r.Verified(o, latest, pods, opts);
    assert Withdrawn(verified);
  }

  /** A superseded collection publishes nothing, though it still records evidence: the record stays,
      or goes because its Cluster is gone. */
  lemma SupersededPublishesNothing(s: Slice, o: Observation, latest: Option<Cluster>, pods: seq<Pod>, caCurrent: bool,
                                   now: int, opts: Options, late: bool, present: bool)
    requires |o.results| == |o.probed| && o.cancelled
    ensures s.Publish(o, latest, pods, caCurrent, now, opts, late, present).record ==
            if latest.None? || !latest.value.Active() then None else s.record
  {
  }
}

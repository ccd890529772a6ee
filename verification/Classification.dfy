/**
  What a snapshot says, field by field, without the passes that compute it: when it is available, who
  is ready, and what is published of each member and why.
 */
module Classification {
  import opened Keys
  import opened Api
  import opened Metadata
  import opened Topology

  // ---- Availability and readiness ----

  /** The annotation parses, or is absent, and does not fence the pod. */
  predicate NotFenced(f: Fencing, pod: string) {
    f.Unfenced? || (f.Fenced? && "*" !in f.names && pod !in f.names)
  }

  /** The pod may take part in routing: not fenced, serving, and it answered with a usable status. */
  ghost predicate MayServe(cluster: Cluster, pod: Pod, r: Probe) {
    && NotFenced(cluster.fencing, pod.name) && Serving(pod)
    && !r.failed && r.status.isPrimary.Some? && !r.status.unavailable && !r.status.rewinding
  }

  lemma EligibleIff(cluster: Cluster, pod: Pod, r: Probe)
    requires FencedNames(cluster.fencing).Some?
    ensures Eligible(FencedNames(cluster.fencing).value, pod, r) <==> MayServe(cluster, pod, r)
  {
    PodReadyIff(pod);
  }

  ghost predicate ClaimsPrimary(cluster: Cluster, pods: seq<Pod>, results: seq<Probe>, i: nat)
    requires |results| == |pods| && i < |pods|
  {
    MayServe(cluster, pods[i], results[i]) && results[i].status.isPrimary.value
  }

  /** The one pod that may serve and claims to be primary is the current and target primary. */
  ghost predicate LeadsAlone(cluster: Cluster, pods: seq<Pod>, results: seq<Probe>, p: nat)
    requires |results| == |pods|
  {
    && p < |pods| && pods[p].name == cluster.currentPrimary == cluster.targetPrimary != ""
    && ClaimsPrimary(cluster, pods, results, p)
    && (forall i :: 0 <= i < |pods| && i != p ==> !ClaimsPrimary(cluster, pods, results, i))
  }

  lemma LeadsAloneIff(cluster: Cluster, pods: seq<Pod>, results: seq<Probe>, p: nat)
    requires |results| == |pods|
    ensures LeadsAlone(cluster, pods, results, p) <==> IsPrimary(cluster, pods, results, p)
  {
    if FencedNames(cluster.fencing).Some? {
      forall i | 0 <= i < |pods|
        ensures Claims(FencedNames(cluster.fencing).value, pods[i], results[i]) <==>
                  ClaimsPrimary(cluster, pods, results, i)
      {
        EligibleIff(cluster, pods[i], results[i]);
      }
    }
  }

  /** Available exactly if some pod leads alone, and then that pod is the published primary. */
  lemma AvailableByFields(cluster: Cluster, pods: seq<Pod>, results: seq<Probe>, params: Parameters, at: int, ttl: int)
    requires |results| == |pods|
    ensures var s := Built(cluster, pods, results, params, at, ttl);
            && (s.available <==> exists p: nat :: LeadsAlone(cluster, pods, results, p))
            && (forall p: nat :: LeadsAlone(cluster, pods, results, p) ==> s.primaryID == pods[p].uid)
            && (!s.available ==> s.primaryID == "")
  {
    forall p: nat
      ensures LeadsAlone(cluster, pods, results, p) <==> IsPrimary(cluster, pods, results, p)
    {
      LeadsAloneIff(cluster, pods, results, p);
    }
    AvailableIff(cluster, pods, results, params, at, ttl);
    forall p: nat | LeadsAlone(cluster, pods, results, p)
      ensures Built(cluster, pods, results, params, at, ttl).primaryID == pods[p].uid
    {
      AvailableForm(cluster, pods, results, params, at, ttl, p);
    }
    UnavailableIsWithdrawn(cluster, pods, results, params, at, ttl);
  }

  /** Row `r` is the only one that names the instance, and it streams with a known sync state. */
  predicate SoleStream(rows: seq<Replication>, name: string, r: nat) {
    && r < |rows| && rows[r].applicationName == name && rows[r].state == "streaming"
    && (rows[r].syncState == "sync" || rows[r].syncState == "quorum" || rows[r].syncState == "potential"
        || rows[r].syncState == "async")
    && (forall i :: 0 <= i < |rows| && i != r ==> rows[i].applicationName != name)
  }

  lemma {:induction false} MatchingNone(rows: seq<Replication>, name: string)
    ensures Matching(rows, name) == [] <==> forall i :: 0 <= i < |rows| ==> rows[i].applicationName != name
    decreases |rows|
  {
    if rows != [] {
      MatchingNone(rows[..|rows| - 1], name);
    }
  }

  predicate SoleRow(rows: seq<Replication>, name: string, r: nat) {
    r < |rows| && rows[r].applicationName == name && forall i :: 0 <= i < |rows| && i != r ==>
          rows[i].applicationName != name
  }

  lemma {:induction false} MatchingOne(rows: seq<Replication>, name: string)
    ensures |Matching(rows, name)| == 1 <==> exists r: nat :: SoleRow(rows, name, r)
    ensures forall r: nat :: SoleRow(rows, name, r) ==> Matching(rows, name) == [rows[r]]
    decreases |rows|
  {
    if rows != [] {
      var n := |rows| - 1;
      var front := rows[..n];
      MatchingOne(front, name);
      MatchingNone(front, name);
      if rows[n].applicationName == name {
        if Matching(front, name) == [] {
          assert SoleRow(rows, name, n);
        }
        forall r: nat | SoleRow(rows, name, r)
          ensures r == n && Matching(front, name) == []
        {
          assert forall i :: 0 <= i < n ==> front[i] == rows[i];
        }
      } else {
        forall r: nat
          ensures SoleRow(rows, name, r) <==> SoleRow(front, name, r)
        {
          assert forall i :: 0 <= i < n ==> front[i] == rows[i];
        }
      }
    }
  }

  lemma StreamsIff(rows: seq<Replication>, name: string)
    ensures Streams(rows, name) <==> exists r: nat :: SoleStream(rows, name, r)
    ensures forall r: nat :: SoleStream(rows, name, r) ==> Matching(rows, name) == [rows[r]]
  {
    MatchingOne(rows, name);
    forall r: nat | SoleStream(rows, name, r)
      ensures Matching(rows, name) == [rows[r]] && Streams(rows, name)
    {
      assert SoleRow(rows, name, r);
    }
    if Streams(rows, name) {
      var r: nat :| SoleRow(rows, name, r);
      assert SoleStream(rows, name, r);
    }
  }

  /** The standby replays what it receives from the primary, which knows it as one streaming sender. */
  ghost predicate Follows(cluster: Cluster, primary: Status, pod: Pod, r: Probe) {
    && MayServe(cluster, pod, r) && !r.status.isPrimary.value && !r.status.replayPaused && r.status.walReceiverActive
    && r.status.systemID == primary.systemID
    && exists row: nat :: SoleStream(primary.replication, pod.name, row)
  }

  /** In an available snapshot, exactly the primary and the standbys that follow it are ready; a standby
      that does carries the sync state of its sender row. */
  lemma ReadyByFields(cluster: Cluster, pods: seq<Pod>, results: seq<Probe>, params: Parameters, at: int, ttl: int,
                      p: nat, i: nat)
    requires |results| == |pods| && LeadsAlone(cluster, pods, results, p) && i < |pods|
    ensures var s := Built(cluster, pods, results, params, at, ttl);
            && |s.members| == |pods|
            && (s.members[i].ready <==> i == p || Follows(cluster, results[p].status, pods[i], results[i]))
            && (forall row: nat :: i != p && s.members[i].ready
                                   && SoleStream(results[p].status.replication, pods[i].name, row) ==>
                  s.members[i].syncState == results[p].status.replication[row].syncState)
            && (s.members[i].reason == "" <==> s.members[i].ready)
  {
    LeadsAloneIff(cluster, pods, results, p);
    AvailableForm(cluster, pods, results, params, at, ttl, p);
    ReadyIff(cluster, pods, results, params, p, i);
    LabelsIff(cluster, pods, results, params, p, i);
    EligibleIff(cluster, pods[i], results[i]);
    StreamsIff(results[p].status.replication, pods[i].name);
  }

  // ---- What is published of a member ----

  /** The server name that clients verify unless an endpoint has its own. */
  predicate IsDefaultName(name: string, cluster: Cluster, params: Parameters) {
    if params.serverName != "" then name == params.serverName
    else name == cluster.name + "-rw." + cluster.namespace + ".svc"
  }

  /** The addresses of a pod: its own, if it has one, and the one that the parameters list for it. */
  ghost predicate AddressedBy(e: map<string, Endpoint>, pod: Pod, cluster: Cluster, params: Parameters) {
    && ("internal" in e <==> pod.podIP != "")
    && ("internal" in e ==>
          && e["internal"].host == pod.podIP && e["internal"].port == 5432
          && IsDefaultName(e["internal"].serverName, cluster, params))
    && ("external" in e <==> pod.name in params.externalEndpoints)
    && ("external" in e ==>
          var listed := params.externalEndpoints[pod.name];
          && e["external"].host == listed.host && e["external"].port == listed.port
          && if listed.serverName != "" then e["external"].serverName == listed.serverName
             else IsDefaultName(e["external"].serverName, cluster, params))
    && (forall network :: network in e ==> network == "internal" || network == "external")
  }

  lemma EndpointsAre(pod: Pod, cluster: Cluster, params: Parameters)
    ensures AddressedBy(Endpoints(pod, params, ServerName(cluster, params)), pod, cluster, params)
  {
  }

  predicate LabelIs(pod: Pod, key: string, value: string) {
    value == if key in pod.labels then pod.labels[key] else ""
  }

  /** What is published of a pod whatever its role: who and where it is, and what it reported if it may serve. */
  ghost predicate PublishedAs(m: Member, cluster: Cluster, params: Parameters, pod: Pod, r: Probe) {
    && m.id == pod.uid && m.name == pod.name && m.node == pod.nodeName
    && LabelIs(pod, "topology.kubernetes.io/zone", m.zone) && LabelIs(pod, "topology.kubernetes.io/region", m.region)
    && AddressedBy(m.endpoints, pod, cluster, params)
    && (if MayServe(cluster, pod, r)
        then m.timeline == r.status.timeline && m.replayLSN == r.status.replayLSN
             && m.role == (if r.status.isPrimary.value then "primary" else "standby")
        else m.timeline == 0 && m.replayLSN == "" && m.role == "unknown")
  }

  /** Why a member is not ready, before anything is known of the primary. */
  ghost predicate FirstReason(reason: string, cluster: Cluster, pod: Pod, r: Probe) {
    reason ==
      if !NotFenced(cluster.fencing, pod.name) then "fenced"
      else if !Serving(pod) then "pod_not_ready"
      else if r.failed || r.status.isPrimary.None? then "status_unavailable"
      else if r.status.unavailable || r.status.rewinding then "instance_unavailable"
      else if r.status.isPrimary.value then "primary_unverified"
      else if r.status.replayPaused then "replay_paused"
      else if !r.status.walReceiverActive then "wal_receiver_inactive"
      else "replication_unverified"
  }

  lemma FirstPassByFields(cluster: Cluster, params: Parameters, pod: Pod, r: Probe)
    requires FencedNames(cluster.fencing).Some?
    ensures var m := FirstPass(FencedNames(cluster.fencing).value, params, ServerName(cluster, params), pod, r);
            PublishedAs(m, cluster, params, pod, r) && FirstReason(m.reason, cluster, pod, r) && !m.ready
                && m.syncState == "unknown"
  {
    EligibleIff(cluster, pod, r);
    PodReadyIff(pod);
    EndpointsAre(pod, cluster, params);
  }

  /** Every member of a snapshot, available or not, if the annotation parses. */
  lemma MemberByFields(cluster: Cluster, pods: seq<Pod>, results: seq<Probe>, params: Parameters, at: int, ttl: int,
                       i: nat)
    requires |results| == |pods| && i < |pods| && (cluster.fencing.Unfenced? || cluster.fencing.Fenced?)
    ensures var s := Built(cluster, pods, results, params, at, ttl);
            && |s.members| == |pods| && PublishedAs(s.members[i], cluster, params, pods[i], results[i])
            && (!s.available ==> FirstReason(s.members[i].reason, cluster, pods[i], results[i]) && !s.members[i].ready)
            && (forall p: nat :: LeadsAlone(cluster, pods, results, p) && !s.members[i].ready ==>
                  if FirstReason("replication_unverified", cluster, pods[i], results[i])
                     && results[i].status.systemID != results[p].status.systemID
                  then s.members[i].reason == "database_identity_mismatch"
                  else FirstReason(s.members[i].reason, cluster, pods[i], results[i]))
  {
    FirstPassByFields(cluster, params, pods[i], results[i]);
    AvailableByFields(cluster, pods, results, params, at, ttl);
    if p: nat :| LeadsAlone(cluster, pods, results, p) {
      LeadsAloneIff(cluster, pods, results, p);
      AvailableForm(cluster, pods, results, params, at, ttl, p);
      OneLeads(cluster, pods, results, p);
      FinalByFields(cluster, pods, results, params, p, i);
    }
  }

  lemma OneLeads(cluster: Cluster, pods: seq<Pod>, results: seq<Probe>, p: nat)
    requires |results| == |pods| && LeadsAlone(cluster, pods, results, p)
    ensures forall q: nat :: LeadsAlone(cluster, pods, results, q) ==> q == p
  {
  }

  lemma FinalByFields(cluster: Cluster, pods: seq<Pod>, results: seq<Probe>, params: Parameters, p: nat, i: nat)
    requires |results| == |pods| && IsPrimary(cluster, pods, results, p) && i < |pods|
    ensures var m := FinalMember(cluster, pods, results, params, p, i);
            && PublishedAs(m, cluster, params, pods[i], results[i])
            && (!m.ready ==>
                  if FirstReason("replication_unverified", cluster, pods[i], results[i])
                     && results[i].status.systemID != results[p].status.systemID
                  then m.reason == "database_identity_mismatch"
                  else FirstReason(m.reason, cluster, pods[i], results[i]))
  {
    FirstPassByFields(cluster, params, pods[i], results[i]);
    EligibleIff(cluster, pods[i], results[i]);
  }

  // ---- The snapshot itself ----

  /** Two pods that may serve claim to be primary. */
  ghost predicate TwoClaim(cluster: Cluster, pods: seq<Pod>, results: seq<Probe>)
    requires |results| == |pods|
  {
    exists i, j :: 0 <= i < j < |pods| && ClaimsPrimary(cluster, pods, results, i)
        && ClaimsPrimary(cluster, pods, results, j)
  }

  /** Whose snapshot it is, how long it is valid, and why it is not available. */
  lemma SnapshotByFields(cluster: Cluster, pods: seq<Pod>, results: seq<Probe>, params: Parameters, at: int, ttl: int)
    requires |results| == |pods|
    ensures var s := Built(cluster, pods, results, params, at, ttl);
            && s.cluster.namespace == cluster.namespace && s.cluster.name == cluster.name
               && s.cluster.uid == cluster.uid
            && s.observedAt == at && s.validUntil == at + ttl
            && (s.transitioning <==> cluster.currentPrimary != cluster.targetPrimary || cluster.currentPrimary == "")
            && (cluster.fencing.EmptyText? || cluster.fencing.Malformed? ==> s.members == [])
            && s.reason ==
                 if cluster.fencing.EmptyText? || cluster.fencing.Malformed? then "invalid_fencing_configuration"
                 else if s.available then ""
                 else if TwoClaim(cluster, pods, results) then "multiple_primaries_observed"
                 else if s.transitioning then "primary_transition"
                 else "primary_unverified"
  {
    if FencedNames(cluster.fencing).Some? {
      CountIsTwo(cluster, pods, results);
      AvailableByFields(cluster, pods, results, params, at, ttl);
    }
  }

  lemma CountIsTwo(cluster: Cluster, pods: seq<Pod>, results: seq<Probe>)
    requires |results| == |pods| && FencedNames(cluster.fencing).Some?
    ensures ClaimCount(FencedNames(cluster.fencing).value, pods, results) > 1 <==> TwoClaim(cluster, pods, results)
  {
    var fenced := FencedNames(cluster.fencing).value;
    CountsClaims(fenced, pods, results);
    forall i | 0 <= i < |pods|
      ensures Claims(fenced, pods[i], results[i]) <==> ClaimsPrimary(cluster, pods, results, i)
    {
      EligibleIff(cluster, pods[i], results[i]);
    }
    if ClaimCount(fenced, pods, results) > 1 {
      var i :| 0 <= i < |pods| && Claims(fenced, pods[i], results[i]);
      assert !SoleClaim(fenced, pods, results, i);
      var j :| 0 <= j < |pods| && Claims(fenced, pods[j], results[j]) && j != i;
      if i < j {
        assert ClaimsPrimary(cluster, pods, results, i) && ClaimsPrimary(cluster, pods, results, j);
      } else {
        assert ClaimsPrimary(cluster, pods, results, j) && ClaimsPrimary(cluster, pods, results, i);
      }
    }
    if TwoClaim(cluster, pods, results) {
      var i, j :| 0 <= i < j < |pods| && ClaimsPrimary(cluster, pods, results, i)
                  && ClaimsPrimary(cluster, pods, results, j);
      assert Claims(fenced, pods[i], results[i]) && Claims(fenced, pods[j], results[j]);
    }
  }
}

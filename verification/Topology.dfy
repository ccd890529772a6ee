/** Classifying the probed members of a Cluster into a snapshot. */
module Topology {
  import opened Keys
  import opened Api
  import opened Metadata

  datatype Replication = Replication(applicationName: string, state: string, syncState: string)

  datatype Status = Status(
    isPrimary: Option<bool>, systemID: string, timeline: int, replayLSN: string,
    replayPaused: bool, walReceiverActive: bool, rewinding: bool, unavailable: bool,
    replication: seq<Replication>)

  /** A probe result; `failed` is its error. */
  datatype Probe = Probe(status: Status, failed: bool)

  function Unavailable(cluster: Cluster, at: int, ttl: int, reason: string): Snapshot {
    Snapshot(API_VERSION, cluster.Ref(), 0, at, at + ttl, false, reason, "", false, [], Connection("", []))
  }

  function FencedNames(f: Fencing): Option<seq<string>> {
    match f
    case Unfenced => Some([])
    case Fenced(names, _) => Some(names)
    case _ => None
  }

  function ServerName(cluster: Cluster, params: Parameters): string {
    if params.serverName != "" then params.serverName
    else cluster.name + "-rw." + cluster.namespace + ".svc"
  }

  predicate Transitioning(cluster: Cluster) {
    cluster.currentPrimary != cluster.targetPrimary || cluster.currentPrimary == ""
  }

  function Endpoints(pod: Pod, params: Parameters, serverName: string): map<string, Endpoint> {
    var internal := if pod.podIP != "" then map["internal" := Endpoint(pod.podIP, 5432, serverName)] else map[];
    if pod.name in params.externalEndpoints then
      var e := params.externalEndpoints[pod.name];
      internal["external" := if e.serverName == "" then e.(serverName := serverName) else e]
    else
      internal
  }

  /** A member takes part in routing only if it is unfenced, ready, and answered usably. */
  predicate Eligible(fenced: seq<string>, pod: Pod, r: Probe) {
    && !Fences(fenced, pod.name) && PodReady(pod)
    && !r.failed && r.status.isPrimary.Some? && !r.status.unavailable && !r.status.rewinding
  }

  predicate Claims(fenced: seq<string>, pod: Pod, r: Probe) {
    Eligible(fenced, pod, r) && r.status.isPrimary == Some(true)
  }

  predicate VerifiedPrimary(cluster: Cluster, fenced: seq<string>, pod: Pod, r: Probe) {
    Claims(fenced, pod, r) && pod.name == cluster.currentPrimary && !Transitioning(cluster)
  }

  function BlankMember(pod: Pod, params: Parameters, serverName: string): Member {
    Member(pod.uid, pod.name, "unknown", "unknown", false, "status_unavailable",
           Endpoints(pod, params, serverName), pod.nodeName, Label(pod, ZONE), Label(pod, REGION), 0, "")
  }

  /** What the first pass records about a member. */
  function FirstPass(fenced: seq<string>, params: Parameters, serverName: string, pod: Pod, r: Probe): Member {
    var m := BlankMember(pod, params, serverName);
    if Fences(fenced, pod.name) then m.(reason := "fenced")
    else if !PodReady(pod) then m.(reason := "pod_not_ready")
    else if r.failed || r.status.isPrimary.None? then m
    else if r.status.unavailable || r.status.rewinding then m.(reason := "instance_unavailable")
    else
      var seen := m.(timeline := r.status.timeline, replayLSN := r.status.replayLSN);
      if r.status.isPrimary.value then seen.(role := "primary", reason := "primary_unverified")
      else seen.(role := "standby",
                 reason := if r.status.replayPaused then "replay_paused"
                           else if !r.status.walReceiverActive then "wal_receiver_inactive"
                           else "replication_unverified")
  }

  function FirstMembers(fenced: seq<string>, params: Parameters, serverName: string, pods: seq<Pod>,
                        results: seq<Probe>): (ms: seq<Member>)
    requires |results| == |pods|
    ensures |ms| == |pods|
    ensures forall i :: 0 <= i < |ms| ==> ms[i] == FirstPass(fenced, params, serverName, pods[i], results[i])
  {
    seq(|pods|, i requires 0 <= i < |pods| => FirstPass(fenced, params, serverName, pods[i], results[i]))
  }

  function ClaimCount(fenced: seq<string>, pods: seq<Pod>, results: seq<Probe>): nat
    requires |results| == |pods|
    decreases |pods|
  {
    if pods == [] then 0 else
    var n := |pods| - 1;
    ClaimCount(fenced, pods[..n], results[..n]) + (if Claims(fenced, pods[n], results[n]) then 1 else 0)
  }

  /** The index of the last verified primary, -1 if there is none. */
  function PrimaryIndex(cluster: Cluster, fenced: seq<string>, pods: seq<Pod>, results: seq<Probe>): (i: int)
    requires |results| == |pods|
    ensures -1 <= i < |pods|
    ensures i >= 0 ==> VerifiedPrimary(cluster, fenced, pods[i], results[i])
    decreases |pods|
  {
    if pods == [] then -1 else
    var n := |pods| - 1;
    if VerifiedPrimary(cluster, fenced, pods[n], results[n]) then n
    else PrimaryIndex(cluster, fenced, pods[..n], results[..n])
  }

  /** The sender rows that name an instance. */
  function Matching(rows: seq<Replication>, name: string): (r: seq<Replication>)
    ensures forall x :: x in r ==> x in rows && x.applicationName == name
    decreases |rows|
  {
    if rows == [] then [] else
    var n := |rows| - 1;
    Matching(rows[..n], name) + (if rows[n].applicationName == name then [rows[n]] else [])
  }

  const SYNC_STATES := ["sync", "quorum", "potential", "async"]

  /** Exactly one sender row names the instance, and it streams with a known sync state. */
  predicate Streams(rows: seq<Replication>, name: string) {
    var matched := Matching(rows, name);
    |matched| == 1 && matched[0].state == "streaming" && matched[0].syncState in SYNC_STATES
  }

  /** What the second pass makes of a member, given the verified primary's status. */
  function SecondPass(primary: Status, m: Member, r: Status): Member {
    if m.role != "standby" || m.reason != "replication_unverified" then m
    else if r.systemID != primary.systemID then m.(reason := "database_identity_mismatch")
    else if !Streams(primary.replication, m.name) then m
    else m.(syncState := Matching(primary.replication, m.name)[0].syncState, ready := true, reason := "")
  }

  function SecondMembers(primary: Status, members: seq<Member>, results: seq<Probe>): (ms: seq<Member>)
    requires |results| == |members|
    ensures |ms| == |members|
    ensures forall i :: 0 <= i < |ms| ==> ms[i] == SecondPass(primary, members[i], results[i].status)
  {
    seq(|members|, i requires 0 <= i < |members| => SecondPass(primary, members[i], results[i].status))
  }

  /** The snapshot of a collection. */
  function Built(cluster: Cluster, pods: seq<Pod>, results: seq<Probe>, params: Parameters, at: int, ttl: int): Snapshot
    requires |results| == |pods|
  {
    var base := Unavailable(cluster, at, ttl, "primary_unverified").(transitioning := Transitioning(cluster));
    var parsed := FencedNames(cluster.fencing);
    if parsed.None? then base.(reason := "invalid_fencing_configuration") else
    var fenced := parsed.value;
    var members := FirstMembers(fenced, params, ServerName(cluster, params), pods, results);
    var p := PrimaryIndex(cluster, fenced, pods, results);
    if ClaimCount(fenced, pods, results) > 1 then base.(members := members, reason := "multiple_primaries_observed")
    else if Transitioning(cluster) then base.(members := members, reason := "primary_transition")
    else if p < 0 then base.(members := members)
    else
      var verified := members[p := members[p].(ready := true, reason := "")];
      base.(available := true, reason := "", primaryID := members[p].id,
            members := SecondMembers(results[p].status, verified, results))
  }

  method BuildSnapshot(cluster: Cluster, pods: seq<Pod>, results: seq<Probe>, params: Parameters, at: int, ttl: int)
      returns (snapshot: Snapshot)
    requires |results| == |pods|
    ensures snapshot == Built(cluster, pods, results, params, at, ttl)
  {
    snapshot := Unavailable(cluster, at, ttl, "primary_unverified");
    snapshot := snapshot.(transitioning := cluster.currentPrimary != cluster.targetPrimary
        || cluster.currentPrimary == "");
    var parsed := FencedNames(cluster.fencing);
    if parsed.None? {
      snapshot := snapshot.(reason := "invalid_fencing_configuration");
      return;
    }
    var fenced := parsed.value;
    var members, primaryIndex, primaryCount :=
        ClassifyMembers(cluster, fenced, pods, results, params, snapshot.transitioning);
    snapshot := snapshot.(members := members);
    if primaryCount > 1 {
      snapshot := snapshot.(reason := "multiple_primaries_observed");
      return;
    }
    if snapshot.transitioning {
      snapshot := snapshot.(reason := "primary_transition");
      return;
    }
    if primaryIndex < 0 {
      return;
    }
    members := members[primaryIndex := members[primaryIndex].(ready := true, reason := "")];
    snapshot := snapshot.(primaryID := members[primaryIndex].id, available := true, reason := "");
    members := VerifyStandbys(results[primaryIndex].status, members, results);
    snapshot := snapshot.(members := members);
  }

  /** How one more member changes the count of claims and the verified primary. */
  lemma PrefixVerdict(cluster: Cluster, fenced: seq<string>, pods: seq<Pod>, results: seq<Probe>, i: nat)
    requires |results| == |pods| && i < |pods|
    ensures ClaimCount(fenced, pods[..i + 1], results[..i + 1]) ==
            ClaimCount(fenced, pods[..i], results[..i]) + (if Claims(fenced, pods[i], results[i]) then 1 else 0)
    ensures PrimaryIndex(cluster, fenced, pods[..i + 1], results[..i + 1]) ==
            if VerifiedPrimary(cluster, fenced, pods[i], results[i]) then i
                else PrimaryIndex(cluster, fenced, pods[..i], results[..i])
  {
    assert pods[..i + 1][..i] == pods[..i] && results[..i + 1][..i] == results[..i];
  }

  /** The first pass has classified the first `i` members. */
  ghost predicate Classified(cluster: Cluster, fenced: seq<string>, params: Parameters, pods: seq<Pod>,
                             results: seq<Probe>,
                             i: nat, members: seq<Member>, primaryIndex: int, primaryCount: nat)
    requires |results| == |pods|
  {
    && i <= |pods| && |members| == i
    && (forall j :: 0 <= j < i ==>
                      members[j] == FirstPass(fenced, params, ServerName(cluster, params), pods[j], results[j]))
    && primaryIndex == PrimaryIndex(cluster, fenced, pods[..i], results[..i])
    && primaryCount == ClaimCount(fenced, pods[..i], results[..i])
  }

  lemma ClassifiedNext(cluster: Cluster, fenced: seq<string>, params: Parameters, pods: seq<Pod>, results: seq<Probe>,
                       i: nat, members: seq<Member>, primaryIndex: int, primaryCount: nat)
    requires |results| == |pods| && i < |pods|
    requires Classified(cluster, fenced, params, pods, results, i, members, primaryIndex, primaryCount)
    ensures Classified(cluster, fenced, params, pods, results, i + 1,
                       members + [FirstPass(fenced, params, ServerName(cluster, params), pods[i], results[i])],
                       if VerifiedPrimary(cluster, fenced, pods[i], results[i]) then i else primaryIndex,
                       if Claims(fenced, pods[i], results[i]) then primaryCount + 1 else primaryCount)
  {
    PrefixVerdict(cluster, fenced, pods, results, i);
  }

  lemma ClassifiedAll(cluster: Cluster, fenced: seq<string>, params: Parameters, pods: seq<Pod>, results: seq<Probe>,
                      members: seq<Member>, primaryIndex: int, primaryCount: nat)
    requires |results| == |pods| && Classified(cluster, fenced, params, pods, results, |pods|, members, primaryIndex,
             primaryCount)
    ensures members == FirstMembers(fenced, params, ServerName(cluster, params), pods, results)
    ensures primaryIndex == PrimaryIndex(cluster, fenced, pods, results)
            && primaryCount == ClaimCount(fenced, pods, results)
  {
    assert pods[..|pods|] == pods && results[..|pods|] == results;
  }

  method ClassifyMembers(cluster: Cluster, fenced: seq<string>, pods: seq<Pod>, results: seq<Probe>, params: Parameters,
                         transitioning: bool)
      returns (members: seq<Member>, primaryIndex: int, primaryCount: nat)
    requires |results| == |pods| && transitioning == Transitioning(cluster)
    ensures members == FirstMembers(fenced, params, ServerName(cluster, params), pods, results)
    ensures primaryIndex == PrimaryIndex(cluster, fenced, pods, results)
    ensures primaryCount == ClaimCount(fenced, pods, results)
  {
    members, primaryIndex, primaryCount := [], -1, 0;
    var serverName := ServerName(cluster, params);
    var i := 0;
    while i < |pods|
      invariant 0 <= i <= |pods|
      invariant Classified(cluster, fenced, params, pods, results, i, members, primaryIndex, primaryCount)
    {
      var pod := pods[i];
      var m, claims := ClassifyMember(fenced, pod, results[i], params, serverName);
      ClassifiedNext(cluster, fenced, params, pods, results, i, members, primaryIndex, primaryCount);
      if claims {
        primaryCount := primaryCount + 1;
        if pod.name == cluster.currentPrimary && !transitioning {
          primaryIndex := i;
        }
      }
      members := members + [m];
      i := i + 1;
    }
    ClassifiedAll(cluster, fenced, params, pods, results, members, primaryIndex, primaryCount);
  }

  /** The first pass over one member; `claims` says that it counts as a primary. */
  method ClassifyMember(fenced: seq<string>, pod: Pod, r: Probe, params: Parameters, serverName: string)
      returns (m: Member, claims: bool)
    ensures m == FirstPass(fenced, params, serverName, pod, r)
    ensures claims <==> Claims(fenced, pod, r)
  {
    m, claims := BlankMember(pod, params, serverName), false;
    if Fences(fenced, pod.name) {
      m := m.(reason := "fenced");
    } else if !PodReady(pod) {
      m := m.(reason := "pod_not_ready");
    } else if r.failed || r.status.isPrimary.None? {
      m := m.(reason := "status_unavailable");
    } else if r.status.unavailable || r.status.rewinding {
      m := m.(reason := "instance_unavailable");
    } else {
      m := m.(timeline := r.status.timeline, replayLSN := r.status.replayLSN);
      if r.status.isPrimary.value {
        m := m.(role := "primary", reason := "primary_unverified");
        claims := true;
      } else {
        m := m.(role := "standby", reason := "replication_unverified");
        if r.status.replayPaused {
          m := m.(reason := "replay_paused");
        } else if !r.status.walReceiverActive {
          m := m.(reason := "wal_receiver_inactive");
        }
      }
    }
  }

  method VerifyStandbys(primary: Status, members: seq<Member>, results: seq<Probe>) returns (ms: seq<Member>)
    requires |results| == |members|
    ensures ms == SecondMembers(primary, members, results)
  {
    var rows, duplicates := IndexReplication(primary.replication);
    ms := members;
    var i := 0;
    while i < |ms|
      invariant 0 <= i <= |ms| == |members|
      invariant forall j :: 0 <= j < i ==> ms[j] == SecondPass(primary, members[j], results[j].status)
      invariant forall j :: i <= j < |ms| ==> ms[j] == members[j]
    {
      var m := ms[i];
      assert IndexesName(Matching(primary.replication, m.name), m.name, rows, duplicates);
      if m.role == "standby" && m.reason == "replication_unverified" {
        if results[i].status.systemID != primary.systemID {
          ms := ms[i := m.(reason := "database_identity_mismatch")];
        } else if m.name in rows && m.name !in duplicates && rows[m.name].state == "streaming" {
          if rows[m.name].syncState in SYNC_STATES {
            ms := ms[i := m.(syncState := rows[m.name].syncState, ready := true, reason := "")];
          }
        }
      }
      i := i + 1;
    }
    assert ms == SecondMembers(primary, members, results);
  }

  /** Rows by application name, and the names that occur more than once. */
  ghost predicate Indexes(rows: seq<Replication>, byName: map<string, Replication>, duplicates: set<string>) {
    forall n :: IndexesName(Matching(rows, n), n, byName, duplicates)
  }

  ghost predicate IndexesName(matched: seq<Replication>, n: string, byName: map<string, Replication>,
                              duplicates: set<string>) {
    && (n in byName <==> matched != [])
    && (n in duplicates <==> |matched| > 1)
    && (n in byName ==> byName[n] == matched[|matched| - 1])
  }

  lemma IndexStep(rows: seq<Replication>, row: Replication, byName: map<string, Replication>, duplicates: set<string>)
    requires Indexes(rows, byName, duplicates)
    ensures
      var name := row.applicationName;
      Indexes(rows + [row], byName[name := row], if name in byName then duplicates + {name} else duplicates)
  {
  }

  method IndexReplication(rows: seq<Replication>) returns (byName: map<string, Replication>, duplicates: set<string>)
    ensures Indexes(rows, byName, duplicates)
  {
    byName, duplicates := map[], {};
    var i := 0;
    while i < |rows|
      invariant 0 <= i <= |rows| && Indexes(rows[..i], byName, duplicates)
    {
      IndexStep(rows[..i], rows[i], byName, duplicates);
      assert rows[..i] + [rows[i]] == rows[..i + 1];
      var name := rows[i].applicationName;
      if name in byName {
        duplicates := duplicates + {name};
      }
      byName := byName[name := rows[i]];
      i := i + 1;
    }
    assert rows[..i] == rows;
  }

  // ---- What the classification means ----

  /** The only claim to be primary. */
  ghost predicate SoleClaim(fenced: seq<string>, pods: seq<Pod>, results: seq<Probe>, i: nat)
    requires |results| == |pods|
  {
    && i < |pods| && Claims(fenced, pods[i], results[i])
    && (forall j :: 0 <= j < |pods| && Claims(fenced, pods[j], results[j]) ==> j == i)
  }

  lemma {:induction false} CountsClaims(fenced: seq<string>, pods: seq<Pod>, results: seq<Probe>)
    requires |results| == |pods|
    ensures ClaimCount(fenced, pods, results) == 0 <==>
              forall j :: 0 <= j < |pods| ==> !Claims(fenced, pods[j], results[j])
    ensures ClaimCount(fenced, pods, results) == 1 <==> exists i: nat :: SoleClaim(fenced, pods, results, i)
    decreases |pods|
  {
    if pods != [] {
      var n := |pods| - 1;
      CountsClaims(fenced, pods[..n], results[..n]);
      if ClaimCount(fenced, pods, results) == 1 {
        if Claims(fenced, pods[n], results[n]) {
          assert SoleClaim(fenced, pods, results, n);
        } else {
          var i: nat :| SoleClaim(fenced, pods[..n], results[..n], i);
          assert SoleClaim(fenced, pods, results, i);
        }
      }
      if i: nat :| SoleClaim(fenced, pods, results, i) {
        if i < n {
          assert SoleClaim(fenced, pods[..n], results[..n], i);
        }
      }
    }
  }

  lemma {:induction false} FindsVerified(cluster: Cluster, fenced: seq<string>, pods: seq<Pod>, results: seq<Probe>,
                                         i: nat)
    requires |results| == |pods| && SoleClaim(fenced, pods, results, i)
    ensures PrimaryIndex(cluster, fenced, pods, results) == if VerifiedPrimary(cluster, fenced, pods[i], results[i])
            then i else -1
    decreases |pods|
  {
    var n := |pods| - 1;
    if i < n {
      FindsVerified(cluster, fenced, pods[..n], results[..n], i);
    } else {
      assert forall j :: 0 <= j < n ==> !Claims(fenced, pods[..n][j], results[..n][j]);
    }
  }

  /** The verified primary of an available snapshot. */
  ghost predicate IsPrimary(cluster: Cluster, pods: seq<Pod>, results: seq<Probe>, p: nat)
    requires |results| == |pods|
  {
    && FencedNames(cluster.fencing).Some?
    && SoleClaim(FencedNames(cluster.fencing).value, pods, results, p)
    && cluster.currentPrimary == cluster.targetPrimary != "" && pods[p].name == cluster.currentPrimary
  }

  /** Available exactly when fencing parses, the current primary is the target and not empty, and
      exactly one eligible pod claims to be primary and it is the current one. */
  lemma AvailableIff(cluster: Cluster, pods: seq<Pod>, results: seq<Probe>, params: Parameters, at: int, ttl: int)
    requires |results| == |pods|
    ensures Built(cluster, pods, results, params, at, ttl).available <==>
            exists p: nat :: IsPrimary(cluster, pods, results, p)
  {
    var parsed := FencedNames(cluster.fencing);
    if parsed.Some? {
      CountsClaims(parsed.value, pods, results);
      if p: nat :| SoleClaim(parsed.value, pods, results, p) {
        FindsVerified(cluster, parsed.value, pods, results, p);
        if Built(cluster, pods, results, params, at, ttl).available {
          assert IsPrimary(cluster, pods, results, p);
        }
      }
    }
  }

  /** A standby is ready exactly when it is eligible, not paused, receives WAL, has the primary's
      system identifier, and exactly one of the primary's sender rows names it and streams with a
      known sync state. */
  ghost predicate ReadyStandby(fenced: seq<string>, primary: Status, pod: Pod, r: Probe) {
    && Eligible(fenced, pod, r) && r.status.isPrimary == Some(false)
    && !r.status.replayPaused && r.status.walReceiverActive
    && r.status.systemID == primary.systemID && Streams(primary.replication, pod.name)
  }

  /** A member of an available snapshot whose verified primary is `p`. */
  function FinalMember(cluster: Cluster, pods: seq<Pod>, results: seq<Probe>, params: Parameters, p: nat,
                       i: nat): Member
    requires |results| == |pods| && p < |pods| && i < |pods| && FencedNames(cluster.fencing).Some?
  {
    var m := FirstPass(FencedNames(cluster.fencing).value, params, ServerName(cluster, params), pods[i], results[i]);
    SecondPass(results[p].status, if i == p then m.(ready := true, reason := "") else m, results[i].status)
  }

  lemma AvailableForm(cluster: Cluster, pods: seq<Pod>, results: seq<Probe>, params: Parameters, at: int, ttl: int,
                      p: nat)
    requires |results| == |pods| && IsPrimary(cluster, pods, results, p)
    ensures
      var s := Built(cluster, pods, results, params, at, ttl);
      && s.available && s.primaryID == pods[p].uid && |s.members| == |pods|
      && (forall i :: 0 <= i < |pods| ==> s.members[i] == FinalMember(cluster, pods, results, params, p, i))
  {
    var fenced := FencedNames(cluster.fencing).value;
    CountsClaims(fenced, pods, results);
    FindsVerified(cluster, fenced, pods, results, p);
    var members := FirstMembers(fenced, params, ServerName(cluster, params), pods, results);
    assert members[p].id == pods[p].uid;
  }

  lemma FirstPassFacts(fenced: seq<string>, params: Parameters, serverName: string, pod: Pod, r: Probe)
    ensures
      var m := FirstPass(fenced, params, serverName, pod, r);
      && m.id == pod.uid && m.name == pod.name && m.syncState == "unknown" && m.reason != "" && !m.ready
      && (m.role == "primary" <==> Claims(fenced, pod, r))
      && (m.role == "standby" <==> Eligible(fenced, pod, r) && r.status.isPrimary == Some(false))
      && (m.role == "standby" && m.reason == "replication_unverified" <==>
            && Eligible(fenced, pod, r) && r.status.isPrimary == Some(false)
            && !r.status.replayPaused && r.status.walReceiverActive)
  {
  }

  /** Readiness and identity of the members of an available snapshot. */
  lemma ReadyIff(cluster: Cluster, pods: seq<Pod>, results: seq<Probe>, params: Parameters, p: nat, i: nat)
    requires |results| == |pods| && IsPrimary(cluster, pods, results, p) && i < |pods|
    ensures
      var m := FinalMember(cluster, pods, results, params, p, i);
      && m.id == pods[i].uid && m.name == pods[i].name
      && (m.ready <==>
            i == p || ReadyStandby(FencedNames(cluster.fencing).value, results[p].status, pods[i], results[i]))
  {
    FirstPassFacts(FencedNames(cluster.fencing).value, params, ServerName(cluster, params), pods[i], results[i]);
  }

  /** Roles and sync states are published only as verified, and exactly the ready members of an
      available snapshot carry no reason. */
  lemma LabelsIff(cluster: Cluster, pods: seq<Pod>, results: seq<Probe>, params: Parameters, p: nat, i: nat)
    requires |results| == |pods| && IsPrimary(cluster, pods, results, p) && i < |pods|
    ensures
      var m := FinalMember(cluster, pods, results, params, p, i);
      && (m.role == "primary" <==> i == p)
      && (m.role == "standby" <==> Eligible(FencedNames(cluster.fencing).value, pods[i], results[i]) && i != p)
      && (m.reason == "" <==> m.ready)
      && (m.ready && i != p ==> [m.syncState] == SyncStates(Matching(results[p].status.replication, pods[i].name)))
      && (!m.ready || i == p ==> m.syncState == "unknown")
  {
    FirstPassFacts(FencedNames(cluster.fencing).value, params, ServerName(cluster, params), pods[i], results[i]);
  }

  function SyncStates(rows: seq<Replication>): seq<string> {
    seq(|rows|, i requires 0 <= i < |rows| => rows[i].syncState)
  }

  /** A snapshot that is not available offers no route at all. */
  lemma UnavailableIsWithdrawn(cluster: Cluster, pods: seq<Pod>, results: seq<Probe>, params: Parameters, at: int,
                               ttl: int)
    requires |results| == |pods|
    ensures var s := Built(cluster, pods, results, params, at, ttl); !s.available ==> Withdrawn(s)
  {
    var parsed := FencedNames(cluster.fencing);
    if parsed.Some? {
      forall i | 0 <= i < |pods|
        ensures !FirstPass(parsed.value, params, ServerName(cluster, params), pods[i], results[i]).ready
      {
        FirstPassFacts(parsed.value, params, ServerName(cluster, params), pods[i], results[i]);
      }
    }
  }

  // ---- Independence of the order of sender rows ----

  lemma {:induction false} MatchingCounts(rows: seq<Replication>, name: string, r: Replication)
    ensures multiset(Matching(rows, name))[r] == if r.applicationName == name then multiset(rows)[r] else 0
    decreases |rows|
  {
    if rows != [] {
      var n := |rows| - 1;
      MatchingCounts(rows[..n], name, r);
      assert rows == rows[..n] + [rows[n]];
    }
  }

  lemma MatchingIgnoresOrder(a: seq<Replication>, b: seq<Replication>, name: string)
    requires multiset(a) == multiset(b)
    ensures multiset(Matching(a, name)) == multiset(Matching(b, name))
    ensures |Matching(a, name)| == |Matching(b, name)|
    ensures |Matching(a, name)| == 1 ==> Matching(a, name) == Matching(b, name)
  {
    forall r ensures multiset(Matching(a, name))[r] == multiset(Matching(b, name))[r] {
      MatchingCounts(a, name, r);
      MatchingCounts(b, name, r);
    }
    OneRowAlike(Matching(a, name), Matching(b, name));
  }

  lemma OneRowAlike(x: seq<Replication>, y: seq<Replication>)
    requires forall r :: multiset(x)[r] == multiset(y)[r]
    ensures multiset(x) == multiset(y) && |x| == |y| && (|x| == 1 ==> x == y)
  {
    assert multiset(x) == multiset(y);
    assert |multiset(x)| == |x| && |multiset(y)| == |y|;
    if |x| == 1 {
      assert x[0] in multiset(y);
    }
  }

  /** Results that differ only in the order of sender rows. */
  ghost predicate SameUpToRowOrder(a: seq<Probe>, b: seq<Probe>) {
    && |a| == |b|
    && (forall i :: 0 <= i < |a| ==>
          && b[i] == a[i].(status := a[i].status.(replication := b[i].status.replication))
          && multiset(a[i].status.replication) == multiset(b[i].status.replication))
  }

  lemma {:induction false} ClassifiesAlike(cluster: Cluster, fenced: seq<string>, pods: seq<Pod>, a: seq<Probe>,
                                           b: seq<Probe>)
    requires |a| == |pods| && SameUpToRowOrder(a, b)
    ensures ClaimCount(fenced, pods, a) == ClaimCount(fenced, pods, b)
    ensures PrimaryIndex(cluster, fenced, pods, a) == PrimaryIndex(cluster, fenced, pods, b)
    decreases |pods|
  {
    if pods != [] {
      var n := |pods| - 1;
      ClassifiesAlike(cluster, fenced, pods[..n], a[..n], b[..n]);
    }
  }

  /** The snapshot does not depend on the order in which the primary lists its senders. */
  lemma RowOrderIsIrrelevant(cluster: Cluster, pods: seq<Pod>, a: seq<Probe>, b: seq<Probe>, params: Parameters,
                             at: int, ttl: int)
    requires |a| == |pods| && SameUpToRowOrder(a, b)
    ensures Built(cluster, pods, a, params, at, ttl) == Built(cluster, pods, b, params, at, ttl)
  {
    var parsed := FencedNames(cluster.fencing);
    if parsed.Some? {
      var fenced, serverName := parsed.value, ServerName(cluster, params);
      ClassifiesAlike(cluster, fenced, pods, a, b);
      var members := FirstMembers(fenced, params, serverName, pods, a);
      assert members == FirstMembers(fenced, params, serverName, pods, b);
      var p := PrimaryIndex(cluster, fenced, pods, a);
      if p >= 0 {
        SecondPassAlike(a[p].status, b[p].status, members[p := members[p].(ready := true, reason := "")], a, b);
      }
    }
  }

  lemma SecondPassAlike(pa: Status, pb: Status, members: seq<Member>, a: seq<Probe>, b: seq<Probe>)
    requires |a| == |members| && SameUpToRowOrder(a, b)
    requires pa.systemID == pb.systemID && multiset(pa.replication) == multiset(pb.replication)
    ensures SecondMembers(pa, members, a) == SecondMembers(pb, members, b)
  {
    forall i | 0 <= i < |members|
      ensures SecondPass(pa, members[i], a[i].status) == SecondPass(pb, members[i], b[i].status)
    {
      MatchingIgnoresOrder(pa.replication, pb.replication, members[i].name);
    }
  }
}

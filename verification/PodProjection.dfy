/** What the informer cache keeps of a Pod. */
module PodProjection {
  import opened Keys
  import opened Metadata
  import opened Topology
  import opened Projection

  const LABELS := ["cnpg.io/cluster", "cnpg.io/instanceName", "cnpg.io/instanceRole", "cnpg.io/podRole", ZONE, REGION]

  function KeptLabels(labels: map<string, string>): map<string, string> {
    map k | k in labels && k in LABELS :: labels[k]
  }

  function KeptContainer(c: Container): Container {
    Container(c.name, if TLS_FLAG in c.command then [TLS_FLAG] else [], if TLS_FLAG in c.args then [TLS_FLAG] else [])
  }

  /** The first container named postgres. */
  function KeptContainers(containers: seq<Container>): seq<Container> {
    if containers == [] then []
    else if containers[0].name == "postgres" then [KeptContainer(containers[0])]
    else KeptContainers(containers[1..])
  }

  function KeptConditions(conditions: seq<Condition>): seq<Condition> {
    if conditions == [] then []
    else if conditions[0].kind == "Ready" then [conditions[0]]
    else KeptConditions(conditions[1..])
  }

  function KeptStatuses(statuses: seq<ContainerStatus>): seq<ContainerStatus> {
    if statuses == [] then []
    else if statuses[0].name == "postgres" then [statuses[0]]
    else KeptStatuses(statuses[1..])
  }

  function KeptPod(pod: Pod): Pod {
    pod.(labels := KeptLabels(pod.labels), containers := KeptContainers(pod.containers),
         conditions := KeptConditions(pod.conditions), containerStatuses := KeptStatuses(pod.containerStatuses))
  }

  // ---- Meaning ----

  lemma {:induction false} ConditionsAreKept(conditions: seq<Condition>)
    ensures ReadyCondition(KeptConditions(conditions)) <==> ReadyCondition(conditions)
    decreases conditions
  {
    if conditions != [] {
      ConditionsAreKept(conditions[1..]);
    }
  }

  lemma {:induction false} StatusesAreKept(statuses: seq<ContainerStatus>)
    ensures PostgresID(KeptStatuses(statuses)) == PostgresID(statuses)
    decreases statuses
  {
    if statuses != [] {
      StatusesAreKept(statuses[1..]);
    }
  }

  /** Some postgres container serves its status over TLS. */
  predicate ServesTLS(containers: seq<Container>) {
    exists i :: 0 <= i < |containers| && TLSContainer(containers[i])
  }

  /** The first postgres container does, or none. */
  predicate FirstDecides(containers: seq<Container>) {
    containers == [] ||
    if containers[0].name == "postgres" then TLSContainer(containers[0]) || !ServesTLS(containers)
    else FirstDecides(containers[1..])
  }

  lemma {:induction false} ContainersAreKeptIff(containers: seq<Container>)
    ensures (ServesTLS(KeptContainers(containers)) <==> ServesTLS(containers)) <==> FirstDecides(containers)
    decreases containers
  {
    if containers != [] {
      var c, rest := containers[0], containers[1..];
      if c.name == "postgres" {
        var kept := KeptContainers(containers);
        assert kept[0] == KeptContainer(c) && (TLSContainer(kept[0]) <==> TLSContainer(c));
      } else {
        ContainersAreKeptIff(rest);
        TailServes(containers);
      }
    }
  }

  lemma TailServes(containers: seq<Container>)
    requires containers != [] && !TLSContainer(containers[0])
    ensures ServesTLS(containers) <==> ServesTLS(containers[1..])
  {
  }

  ghost predicate UniqueNames(containers: seq<Container>) {
    forall i, j :: 0 <= i < j < |containers| ==> containers[i].name != containers[j].name
  }

  lemma {:induction false} UniqueDecides(containers: seq<Container>)
    requires UniqueNames(containers)
    ensures FirstDecides(containers)
    decreases containers
  {
    if containers != [] {
      UniqueDecides(containers[1..]);
    }
  }

  /** The readers of a pod see the same, except that the status scheme does exactly when the first
      postgres container decides it. */
  lemma PodIsKeptIff(pod: Pod)
    ensures var k := KeptPod(pod);
            && PodReady(k) == PodReady(pod) && PostgresID(k.containerStatuses) == PostgresID(pod.containerStatuses)
            && Label(k, ZONE) == Label(pod, ZONE) && Label(k, REGION) == Label(pod, REGION)
            && PodCluster(k) == PodCluster(pod) && (forall uid :: OwnedBy(k, uid) <==> OwnedBy(pod, uid))
            && (StatusScheme(k) == StatusScheme(pod) <==> FirstDecides(pod.containers))
  {
    ConditionsAreKept(pod.conditions);
    StatusesAreKept(pod.containerStatuses);
    ContainersAreKeptIff(pod.containers);
    assert StatusScheme(pod) == if ServesTLS(pod.containers) then "https" else "http";
    assert StatusScheme(KeptPod(pod)) == if ServesTLS(KeptContainers(pod.containers)) then "https" else "http";
    assert ZONE in LABELS && REGION in LABELS;
  }

  /** What stays of a pod, and nothing else: six labels, of the first postgres container its name and the TLS
      flag, the first Ready condition, the first postgres status, and its identity, owners, node, phase and
      address. */
  lemma PodKeptIff(pod: Pod)
    ensures var k := KeptPod(pod);
            && k.namespace == pod.namespace && k.name == pod.name && k.uid == pod.uid && k.deleting == pod.deleting
            && k.owners == pod.owners && k.nodeName == pod.nodeName && k.phase == pod.phase && k.podIP == pod.podIP
            && (forall l :: l in k.labels ==> l in pod.labels && k.labels[l] == pod.labels[l])
            && (forall l :: l in pod.labels ==>
                  (l in k.labels <==>
                     l in {"cnpg.io/cluster", "cnpg.io/instanceName", "cnpg.io/instanceRole", "cnpg.io/podRole",
                           "topology.kubernetes.io/zone", "topology.kubernetes.io/region"}))
            && FirstContainer(pod.containers, k.containers) && FirstCondition(pod.conditions, k.conditions)
            && FirstStatus(pod.containerStatuses, k.containerStatuses)
  {
    FirstContainerIsKept(pod.containers);
    FirstConditionIsKept(pod.conditions);
    FirstStatusIsKept(pod.containerStatuses);
  }

  predicate FlagOnly(args: seq<string>, kept: seq<string>) {
    kept == if "--status-port-tls" in args then ["--status-port-tls"] else []
  }

  ghost predicate FirstContainer(all: seq<Container>, kept: seq<Container>) {
    if forall i :: 0 <= i < |all| ==> all[i].name != "postgres" then kept == []
    else exists i :: FirstNamed(all, i) && |kept| == 1 && TLSFlagOf(all[i], kept[0])
  }

  ghost predicate FirstNamed(all: seq<Container>, i: int) {
    0 <= i < |all| && all[i].name == "postgres" && forall j :: 0 <= j < i ==> all[j].name != "postgres"
  }

  predicate TLSFlagOf(c: Container, kept: Container) {
    kept.name == "postgres" && FlagOnly(c.command, kept.command) && FlagOnly(c.args, kept.args)
  }

  lemma {:induction false} FirstContainerIsKept(all: seq<Container>)
    ensures FirstContainer(all, KeptContainers(all))
    decreases all
  {
    if all != [] && all[0].name == "postgres" {
      assert FirstNamed(all, 0);
    } else if all != [] {
      var rest := all[1..];
      FirstContainerIsKept(rest);
      assert forall i :: 0 < i < |all| ==> all[i] == rest[i - 1];
      if i :| FirstNamed(rest, i) && |KeptContainers(rest)| == 1 && TLSFlagOf(rest[i], KeptContainers(rest)[0]) {
        assert all[i + 1] == rest[i] && FirstNamed(all, i + 1);
      }
    }
  }

  ghost predicate FirstCondition(all: seq<Condition>, kept: seq<Condition>) {
    && (forall i: nat :: FirstReady(all, i) ==> kept == [all[i]])
    && ((forall i :: 0 <= i < |all| ==> all[i].kind != "Ready") ==> kept == [])
  }

  lemma {:induction false} FirstConditionIsKept(all: seq<Condition>)
    ensures FirstCondition(all, KeptConditions(all))
    decreases all
  {
    if all != [] && all[0].kind != "Ready" {
      var rest := all[1..];
      FirstConditionIsKept(rest);
      assert forall i :: 0 < i < |all| ==> all[i] == rest[i - 1];
      forall i: nat | FirstReady(all, i)
        ensures KeptConditions(all) == [all[i]]
      {
        assert FirstReady(rest, i - 1);
      }
    }
  }

  ghost predicate FirstStatus(all: seq<ContainerStatus>, kept: seq<ContainerStatus>) {
    && (forall i: nat :: FirstPostgres(all, i) ==> kept == [all[i]])
    && ((forall i :: 0 <= i < |all| ==> all[i].name != "postgres") ==> kept == [])
  }

  lemma {:induction false} FirstStatusIsKept(all: seq<ContainerStatus>)
    ensures FirstStatus(all, KeptStatuses(all))
    decreases all
  {
    if all != [] && all[0].name != "postgres" {
      var rest := all[1..];
      FirstStatusIsKept(rest);
      assert forall i :: 0 < i < |all| ==> all[i] == rest[i - 1];
      forall i: nat | FirstPostgres(all, i)
        ensures KeptStatuses(all) == [all[i]]
      {
        assert FirstPostgres(rest, i - 1);
      }
    }
  }

  /** Pod events compare routes of projected pods as they would the originals. */
  lemma PodRoutesAreKept(a: Pod, b: Pod)
    requires UniqueNames(a.containers) && UniqueNames(b.containers)
    ensures SamePodRoute(KeptPod(a), KeptPod(b)) <==> SamePodRoute(a, b)
  {
    PodIsKeptIff(a);
    PodIsKeptIff(b);
    UniqueDecides(a.containers);
    UniqueDecides(b.containers);
  }

  const TWO_CONTAINERS := [Container("postgres", [], []), Container("postgres", [TLS_FLAG], [])]

  /** With two containers of that name the scheme can change. */
  lemma SecondContainerIsLost()
    ensures ServesTLS(TWO_CONTAINERS) && !ServesTLS(KeptContainers(TWO_CONTAINERS))
  {
    assert TLSContainer(TWO_CONTAINERS[1]);
  }

  // ---- Idempotence ----

  lemma {:induction false} ConditionsTwice(conditions: seq<Condition>)
    ensures KeptConditions(KeptConditions(conditions)) == KeptConditions(conditions)
    decreases conditions
  {
    if conditions != [] {
      ConditionsTwice(conditions[1..]);
    }
  }

  lemma {:induction false} StatusesTwice(statuses: seq<ContainerStatus>)
    ensures KeptStatuses(KeptStatuses(statuses)) == KeptStatuses(statuses)
    decreases statuses
  {
    if statuses != [] {
      StatusesTwice(statuses[1..]);
    }
  }

  lemma {:induction false} ContainersTwice(containers: seq<Container>)
    ensures KeptContainers(KeptContainers(containers)) == KeptContainers(containers)
    decreases containers
  {
    if containers != [] {
      if containers[0].name == "postgres" {
        var c := KeptContainer(containers[0]);
        assert KeptContainers(containers) == [c] && KeptContainer(c) == c;
      } else {
        ContainersTwice(containers[1..]);
      }
    }
  }

  /** Projection is idempotent on every pod. */
  lemma KeptPodTwice(pod: Pod)
    ensures KeptPod(KeptPod(pod)) == KeptPod(pod)
  {
    ConditionsTwice(pod.conditions);
    StatusesTwice(pod.containerStatuses);
    ContainersTwice(pod.containers);
    assert KeptLabels(KeptLabels(pod.labels)) == KeptLabels(pod.labels);
  }

  // ---- Snapshots ----

  function KeptPods(pods: seq<Pod>): (r: seq<Pod>)
    ensures |r| == |pods| && forall i :: 0 <= i < |r| ==> r[i] == KeptPod(pods[i])
  {
    seq(|pods|, i requires 0 <= i < |pods| => KeptPod(pods[i]))
  }

  lemma MemberIsKept(cluster: Cluster, fenced: seq<string>, params: Parameters, serverName: string, pod: Pod, r: Probe)
    ensures FirstPass(fenced, params, serverName, KeptPod(pod), r) == FirstPass(fenced, params, serverName, pod, r)
    ensures Claims(fenced, KeptPod(pod), r) == Claims(fenced, pod, r)
    ensures VerifiedPrimary(cluster, fenced, KeptPod(pod), r) == VerifiedPrimary(cluster, fenced, pod, r)
  {
    PodIsKeptIff(pod);
  }

  lemma {:induction false} VerdictIsKept(cluster: Cluster, fenced: seq<string>, pods: seq<Pod>, results: seq<Probe>)
    requires |results| == |pods|
    ensures ClaimCount(fenced, KeptPods(pods), results) == ClaimCount(fenced, pods, results)
    ensures PrimaryIndex(cluster, fenced, KeptPods(pods), results) == PrimaryIndex(cluster, fenced, pods, results)
    decreases |pods|
  {
    if pods != [] {
      var n := |pods| - 1;
      assert KeptPods(pods)[..n] == KeptPods(pods[..n]);
      VerdictIsKept(cluster, fenced, pods[..n], results[..n]);
      MemberIsKept(cluster, fenced, Parameters(map[], ""), "", pods[n], results[n]);
    }
  }

  lemma MembersAreKept(cluster: Cluster, fenced: seq<string>, params: Parameters, serverName: string, pods: seq<Pod>,
                       results: seq<Probe>)
    requires |results| == |pods|
    ensures FirstMembers(fenced, params, serverName, KeptPods(pods), results) ==
            FirstMembers(fenced, params, serverName, pods, results)
  {
    forall i | 0 <= i < |pods|
      ensures FirstPass(fenced, params, serverName, KeptPod(pods[i]), results[i]) ==
              FirstPass(fenced, params, serverName, pods[i], results[i])
    {
      MemberIsKept(cluster, fenced, params, serverName, pods[i], results[i]);
    }
  }

  lemma BuiltIsKept(cluster: Cluster, pods: seq<Pod>, results: seq<Probe>, params: Parameters, at: int, ttl: int)
    requires |results| == |pods|
    ensures Built(cluster, KeptPods(pods), results, params, at, ttl) == Built(cluster, pods, results, params, at, ttl)
  {
    var parsed := FencedNames(cluster.fencing);
    if parsed.Some? {
      VerdictIsKept(cluster, parsed.value, pods, results);
      MembersAreKept(cluster, parsed.value, params, ServerName(cluster, params), pods, results);
    }
  }

  /** A snapshot built from projected objects is the one built from the originals. */
  lemma SnapshotIsKept(o: Fields, d: Decoders, pods: seq<Pod>, results: seq<Probe>, params: Parameters, at: int,
                       ttl: int)
    requires WellFormed(o) && |results| == |pods|
    ensures Built(ClusterOf(Kept(o), d), KeptPods(pods), results, params, at, ttl) ==
            Built(ClusterOf(o, d), pods, results, params, at, ttl)
  {
    ClusterIsKept(o, d);
    BuiltIsKept(ClusterOf(o, d), pods, results, params, at, ttl);
  }

  // ---- The transform ----

  method ProjectLabels(labels: map<string, string>) returns (result: map<string, string>)
    ensures result == KeptLabels(labels)
  {
    result := map[];
    var i := 0;
    while i < |LABELS|
      invariant 0 <= i <= |LABELS|
      invariant result == map k | k in labels && k in LABELS[..i] :: labels[k]
    {
      var key := LABELS[i];
      assert LABELS[..i + 1] == LABELS[..i] + [key];
      if key in labels {
        result := result[key := labels[key]];
      }
      i := i + 1;
    }
    assert LABELS[..i] == LABELS;
  }

  method ProjectContainers(containers: seq<Container>) returns (result: seq<Container>)
    ensures result == KeptContainers(containers)
  {
    result := [];
    var i := 0;
    while i < |containers|
      invariant 0 <= i <= |containers| && result == []
      invariant KeptContainers(containers) == KeptContainers(containers[i..])
    {
      var container := containers[i];
      if container.name == "postgres" {
        var projected := Container(container.name, [], []);
        if TLS_FLAG in container.command {
          projected := projected.(command := [TLS_FLAG]);
        }
        if TLS_FLAG in container.args {
          projected := projected.(args := [TLS_FLAG]);
        }
        result := [projected];
        return;
      }
      i := i + 1;
    }
  }

  method ProjectConditions(conditions: seq<Condition>) returns (result: seq<Condition>)
    ensures result == KeptConditions(conditions)
  {
    result := [];
    var i := 0;
    while i < |conditions|
      invariant 0 <= i <= |conditions| && result == []
      invariant KeptConditions(conditions) == KeptConditions(conditions[i..])
    {
      if conditions[i].kind == "Ready" {
        return [conditions[i]];
      }
      i := i + 1;
    }
  }

  method ProjectStatuses(statuses: seq<ContainerStatus>) returns (result: seq<ContainerStatus>)
    ensures result == KeptStatuses(statuses)
  {
    result := [];
    var i := 0;
    while i < |statuses|
      invariant 0 <= i <= |statuses| && result == []
      invariant KeptStatuses(statuses) == KeptStatuses(statuses[i..])
    {
      if statuses[i].name == "postgres" {
        return [statuses[i]];
      }
      i := i + 1;
    }
  }

  /** `pod` is None for anything but a pod, which is an error. */
  method TransformPodCache(pod: Option<Pod>) returns (projected: Option<Pod>)
    ensures projected == if pod.None? then None else Some(KeptPod(pod.value))
  {
    if pod.None? {
      return None;
    }
    var p := pod.value;
    var labels := ProjectLabels(p.labels);
    var containers := ProjectContainers(p.containers);
    var conditions := ProjectConditions(p.conditions);
    var statuses := ProjectStatuses(p.containerStatuses);
    projected := Some(Pod(p.namespace, p.name, p.uid, p.deleting, labels, p.owners, p.nodeName, containers,
                          p.phase, p.podIP, conditions, statuses));
  }
}

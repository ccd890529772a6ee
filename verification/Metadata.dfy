/** Cluster and Pod metadata: the fields the observer reads, and when two versions are one route. */
module Metadata {
  import opened Keys
  import opened Api

  /** The fencing annotation. An annotation that is present but empty is malformed JSON. */
  datatype Fencing =
    | Unfenced
    | EmptyText
    | Malformed(text: string)
    | Fenced(names: seq<string>, text: string)
  {
    /** Looking up an absent annotation gives the empty string. */
    function Text(): string {
      match this
      case Unfenced => ""
      case EmptyText => ""
      case Malformed(t) => t
      case Fenced(_, t) => t
    }
  }

  predicate Fences(names: seq<string>, pod: string) {
    "*" in names || pod in names
  }

  datatype Parameters = Parameters(externalEndpoints: map<string, Endpoint>, serverName: string)

  /** The certificates status: the field read from it and everything else in it. */
  datatype Certificates = Certificates(serverCASecret: string, other: string)

  /** `params` is None when the configuration is invalid. */
  datatype Cluster = Cluster(
    namespace: string, name: string, uid: string, deleting: bool,
    currentPrimary: string, targetPrimary: string,
    enabled: bool, params: Option<Parameters>, fencing: Fencing,
    database: string, certificates: Certificates)
  {
    function Ref(): ClusterRef {
      ClusterRef(namespace, name, uid)
    }

    function Key(): ClusterKey {
      ClusterKey(namespace, name)
    }

    /** The Cluster takes part in discovery. */
    predicate Active() {
      enabled && !deleting
    }
  }

  predicate SameClusterRoute(a: Cluster, b: Cluster) {
    && a.uid == b.uid && !a.deleting && !b.deleting
    && a.currentPrimary == b.currentPrimary && a.targetPrimary == b.targetPrimary
    && a.params.Some? && b.params.Some? && a.enabled == b.enabled && a.params == b.params
    && a.fencing.Text() == b.fencing.Text()
    && a.database == b.database
    && a.certificates == b.certificates
  }

  datatype Owner = Owner(kind: string, apiVersion: string, name: string, uid: string)
  datatype Condition = Condition(kind: string, status: string)
  datatype Container = Container(name: string, command: seq<string>, args: seq<string>)
  datatype ContainerStatus = ContainerStatus(name: string, containerID: string)

  datatype Pod = Pod(
    namespace: string, name: string, uid: string, deleting: bool, labels: map<string, string>,
    owners: seq<Owner>, nodeName: string, containers: seq<Container>,
    phase: string, podIP: string, conditions: seq<Condition>, containerStatuses: seq<ContainerStatus>)

  const API_GROUP := "postgresql.cnpg.io/v1"
  const TLS_FLAG := "--status-port-tls"
  const ZONE := "topology.kubernetes.io/zone"
  const REGION := "topology.kubernetes.io/region"

  function Label(pod: Pod, key: string): string {
    if key in pod.labels then pod.labels[key] else ""
  }

  /** Only the first condition of type Ready is read. */
  predicate ReadyCondition(conditions: seq<Condition>) {
    conditions != [] &&
    if conditions[0].kind == "Ready" then conditions[0].status == "True" else ReadyCondition(conditions[1..])
  }

  predicate PodReady(pod: Pod) {
    !pod.deleting && pod.phase == "Running" && pod.podIP != "" && ReadyCondition(pod.conditions)
  }

  predicate TLSContainer(c: Container) {
    c.name == "postgres" && (TLS_FLAG in c.command || TLS_FLAG in c.args)
  }

  function StatusScheme(pod: Pod): string {
    if exists i :: 0 <= i < |pod.containers| && TLSContainer(pod.containers[i]) then "https" else "http"
  }

  function PostgresID(statuses: seq<ContainerStatus>): string {
    if statuses == [] then "" else
    if statuses[0].name == "postgres" then statuses[0].containerID else PostgresID(statuses[1..])
  }

  predicate SamePodRoute(a: Pod, b: Pod) {
    && a.name == b.name && a.uid == b.uid && a.podIP == b.podIP
    && PodReady(a) == PodReady(b) && a.nodeName == b.nodeName
    && StatusScheme(a) == StatusScheme(b)
    && PostgresID(a.containerStatuses) == PostgresID(b.containerStatuses)
    && a.owners == b.owners
  }

  /** The Cluster named by the first owner of that kind. */
  function OwningCluster(namespace: string, owners: seq<Owner>): Option<ClusterKey> {
    if owners == [] then None else
    if owners[0].kind == "Cluster" && owners[0].apiVersion == API_GROUP
    then Some(ClusterKey(namespace, owners[0].name))
    else OwningCluster(namespace, owners[1..])
  }

  function PodCluster(pod: Pod): Option<ClusterKey> {
    OwningCluster(pod.namespace, pod.owners)
  }

  predicate OwnedBy(pod: Pod, uid: string) {
    exists i :: 0 <= i < |pod.owners| && pod.owners[i].kind == "Cluster"
                && pod.owners[i].uid == uid && pod.owners[i].apiVersion == API_GROUP
  }

  // ---- What the readers above say, element by element ----

  /** The first element of that name or kind is the one that counts. */
  ghost predicate FirstReady(conditions: seq<Condition>, i: nat) {
    i < |conditions| && conditions[i].kind == "Ready" && forall j :: 0 <= j < i ==> conditions[j].kind != "Ready"
  }

  lemma {:induction false} ReadyConditionIff(conditions: seq<Condition>)
    ensures ReadyCondition(conditions) <==> exists i: nat :: FirstReady(conditions, i) && conditions[i].status == "True"
    decreases conditions
  {
    if conditions != [] {
      var rest := conditions[1..];
      ReadyConditionIff(rest);
      if conditions[0].kind == "Ready" {
        assert FirstReady(conditions, 0);
      } else {
        if i: nat :| FirstReady(rest, i) && rest[i].status == "True" {
          assert forall j :: 0 < j <= i ==> conditions[j] == rest[j - 1];
          assert FirstReady(conditions, i + 1) && conditions[i + 1] == rest[i];
        }
        if i: nat :| FirstReady(conditions, i) && conditions[i].status == "True" {
          assert forall j :: 0 <= j < i ==> rest[j] == conditions[j + 1];
          assert FirstReady(rest, i - 1) && rest[i - 1] == conditions[i];
        }
      }
    }
  }

  /** Running, addressed, not being deleted, and its first Ready condition is true. */
  ghost predicate Serving(pod: Pod) {
    && !pod.deleting && pod.phase == "Running" && pod.podIP != ""
    && exists i: nat :: FirstReady(pod.conditions, i) && pod.conditions[i].status == "True"
  }

  lemma PodReadyIff(pod: Pod)
    ensures PodReady(pod) <==> Serving(pod)
  {
    ReadyConditionIff(pod.conditions);
  }

  ghost predicate FirstPostgres(statuses: seq<ContainerStatus>, i: nat) {
    i < |statuses| && statuses[i].name == "postgres" && forall j :: 0 <= j < i ==> statuses[j].name != "postgres"
  }

  /** The container ID is that of the first status named postgres, empty if there is none. */
  lemma {:induction false} PostgresIDIs(statuses: seq<ContainerStatus>)
    ensures forall i: nat :: FirstPostgres(statuses, i) ==> PostgresID(statuses) == statuses[i].containerID
    ensures (forall i :: 0 <= i < |statuses| ==> statuses[i].name != "postgres") ==> PostgresID(statuses) == ""
    decreases statuses
  {
    if statuses != [] && statuses[0].name != "postgres" {
      var rest := statuses[1..];
      PostgresIDIs(rest);
      forall i: nat | FirstPostgres(statuses, i)
        ensures PostgresID(statuses) == statuses[i].containerID
      {
        assert forall j :: 0 <= j < i ==> rest[j] == statuses[j + 1];
        assert FirstPostgres(rest, i - 1) && rest[i - 1] == statuses[i];
      }
      assert forall j :: 0 <= j < |rest| ==> rest[j] == statuses[j + 1];
    }
  }

  /** Status is served over TLS exactly if some postgres container has the flag in its command or
      arguments. */
  lemma StatusSchemeIff(pod: Pod)
    ensures StatusScheme(pod) == "https" || StatusScheme(pod) == "http"
    ensures StatusScheme(pod) == "https" <==>
              exists i :: 0 <= i < |pod.containers| && pod.containers[i].name == "postgres"
                          && ("--status-port-tls" in pod.containers[i].command
                              || "--status-port-tls" in pod.containers[i].args)
  {
    if StatusScheme(pod) == "https" {
      var i :| 0 <= i < |pod.containers| && TLSContainer(pod.containers[i]);
      assert pod.containers[i].name == "postgres";
    }
    if i :| 0 <= i < |pod.containers| && pod.containers[i].name == "postgres"
            && ("--status-port-tls" in pod.containers[i].command || "--status-port-tls" in pod.containers[i].args) {
      assert TLSContainer(pod.containers[i]);
    }
  }

  predicate IsClusterOwner(o: Owner) {
    o.kind == "Cluster" && o.apiVersion == "postgresql.cnpg.io/v1"
  }

  ghost predicate FirstClusterOwner(owners: seq<Owner>, i: nat) {
    i < |owners| && IsClusterOwner(owners[i]) && forall j :: 0 <= j < i ==> !IsClusterOwner(owners[j])
  }

  /** A pod belongs to the Cluster that its first owner of that kind names, in its own namespace. */
  lemma {:induction false} OwningClusterIs(namespace: string, owners: seq<Owner>)
    ensures forall i: nat :: FirstClusterOwner(owners, i) ==>
              OwningCluster(namespace, owners) == Some(ClusterKey(namespace, owners[i].name))
    ensures (forall i :: 0 <= i < |owners| ==> !IsClusterOwner(owners[i])) <==> OwningCluster(namespace, owners) == None
    decreases owners
  {
    if owners != [] && !IsClusterOwner(owners[0]) {
      var rest := owners[1..];
      OwningClusterIs(namespace, rest);
      assert forall j :: 0 <= j < |rest| ==> rest[j] == owners[j + 1];
      forall i: nat | FirstClusterOwner(owners, i)
        ensures OwningCluster(namespace, owners) == Some(ClusterKey(namespace, owners[i].name))
      {
        assert FirstClusterOwner(rest, i - 1) && rest[i - 1] == owners[i];
      }
    } else if owners != [] {
      assert FirstClusterOwner(owners, 0);
    }
  }

  /** The pod's first owner of that kind is the Cluster, in the pod's namespace. */
  ghost predicate BelongsTo(pod: Pod, key: ClusterKey) {
    && pod.namespace == key.namespace
    && exists i: nat :: FirstClusterOwner(pod.owners, i) && pod.owners[i].name == key.name
  }

  lemma PodClusterIff(pod: Pod, key: ClusterKey)
    ensures PodCluster(pod) == Some(key) <==> BelongsTo(pod, key)
  {
    OwningClusterIs(pod.namespace, pod.owners);
    if PodCluster(pod).Some? {
      SomeOwnerIsFirst(pod.owners);
    }
  }

  lemma {:induction false} SomeOwnerIsFirst(owners: seq<Owner>)
    requires exists i :: 0 <= i < |owners| && IsClusterOwner(owners[i])
    ensures exists i: nat :: FirstClusterOwner(owners, i)
    decreases owners
  {
    if IsClusterOwner(owners[0]) {
      assert FirstClusterOwner(owners, 0);
    } else {
      var rest := owners[1..];
      assert forall j :: 0 <= j < |rest| ==> rest[j] == owners[j + 1];
      var i :| 0 <= i < |owners| && IsClusterOwner(owners[i]);
      assert IsClusterOwner(rest[i - 1]);
      SomeOwnerIsFirst(rest);
      var k: nat :| FirstClusterOwner(rest, k);
      assert FirstClusterOwner(owners, k + 1);
    }
  }

  /** The text of an annotation determines what it says, unless it is empty, when it may also be absent. */
  predicate SameText(a: Fencing, b: Fencing) {
    && (a.Malformed? || a.Fenced? ==> a.text != "") && (b.Malformed? || b.Fenced? ==> b.text != "")
    && (a.Text() == b.Text() != "" ==> a == b)
  }

  /** One Cluster with one configuration, field by field. */
  predicate ClusterAlike(a: Cluster, b: Cluster) {
    && a.uid == b.uid && a.enabled == b.enabled && !a.deleting && !b.deleting
    && a.currentPrimary == b.currentPrimary && a.targetPrimary == b.targetPrimary
    && a.params == b.params && a.fencing.Text() == b.fencing.Text() && a.database == b.database
    && a.certificates.serverCASecret == b.certificates.serverCASecret && a.certificates.other == b.certificates.other
  }

  /** A Cluster keeps its route exactly if these fields stay and its parameters are valid. */
  lemma ClusterRouteIff(a: Cluster, b: Cluster)
    ensures SameClusterRoute(a, b) <==> ClusterAlike(a, b) && a.params.Some?
  {
  }

  /** One pod, in one container on one node, at one address, field by field. */
  ghost predicate PodAlike(a: Pod, b: Pod) {
    && a.name == b.name && a.uid == b.uid && a.podIP == b.podIP && a.nodeName == b.nodeName && a.owners == b.owners
    && (Serving(a) <==> Serving(b))
    && PostgresID(a.containerStatuses) == PostgresID(b.containerStatuses) && StatusScheme(a) == StatusScheme(b)
  }

  /** A pod keeps its route exactly if these stay. */
  lemma PodRouteIff(a: Pod, b: Pod)
    ensures SamePodRoute(a, b) <==> PodAlike(a, b)
  {
    PodReadyIff(a);
    PodReadyIff(b);
  }

  /** Route equality is a partial equivalence. */
  lemma ClusterRouteIsTransitive(a: Cluster, b: Cluster, c: Cluster)
    requires SameClusterRoute(a, b) && SameClusterRoute(b, c)
    ensures SameClusterRoute(a, c)
  {
  }

  lemma PodRouteIsTransitive(a: Pod, b: Pod, c: Pod)
    requires SamePodRoute(a, b) && SamePodRoute(b, c)
    ensures SamePodRoute(a, c)
  {
  }
}

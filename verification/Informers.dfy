/** What the informers have held over time, for one Cluster key and its namespace's pods. */
module Informers {
  import opened Keys
  import opened Metadata

  /** Successive contents of the Cluster informer; transition `i` is its i-th event. */
  type Clusters = seq<Option<Cluster>>

  /** Successive contents of the Pod informer, by pod name. */
  type Pods = seq<map<string, Pod>>

  /** Event `i` is an update that keeps the route. */
  ghost predicate KeepsRoute(h: Clusters, i: int) {
    && 0 <= i < |h| - 1 && h[i].Some? && h[i + 1].Some?
    && SameClusterRoute(h[i].value, h[i + 1].value)
  }

  /** Some event from `from` on adds, deletes or reroutes the Cluster. */
  ghost predicate Reroutes(h: Clusters, from: nat) {
    exists i :: from <= i < |h| - 1 && !KeepsRoute(h, i)
  }

  ghost predicate KeepsRouteBetween(h: Clusters, from: nat, to: nat) {
    forall i :: from <= i < to ==> KeepsRoute(h, i)
  }

  /** Unchanged events compose. */
  lemma {:induction false} RouteChain(h: Clusters, i: nat, j: nat)
    requires i < j < |h| && KeepsRouteBetween(h, i, j)
    ensures h[i].Some? && h[j].Some? && SameClusterRoute(h[i].value, h[j].value)
    decreases j
  {
    assert KeepsRoute(h, j - 1);
    if i < j - 1 {
      RouteChain(h, i, j - 1);
      ClusterRouteIsTransitive(h[i].value, h[j - 1].value, h[j].value);
    }
  }

  /** Two contents that are not one route have a rerouting event between them. */
  lemma DifferentRouteReroutes(h: Clusters, i: nat, j: nat)
    requires i < j < |h|
    requires !(h[i].Some? && h[j].Some? && SameClusterRoute(h[i].value, h[j].value))
    ensures Reroutes(h, i)
  {
    if KeepsRouteBetween(h, i, j) {
      RouteChain(h, i, j);
    } else {
      var k :| i <= k < j && !KeepsRoute(h, k);
    }
  }

  lemma GrowsReroutes(h: Clusters, c: Option<Cluster>, from: nat)
    ensures Reroutes(h, from) ==> Reroutes(h + [c], from)
    ensures forall i :: 0 <= i < |h| - 1 ==> (KeepsRoute(h + [c], i) <==> KeepsRoute(h, i))
  {
    if i :| from <= i < |h| - 1 && !KeepsRoute(h, i) {
      assert !KeepsRoute(h + [c], i);
    }
  }

  /** A UID is never used again once its Cluster is gone. */
  ghost predicate FreshUIDs(h: Clusters) {
    forall i, k, j :: 0 <= i < k < j < |h| && h[i].Some? && h[j].Some? && h[i].value.uid == h[j].value.uid ==>
      h[k].Some? && h[k].value.uid == h[i].value.uid
  }

  /** What an annotation says is decided by its text. */
  ghost predicate TextsAgree(h: Clusters) {
    forall i, j :: 0 <= i < |h| && 0 <= j < |h| && h[i].Some? && h[j].Some? ==>
      SameText(h[i].value.fencing, h[j].value.fencing)
  }

  /** The API server may let the Cluster become `c`. */
  ghost predicate MayBecome(h: Clusters, key: ClusterKey, c: Option<Cluster>) {
    && h != [] && !(h[|h| - 1].None? && c.None?)
    && (c.Some? ==>
          && c.value.Key() == key && SameText(c.value.fencing, c.value.fencing)
          && (forall i :: 0 <= i < |h| && h[i].Some? ==> SameText(h[i].value.fencing, c.value.fencing))
          && ((h[|h| - 1].Some? && h[|h| - 1].value.uid == c.value.uid) ||
              (forall i :: 0 <= i < |h| && h[i].Some? ==> h[i].value.uid != c.value.uid)))
  }

  /** Pod event `j` leaves the route of `name` alone. */
  ghost predicate KeepsPod(p: Pods, j: int, name: string) {
    && 0 <= j < |p| - 1 && name in p[j] && name in p[j + 1]
    && SamePodRoute(p[j][name], p[j + 1][name])
  }

  ghost predicate KeepsPodBetween(p: Pods, from: nat, to: nat, name: string) {
    forall j :: from <= j < to ==> KeepsPod(p, j, name)
  }

  lemma {:induction false} PodChain(p: Pods, i: nat, j: nat, name: string)
    requires i <= j < |p| && name in p[i] && KeepsPodBetween(p, i, j, name)
    ensures name in p[j] && SamePodRoute(p[i][name], p[j][name])
    decreases j
  {
    if i < j {
      assert KeepsPod(p, j - 1, name);
      PodChain(p, i, j - 1, name);
      PodRouteIsTransitive(p[i][name], p[j - 1][name], p[j][name]);
    }
  }

  /** Pods are kept under their names, in one namespace. */
  ghost predicate PodsNamed(p: Pods, key: ClusterKey) {
    forall j, n :: 0 <= j < |p| && n in p[j] ==> p[j][n].name == n && p[j][n].namespace == key.namespace
  }

  /** A pod UID belongs to one name. */
  ghost predicate OneNameEach(p: Pods) {
    forall i, n, j, m :: 0 <= i < |p| && 0 <= j < |p| && n in p[i] && m in p[j] && p[i][n].uid == p[j][m].uid ==> n == m
  }

  ghost predicate PodsOk(p: Pods, key: ClusterKey) {
    PodsNamed(p, key) && OneNameEach(p)
  }

  ghost predicate PodMayBecome(p: Pods, key: ClusterKey, name: string, pod: Option<Pod>) {
    && p != []
    && (pod.Some? ==>
          && pod.value.name == name && pod.value.namespace == key.namespace
          && (forall i, n :: 0 <= i < |p| && n in p[i] && p[i][n].uid == pod.value.uid ==> n == name))
  }

  function PodsAfter(p: map<string, Pod>, name: string, pod: Option<Pod>): map<string, Pod> {
    if pod.Some? then p[name := pod.value] else p - {name}
  }

  lemma PodBecomeKeepsOk(p: Pods, key: ClusterKey, name: string, pod: Option<Pod>)
    requires PodsOk(p, key) && PodMayBecome(p, key, name, pod)
    ensures PodsOk(p + [PodsAfter(p[|p| - 1], name, pod)], key)
  {
    var last := |p| - 1;
    var q: Pods := p + [PodsAfter(p[last], name, pod)];
    forall i, n, j, m | 0 <= i < |q| && 0 <= j < |q| && n in q[i] && m in q[j] && q[i][n].uid == q[j][m].uid
      ensures n == m
    {
      var a: Pod := if i < |p| then p[i][n] else if n == name && pod.Some? then pod.value else p[last][n];
      var b: Pod := if j < |p| then p[j][m] else if m == name && pod.Some? then pod.value else p[last][m];
      assert a.uid == b.uid;
    }
  }

  /** The pods of a Cluster as the observer lists them. */
  ghost predicate IsPodList(list: seq<Pod>, pods: map<string, Pod>, key: ClusterKey, uid: string) {
    && (forall i :: 0 <= i < |list| ==>
          && list[i].name in pods && pods[list[i].name] == list[i]
          && PodCluster(list[i]) == Some(key) && OwnedBy(list[i], uid))
    && (forall i, j :: 0 <= i < j < |list| ==> list[i].name != list[j].name)
    && (forall n :: n in pods && PodCluster(pods[n]) == Some(key) && OwnedBy(pods[n], uid) ==> pods[n] in list)
  }
}

/**
  Split-brain evidence: the primary claims that were observed in conflict with the Cluster, kept
  per Cluster UID until they are refuted.
 */
module Evidence {
  import opened Keys
  import opened Metadata
  import opened Topology

  datatype Claims = Claims(clusterUID: string, members: map<string, string>)

  /** Everything one collection brings: the Cluster at its start and now, the pods it probed and
      the pods there are now. */
  datatype Collection = Collection(
    observed: Cluster, cluster: Cluster, probed: seq<Pod>, current: seq<Pod>, results: seq<Probe>)
  {
    ghost predicate WellFormed() {
      && |results| == |probed|
      && (forall i, j :: 0 <= i < j < |probed| ==> probed[i].name != probed[j].name)
      && (forall i, j :: 0 <= i < j < |current| ==> current[i].name != current[j].name)
    }
  }

  function Carried(e: Option<Claims>, uid: string): map<string, string> {
    if e.Some? && e.value.clusterUID == uid then e.value.members else map[]
  }

  predicate Replaced(current: seq<Pod>, name: string, uid: string) {
    exists i :: 0 <= i < |current| && current[i].name == name && current[i].uid != uid
  }

  function DropReplaced(members: map<string, string>, current: seq<Pod>): map<string, string> {
    map n | n in members && !Replaced(current, n, members[n]) :: members[n]
  }

  /** One probe's report; `stale` says that the pod was replaced since it was probed. */
  function Report(members: map<string, string>, stale: bool, pod: Pod, r: Probe): map<string, string> {
    if stale || r.failed || r.status.isPrimary.None? then members
    else if r.status.isPrimary.value then members[pod.name := pod.uid]
    else if pod.name in members && members[pod.name] == pod.uid then members - {pod.name}
    else members
  }

  function Reports(members: map<string, string>, current: seq<Pod>, probed: seq<Pod>,
                   results: seq<Probe>): map<string, string>
    requires |results| == |probed|
    decreases |probed|
  {
    if probed == [] then members else
    var n := |probed| - 1;
    Report(Reports(members, current, probed[..n], results[..n]), Replaced(current, probed[n].name, probed[n].uid),
           probed[n], results[n])
  }

  /** A sole claim by the expected primary is no conflict. */
  function Settle(members: map<string, string>, expected: string): map<string, string> {
    if members.Keys == {expected} then map[] else members
  }

  function Collected(e: Option<Claims>, c: Collection): Claims
    requires |c.results| == |c.probed|
  {
    var kept := DropReplaced(Carried(e, c.cluster.uid), c.current);
    Claims(c.cluster.uid, Settle(Reports(kept, c.current, c.probed, c.results), c.observed.currentPrimary))
  }

  /** For evidence, an empty annotation means no fence. */
  function EvidenceFence(f: Fencing): Option<seq<string>> {
    match f
    case Malformed(_) => None
    case Fenced(names, _) => Some(names)
    case _ => Some([])
  }

  predicate Conflicts(e: Claims, cluster: Cluster) {
    var fence := EvidenceFence(cluster.fencing);
    fence.None? || exists n :: n in e.members && n != cluster.currentPrimary && !Fences(fence.value, n)
  }

  class EvidenceBook {
    var primaries: map<ClusterKey, Claims>

    constructor ()
      ensures primaries == map[]
    {
      primaries := map[];
    }

    ghost function Of(key: ClusterKey): Option<Claims>
      reads this
    {
      if key in primaries then Some(primaries[key]) else None
    }

    /** The next collection of that key starts with no claims; no other key's claims change. */
    method Forget(key: ClusterKey)
      modifies this
      ensures primaries == old(primaries) - {key}
      ensures Of(key) == None && forall uid :: Carried(Of(key), uid) == map[]
      ensures forall k :: k != key ==> Of(k) == old(Of(k))
    {
      primaries := primaries - {key};
    }

    method ConflictingPrimary(c: Collection) returns (conflict: bool)
      requires c.WellFormed()
      modifies this
      ensures primaries == old(primaries)[c.cluster.Key() := Collected(old(Of(c.cluster.Key())), c)]
      ensures conflict <==> c.cluster.fencing.Malformed? || Challenged(primaries[c.cluster.Key()], c.cluster)
      ensures conflict == Conflicts(primaries[c.cluster.Key()], c.cluster)
    {
      var key := c.cluster.Key();
      var members := if key in primaries && primaries[key].clusterUID == c.cluster.uid then primaries[key].members
          else map[];
      var currentUIDs;
      members, currentUIDs := ScanCurrent(members, c.current);
      members := ScanProbes(members, c.current, currentUIDs, c.probed, c.results);
      if |members| == 1 && c.observed.currentPrimary in members {
        SoleKey(members, c.observed.currentPrimary);
        members := map[];
      } else {
        assert members.Keys == {c.observed.currentPrimary} ==> |members.Keys| == 1;
      }
      primaries := primaries[key := Claims(c.cluster.uid, members)];
      conflict := Unresolved(members, c.cluster);
      ConflictIff(primaries[key], c.cluster);
    }

    /** Records the current pods and drops claims of replaced ones. */
    static method ScanCurrent(members: map<string, string>, current: seq<Pod>)
        returns (kept: map<string, string>, uids: map<string, string>)
      requires forall i, j :: 0 <= i < j < |current| ==> current[i].name != current[j].name
      ensures kept == DropReplaced(members, current)
      ensures forall n :: n in uids <==> exists i :: 0 <= i < |current| && current[i].name == n
      ensures forall i :: 0 <= i < |current| ==> current[i].name in uids && uids[current[i].name] == current[i].uid
    {
      kept, uids := members, map[];
      var i := 0;
      while i < |current|
        invariant 0 <= i <= |current|
        invariant kept == DropReplaced(members, current[..i])
        invariant forall n :: n in uids <==> exists j :: 0 <= j < i && current[j].name == n
        invariant forall j :: 0 <= j < i ==> current[j].name in uids && uids[current[j].name] == current[j].uid
      {
        var pod := current[i];
        uids := uids[pod.name := pod.uid];
        if pod.name in kept && kept[pod.name] != pod.uid {
          kept := kept - {pod.name};
        }
        ReplacedExtends(current, i);
        i := i + 1;
      }
      assert current[..i] == current;
    }

    static method ScanProbes(members: map<string, string>, ghost current: seq<Pod>, uids: map<string, string>,
                             probed: seq<Pod>, results: seq<Probe>) returns (ms: map<string, string>)
      requires |results| == |probed|
      requires forall i, j :: 0 <= i < j < |current| ==> current[i].name != current[j].name
      requires forall n :: n in uids <==> exists i :: 0 <= i < |current| && current[i].name == n
      requires forall i :: 0 <= i < |current| ==> current[i].name in uids && uids[current[i].name] == current[i].uid
      ensures ms == Reports(members, current, probed, results)
    {
      ms := members;
      var i := 0;
      while i < |probed|
        invariant 0 <= i <= |probed|
        invariant ms == Reports(members, current, probed[..i], results[..i])
      {
        var pod, r := probed[i], results[i];
        assert probed[..i + 1][..i] == probed[..i] && results[..i + 1][..i] == results[..i];
        var stale := pod.name in uids && uids[pod.name] != pod.uid;
        assert stale == Replaced(current, pod.name, pod.uid);
        if !stale && !r.failed && r.status.isPrimary.Some? {
          if r.status.isPrimary.value {
            ms := ms[pod.name := pod.uid];
          } else if pod.name in ms && ms[pod.name] == pod.uid {
            ms := ms - {pod.name};
          }
        }
        i := i + 1;
      }
      assert probed[..i] == probed && results[..i] == results;
    }

    static method Unresolved(members: map<string, string>, cluster: Cluster) returns (conflict: bool)
      ensures conflict == Conflicts(Claims(cluster.uid, members), cluster)
    {
      var fence := EvidenceFence(cluster.fencing);
      if fence.None? {
        return true;
      }
      var names := members.Keys;
      while names != {}
        invariant names <= members.Keys
        invariant forall n :: n in members && n !in names ==> n == cluster.currentPrimary || Fences(fence.value, n)
      {
        var name :| name in names;
        if name != cluster.currentPrimary && "*" !in fence.value && name !in fence.value {
          return true;
        }
        names := names - {name};
      }
      conflict := false;
    }
  }

  lemma ReplacedExtends(current: seq<Pod>, i: nat)
    requires i < |current|
    ensures forall n, u :: Replaced(current[..i + 1], n, u) <==>
              Replaced(current[..i], n, u) || (current[i].name == n && current[i].uid != u)
  {
  }

  lemma SoleKey(members: map<string, string>, name: string)
    requires |members| == 1 && name in members
    ensures members.Keys == {name}
  {
    assert |members.Keys - {name}| == 0;
    assert members.Keys == {name} + (members.Keys - {name});
  }

  // ---- What a collection does to one claim ----

  /** A probe that counts: it answered with a role and its pod was not replaced since. */
  predicate Counts(c: Collection, i: nat)
    requires |c.results| == |c.probed| && i < |c.probed|
  {
    && !Replaced(c.current, c.probed[i].name, c.probed[i].uid)
    && !c.results[i].failed && c.results[i].status.isPrimary.Some?
  }

  lemma {:induction false} UnreportedClaimStays(kept: map<string, string>, current: seq<Pod>, probed: seq<Pod>,
                                                results: seq<Probe>, name: string)
    requires |results| == |probed|
    requires forall i :: 0 <= i < |probed| && probed[i].name == name ==>
               Replaced(current, name, probed[i].uid) || results[i].failed || results[i].status.isPrimary.None?
    ensures var after := Reports(kept, current, probed, results);
            (name in after <==> name in kept) && (name in kept ==> after[name] == kept[name])
    decreases |probed|
  {
    if probed != [] {
      var n := |probed| - 1;
      UnreportedClaimStays(kept, current, probed[..n], results[..n], name);
    }
  }

  lemma {:induction false} ReportDecidesClaim(kept: map<string, string>, c: Collection, i: nat, n: nat)
    requires c.WellFormed() && i < n <= |c.probed| && Counts(c, i)
    ensures
      var name := c.probed[i].name;
      var after := Reports(kept, c.current, c.probed[..n], c.results[..n]);
      if c.results[i].status.isPrimary.value then name in after && after[name] == c.probed[i].uid
      else if name in kept && kept[name] == c.probed[i].uid then name !in after
      else (name in after <==> name in kept) && (name in kept ==> after[name] == kept[name])
    decreases n
  {
    var m := n - 1;
    assert c.probed[..n][..m] == c.probed[..m] && c.results[..n][..m] == c.results[..m];
    if i < m {
      ReportDecidesClaim(kept, c, i, m);
    } else {
      UnreportedClaimStays(kept, c.current, c.probed[..m], c.results[..m], c.probed[i].name);
    }
  }

  /** The ways a claim can be given up in one collection. */
  ghost predicate Released(prior: map<string, string>, c: Collection, name: string)
    requires c.WellFormed() && name in prior
  {
    // a verified report, from the very instance that claimed, that it is not primary
    || (exists i :: 0 <= i < |c.probed| && c.probed[i].name == name && c.probed[i].uid == prior[name]
                    && Counts(c, i) && c.results[i].status.isPrimary == Some(false))
    // a current pod of that name with another UID
    || Replaced(c.current, name, prior[name])
    // it became the only claim while being the primary expected when the collection started
    || (&& name == c.observed.currentPrimary
        && Reports(DropReplaced(prior, c.current), c.current, c.probed, c.results).Keys == {name})
  }

  lemma StepReleases(e: Option<Claims>, c: Collection, name: string)
    requires c.WellFormed() && name in Carried(e, c.cluster.uid) && name !in Collected(e, c).members
    ensures Released(Carried(e, c.cluster.uid), c, name)
  {
    var prior := Carried(e, c.cluster.uid);
    var kept := DropReplaced(prior, c.current);
    var after := Reports(kept, c.current, c.probed, c.results);
    if name in kept && name !in after {
      if i :| 0 <= i < |c.probed| && c.probed[i].name == name && Counts(c, i) {
        assert c.probed[..|c.probed|] == c.probed && c.results[..|c.probed|] == c.results;
        ReportDecidesClaim(kept, c, i, |c.probed|);
      } else {
        UnreportedClaimStays(kept, c.current, c.probed, c.results, name);
        assert false;
      }
    }
  }

  // ---- Runs ----

  /** Collections of one Cluster, in the order in which they commit. */
  ghost predicate OfCluster(cs: seq<Collection>, uid: string) {
    forall i :: 0 <= i < |cs| ==> cs[i].WellFormed() && cs[i].cluster.uid == uid
  }

  function Run(e: Option<Claims>, cs: seq<Collection>): Option<Claims>
    requires forall i :: 0 <= i < |cs| ==> |cs[i].results| == |cs[i].probed|
    decreases |cs|
  {
    if cs == [] then e else Some(Collected(Run(e, cs[..|cs| - 1]), cs[|cs| - 1]))
  }

  /** For one Cluster UID a claim survives any run of failed probes, vanished pods, fence changes
      and primary changes: if it is gone, some collection released it. */
  lemma {:induction false} ClaimsPersist(e: Option<Claims>, cs: seq<Collection>, uid: string, name: string)
        returns (k: nat)
    requires OfCluster(cs, uid) && name in Carried(e, uid) && name !in Carried(Run(e, cs), uid)
    ensures k < |cs|
    ensures name in Carried(Run(e, cs[..k]), uid) && Released(Carried(Run(e, cs[..k]), uid), cs[k], name)
    decreases |cs|
  {
    var n := |cs| - 1;
    if name in Carried(Run(e, cs[..n]), uid) {
      StepReleases(Run(e, cs[..n]), cs[n], name);
      k := n;
    } else {
      k := ClaimsPersist(e, cs[..n], uid, name);
      assert cs[..n][..k] == cs[..k];
    }
  }

  /** Only the primary expected when the collection started claims the role. */
  ghost predicate OnlyExpectedClaims(c: Collection)
    requires |c.results| == |c.probed|
  {
    forall i :: 0 <= i < |c.probed| && Counts(c, i) && c.results[i].status.isPrimary.value ==>
      c.probed[i].name == c.observed.currentPrimary
  }

  lemma {:induction false} OnlyExpectedReported(c: Collection, n: nat)
    requires c.WellFormed() && OnlyExpectedClaims(c) && n <= |c.probed|
    ensures Reports(map[], c.current, c.probed[..n], c.results[..n]).Keys <= {c.observed.currentPrimary}
    decreases n
  {
    if n > 0 {
      var m := n - 1;
      assert c.probed[..n][..m] == c.probed[..m] && c.results[..n][..m] == c.results[..m];
      OnlyExpectedReported(c, m);
      assert Counts(c, m) || Reports(map[], c.current, c.probed[..n], c.results[..n]) == Reports(map[], c.current,
             c.probed[..m], c.results[..m]);
    }
  }

  /** Completed failovers leave no evidence: if in every collection only the primary expected at its
      start claims the role, evidence is empty after every step, and a conflict is reported exactly
      when the fencing annotation is malformed. */
  lemma {:induction false} FailoversLeaveNoEvidence(cs: seq<Collection>, uid: string)
    requires OfCluster(cs, uid) && cs != []
    requires forall i :: 0 <= i < |cs| ==> OnlyExpectedClaims(cs[i])
    ensures Run(None, cs) == Some(Claims(uid, map[]))
    ensures Conflicts(Run(None, cs).value, cs[|cs| - 1].cluster) <==> cs[|cs| - 1].cluster.fencing.Malformed?
    decreases |cs|
  {
    var n := |cs| - 1;
    if n > 0 {
      FailoversLeaveNoEvidence(cs[..n], uid);
    }
    var c := cs[n];
    assert Carried(Run(None, cs[..n]), uid) == map[];
    assert DropReplaced(map[], c.current) == map[];
    OnlyExpectedReported(c, |c.probed|);
    assert c.probed[..|c.probed|] == c.probed && c.results[..|c.probed|] == c.results;
    var after := Reports(map[], c.current, c.probed, c.results);
    assert after.Keys == {} || after.Keys == {c.observed.currentPrimary};
    assert after.Keys == {} ==> after == map[];
  }

  /** The same collection seen under other fencing annotations and another latest primary. */
  ghost predicate SameButFencing(a: Collection, b: Collection) {
    && a.probed == b.probed && a.current == b.current && a.results == b.results
    && a.cluster.uid == b.cluster.uid && a.observed.currentPrimary == b.observed.currentPrimary
  }

  /** Evidence depends on neither fencing nor the latest primary name: runs that differ only in
      those have equal evidence after every step. */
  lemma {:induction false} EvidenceIgnoresFencing(e: Option<Claims>, a: seq<Collection>, b: seq<Collection>)
    requires |a| == |b| && forall i :: 0 <= i < |a| ==> SameButFencing(a[i], b[i])
    requires forall i :: 0 <= i < |a| ==> |a[i].results| == |a[i].probed|
    requires forall i :: 0 <= i < |b| ==> |b[i].results| == |b[i].probed|
    ensures Run(e, a) == Run(e, b)
    decreases |a|
  {
    if a != [] {
      var n := |a| - 1;
      EvidenceIgnoresFencing(e, a[..n], b[..n]);
    }
  }

  /** A retained claim that is neither expected nor fenced is a conflict; removing a fence brings
      back every conflict that it suppressed. */
  lemma RetainedClaimConflicts(e: Claims, cluster: Cluster, name: string)
    requires name in e.members && name != cluster.currentPrimary
    ensures (forall names :: EvidenceFence(cluster.fencing) == Some(names) ==> !Fences(names, name)) ==>
              Conflicts(e, cluster)
    ensures Conflicts(e, cluster.(fencing := Unfenced))
  {
  }

  // ---- The evidence and the verdict, claim by claim ----

  /** The claims that a collection starts with: those recorded for this very Cluster. */
  predicate StartsWith(e: Option<Claims>, c: Collection, name: string, uid: string) {
    e.Some? && e.value.clusterUID == c.cluster.uid && name in e.value.members && e.value.members[name] == uid
  }

  /** The probe counts: it gave a role, and its pod is not known to have been replaced since. */
  ghost predicate GaveRole(c: Collection, i: nat) {
    && i < |c.probed| && i < |c.results| && !c.results[i].failed && c.results[i].status.isPrimary.Some?
    && (forall j :: 0 <= j < |c.current| && c.current[j].name == c.probed[i].name ==>
                      c.current[j].uid == c.probed[i].uid)
  }

  ghost predicate SaidPrimary(c: Collection, name: string, uid: string) {
    exists i: nat :: GaveRole(c, i) && c.probed[i].name == name && c.probed[i].uid == uid
        && c.results[i].status.isPrimary.value
  }

  /** The claim was made in this collection; or it was recorded before, its pod has not been replaced, and
      neither that instance nor any other of its name has said otherwise. */
  ghost predicate Held(e: Option<Claims>, c: Collection, name: string, uid: string) {
    || SaidPrimary(c, name, uid)
    || (&& StartsWith(e, c, name, uid)
        && (forall j :: 0 <= j < |c.current| && c.current[j].name == name ==> c.current[j].uid == uid)
        && (forall i: nat :: GaveRole(c, i) && c.probed[i].name == name ==>
              !c.results[i].status.isPrimary.value && c.probed[i].uid != uid))
  }

  lemma CountsIff(c: Collection, i: nat)
    requires c.WellFormed() && i < |c.probed|
    ensures Counts(c, i) <==> GaveRole(c, i)
  {
  }

  lemma ReportsByClaim(e: Option<Claims>, c: Collection, name: string, uid: string)
    requires c.WellFormed()
    ensures var after := Reports(DropReplaced(Carried(e, c.cluster.uid), c.current), c.current, c.probed, c.results);
            name in after && after[name] == uid <==> Held(e, c, name, uid)
  {
    var kept := DropReplaced(Carried(e, c.cluster.uid), c.current);
    if i: nat :| i < |c.probed| && c.probed[i].name == name && GaveRole(c, i) {
      CountsIff(c, i);
      assert c.probed[..|c.probed|] == c.probed && c.results[..|c.probed|] == c.results;
      ReportDecidesClaim(kept, c, i, |c.probed|);
      assert forall k: nat :: GaveRole(c, k) && c.probed[k].name == name ==> k == i;
    } else {
      forall i | 0 <= i < |c.probed| && c.probed[i].name == name
        ensures Replaced(c.current, name, c.probed[i].uid) || c.results[i].failed || c.results[i].status.isPrimary.None?
      {
        assert !GaveRole(c, i);
      }
      UnreportedClaimStays(kept, c.current, c.probed, c.results, name);
    }
  }

  /** The evidence after a collection: the claims that are held, unless the only one is by the primary that
      was expected when it started. */
  lemma EvidenceByClaim(e: Option<Claims>, c: Collection, name: string, uid: string)
    requires c.WellFormed()
    ensures var after := Collected(e, c);
            && after.clusterUID == c.cluster.uid
            && (name in after.members && after.members[name] == uid <==>
                  Held(e, c, name, uid) && exists n, u :: Held(e, c, n, u) && n != c.observed.currentPrimary)
  {
    var held := Reports(DropReplaced(Carried(e, c.cluster.uid), c.current), c.current, c.probed, c.results);
    forall n, u
      ensures n in held && held[n] == u <==> Held(e, c, n, u)
    {
      ReportsByClaim(e, c, n, u);
    }
    if name in held && held[name] == uid {
      assert Held(e, c, name, uid);
      if held.Keys != {c.observed.currentPrimary} {
        if name == c.observed.currentPrimary {
          var n :| n in held.Keys && n != c.observed.currentPrimary;
          assert Held(e, c, n, held[n]);
        }
      } else {
        assert forall n, u :: Held(e, c, n, u) ==> n in held.Keys;
      }
    }
  }

  /** The annotation fences the pod, by name or with all others. */
  predicate FencedOff(f: Fencing, name: string) {
    f.Fenced? && ("*" in f.names || name in f.names)
  }

  /** Some recorded claim is by a pod that is neither the current primary nor fenced off. */
  ghost predicate Challenged(e: Claims, cluster: Cluster) {
    exists n :: n in e.members && n != cluster.currentPrimary && !FencedOff(cluster.fencing, n)
  }

  /** The verdict: a conflict exactly if the annotation is malformed or the current primary is challenged. A
      fence suppresses the claims of those it fences off, and an empty annotation is no fence. */
  lemma ConflictIff(e: Claims, cluster: Cluster)
    ensures Conflicts(e, cluster) <==> cluster.fencing.Malformed? || Challenged(e, cluster)
  {
    if !cluster.fencing.Malformed? {
      var names := EvidenceFence(cluster.fencing).value;
      forall n
        ensures Fences(names, n) <==> FencedOff(cluster.fencing, n)
      {
      }
    }
  }
}

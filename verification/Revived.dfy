/** A run that leaves a record for a disabled Cluster, with every Cluster event handled. */
module Revived {
  import opened Keys
  import opened Metadata
  import opened Slices
  import opened Protocol
  import opened Pending
  import opened Stray
  import P = Protocol

  const DISABLED := FIRST.(enabled := false)

  const WITH_POD: seq<Action> := [PodChanges("a", Some(POD)), HandlePod(1, false)]
  const WITHOUT_CLUSTER: seq<Action> := [ClusterChanges(Some(DISABLED)), HandleCluster(2, false)]
  const WITHOUT_POD: seq<Action> := [PodChanges("a", None), HandlePod(2, false)]

  lemma ToWithPod(w: World)
    requires Holds(w, [None, Some(FIRST)], 1, [map[]], [], 0)
    ensures Holds(P.Run(w, WITH_POD), [None, Some(FIRST)], 1, [map[], map["a" := POD]], ["a"], 1)
  {
    RunTwo(w, WITH_POD[0], WITH_POD[1]);
    assert Holds(Next(w, WITH_POD[0]), [None, Some(FIRST)], 1, [map[], map["a" := POD]], ["a"], 0);
  }

  lemma ToDisabled(w: World)
    requires Holds(w, [None, Some(FIRST)], 1, [map[], map["a" := POD]], ["a"], 1)
    ensures var v := P.Run(w, WITHOUT_CLUSTER);
            && v.key == KEY && v.clusters == [None, Some(FIRST), Some(DISABLED)] && v.handled == 2 == v.seen
            && v.pods == [map[], map["a" := POD]] && v.podNames == ["a"] && v.podsHandled == 1 && v.podsSeen == 1
            && v.slice.record.None?
  {
    RunTwo(w, WITHOUT_CLUSTER[0], WITHOUT_CLUSTER[1]);
    assert Holds(Next(w, WITHOUT_CLUSTER[0]), [None, Some(FIRST), Some(DISABLED)], 1, [map[], map["a" := POD]], ["a"],
           1);
  }

  /** The Cluster is disabled, its event handled and its record gone; then the primary's pod goes, and
      there is a record again. */
  lemma DisabledClusterHasARecord()
    ensures Revivable(Reached(KNOWN + WITH_POD + WITHOUT_CLUSTER), "a")
    ensures Strays(Reached(KNOWN + WITH_POD + WITHOUT_CLUSTER + WITHOUT_POD))
  {
    var start := P.Start(KEY, OPTIONS, 0);
    ToKnown(start);
    RunAppend(start, KNOWN, WITH_POD);
    ToWithPod(Reached(KNOWN));
    RunAppend(start, KNOWN + WITH_POD, WITHOUT_CLUSTER);
    ToDisabled(Reached(KNOWN + WITH_POD));
    RunAppend(start, KNOWN + WITH_POD + WITHOUT_CLUSTER, WITHOUT_POD);
    DisabledIsRevivable(Reached(KNOWN + WITH_POD + WITHOUT_CLUSTER));
    RevivableIsRevived(Reached(KNOWN + WITH_POD + WITHOUT_CLUSTER), "a", false);
  }

  lemma DisabledIsRevivable(w: World)
    requires w.key == KEY && w.clusters == [None, Some(FIRST), Some(DISABLED)] && w.handled == 2 == w.seen
    requires w.pods == [map[], map["a" := POD]] && w.podNames == ["a"] && w.podsHandled == 1 && w.podsSeen == 1
    requires w.slice.record.None?
    ensures Revivable(w, "a")
  {
  }
}

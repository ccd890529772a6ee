/**
  A run in which a live Cluster's evidence is forgotten unreleased: an observation of the recreated
  Cluster records a claim while events of its predecessor are still to be handled, and the first of
  them finds the record of another incarnation.
 */
module Forgotten {
  import opened Keys
  import opened Metadata
  import opened Topology
  import opened Evidence
  import opened Slices
  import opened Informers
  import opened Protocol
  import opened Memory
  import opened Pending
  import P = Protocol

  const RECREATED := FIRST.(uid := "v", currentPrimary := "b", targetPrimary := "b")
  const STRAY := POD.(name := "x", uid := "px")
  const COLLECTED := Observation(RECREATED, [STRAY], [PROBE], CERTIFICATE, 0, false, true)
  const CLUSTERS: Clusters := [None, Some(FIRST), Some(FIRST), None, Some(RECREATED)]

  const REMOVAL: seq<Action> := [ClusterChanges(Some(FIRST)), ClusterChanges(None)]
  const RECREATION: seq<Action> := [ClusterChanges(Some(RECREATED)), Publish(COLLECTED, 4, 0, [], true, false)]

  lemma ToRemoval(w: World)
    requires Holds(w, [None, Some(FIRST)], 1, [map[]], [], 0) && w.slice.claims == None
             && w.slice.worker == Observing(false)
    ensures var v := P.Run(w, REMOVAL);
            && Holds(v, CLUSTERS[..4], 1, [map[]], [], 0) && v.slice == w.slice
  {
    RunTwo(w, REMOVAL[0], REMOVAL[1]);
    assert CLUSTERS[..4] == [None, Some(FIRST)] + [Some(FIRST)] + [None];
  }

  /** The stray primary is recorded, and the record is of the recreated Cluster. */
  lemma StrayIsRecorded(s: Slice)
    requires s.claims == None
    ensures var t := s.Publish(COLLECTED, Some(RECREATED), [], true, 0, OPTIONS, false, true);
            && t.claims == Some(Claims("v", map["x" := "px"])) && t.record.Some? && t.record.value.cluster.uid == "v"
  {
    var c := Collection(RECREATED, RECREATED, [STRAY], [], [PROBE]);
    assert [STRAY][..0] == [] && [PROBE][..0] == [];
    assert DropReplaced(map[], []) == map[];
    assert Reports(map[], [], [STRAY], [PROBE]) == map["x" := "px"];
    assert "x" in map["x" := "px"].Keys && "x" !in {"b"};
    assert Collected(None, c) == Claims("v", map["x" := "px"]);
    PublishRecords(s, COLLECTED, Some(RECREATED), [], true, 0, OPTIONS, false, true);
  }

  lemma RecordingStep(w: World)
    requires w.key == KEY && w.opts == OPTIONS && w.now == 0 && w.clusters == CLUSTERS && w.seen <= 4
             && w.pods == [map[]] && w.podsSeen == 0
    requires w.slice.claims == None && w.slice.worker == Observing(false)
    ensures Next(w, RECREATION[1]) == PublishedBy(w, COLLECTED, 4, 0, [], true, false)
  {
    assert IsPodList([], w.pods[0], KEY, "v");
    assert Possible(w, RECREATION[1]);
  }

  lemma ToRecreation(w: World)
    requires Holds(w, CLUSTERS[..4], 1, [map[]], [], 0) && w.slice.claims == None && w.slice.worker == Observing(false)
    ensures var v := P.Run(w, RECREATION);
            && v.clusters == CLUSTERS && v.handled == 1 && v.seen == 4
            && v.slice.claims == Some(Claims("v", map["x" := "px"])) && v.slice.record.Some?
               && v.slice.record.value.cluster.uid == "v"
  {
    RunTwo(w, RECREATION[0], RECREATION[1]);
    assert CLUSTERS[..4] + [Some(RECREATED)] == CLUSTERS;
    RecordingStep(Next(w, RECREATION[0]));
    StrayIsRecorded(w.slice);
  }

  /** The claim of the Cluster that the informer holds now is dropped by a handler that runs late,
      though nothing released it. */
  lemma LiveClaimIsForgotten()
    ensures var w := Reached(KNOWN + WANTED + TAKEN + BEGUN + REMOVAL + RECREATION);
            && w.clusters == CLUSTERS && CLUSTERS[4] == Some(RECREATED) && RECREATED.Active()
            && BookOf(w.slice.claims, RECREATED.uid) && "x" in w.slice.claims.value.members
            && Next(w, HandleCluster(4, false)).slice.claims == None
  {
    var start := P.Start(KEY, OPTIONS, 0);
    ToKnown(start);
    RunAppend(start, KNOWN, WANTED);
    ToWanted(Reached(KNOWN));
    RunAppend(start, KNOWN + WANTED, TAKEN);
    ToTaken(Reached(KNOWN + WANTED));
    RunAppend(start, KNOWN + WANTED + TAKEN, BEGUN);
    ToBegun(Reached(KNOWN + WANTED + TAKEN));
    RunAppend(start, KNOWN + WANTED + TAKEN + BEGUN, REMOVAL);
    ToRemoval(Reached(KNOWN + WANTED + TAKEN + BEGUN));
    RunAppend(start, KNOWN + WANTED + TAKEN + BEGUN + REMOVAL, RECREATION);
    ToRecreation(Reached(KNOWN + WANTED + TAKEN + BEGUN + REMOVAL));
    LateEventForgets(Reached(KNOWN + WANTED + TAKEN + BEGUN + REMOVAL + RECREATION));
  }

  lemma LateEventForgets(w: World)
    requires w.clusters == CLUSTERS && w.handled == 1 && w.seen == 4
    requires BookOf(w.slice.claims, "v") && w.slice.record.Some? && w.slice.record.value.cluster.uid == "v"
    ensures Next(w, HandleCluster(4, false)).slice.claims == None
  {
    HandledClusterClaims(w, 4, false);
  }
}

/**
  When an available record names a primary that is not ready. One kind of step makes it so, and its
  condition is exact: a pod event reads a Cluster whose current primary has moved on, and takes the
  lost pod of the old primary for a mere member.
 */
module Unready {
  import opened Keys
  import opened Api
  import opened Metadata
  import opened Slices
  import opened Protocol
  import opened Quiescence
  import P = Protocol

  /** An offered record's primary is not ready. */
  ghost predicate OffersUnready(record: Option<Snapshot>) {
    Offers(record) && !PrimaryReady(record.value)
  }

  ghost predicate OffersReady(record: Option<Snapshot>) {
    Offers(record) && PrimaryReady(record.value)
  }

  /** The event loses the route of the record's primary, and the Cluster read is the record's with
      another current primary; the commit is in time and the record not expired. */
  predicate Demotes(key: ClusterKey, was: Option<Pod>, pod: Option<Pod>, cluster: Option<Cluster>, x: Snapshot,
                    now: int, late: bool) {
    && Loses(key, was, pod, cluster) && was.value.uid == x.primaryID
    && cluster.value.uid == x.cluster.uid && cluster.value.currentPrimary != was.value.name
    && !late && now < x.validUntil
  }

  lemma MarkedIsUnready(x: Snapshot, id: string)
    requires PrimaryReady(x)
    ensures PrimaryReady(x.(members := MarkMembers(x.members, id))) <==> id != x.primaryID
  {
    var y := x.(members := MarkMembers(x.members, id));
    var i :| 0 <= i < |x.members| && x.members[i].id == x.primaryID && x.members[i].ready;
    if id != x.primaryID {
      assert y.members[i] == x.members[i];
    }
  }

  /** What is left of an offered record when a member changes. */
  lemma MemberChangedLeaves(s: Slice, cluster: Cluster, id: string, now: int, late: bool)
    requires Offers(s.record)
    ensures var x, t := s.record.value, s.MemberChanged(cluster, id, now, late).record;
            if now >= x.validUntil then !Offers(t)
            else if x.cluster.uid != cluster.uid then t == s.record
            else if late then !Offers(t)
            else t == Some(x.(apiVersion := API_VERSION, members := MarkMembers(x.members, id)))
  {
  }

  /** A pod event turns an available record with a ready primary into one without exactly then. */
  lemma PodEventDemotesIff(s: Slice, key: ClusterKey, was: Option<Pod>, pod: Option<Pod>, cluster: Option<Cluster>,
                           now: int, opts: Options, late: bool, present: bool)
    requires OffersReady(s.record)
    ensures OffersUnready(s.PodEvent(key, was, pod, cluster, now, opts, late, present).record) <==>
              Demotes(key, was, pod, cluster, s.record.value, now, late)
  {
    var t := s.PodEvent(key, was, pod, cluster, now, opts, late, present);
    if Loses(key, was, pod, cluster) {
      assert t.record == s.PodRouteChanged(was.value, cluster.value, now, opts, late).record;
      if was.value.name != cluster.value.currentPrimary {
        MemberChangedLeaves(s, cluster.value, was.value.uid, now, late);
        MarkedIsUnready(s.record.value, was.value.uid);
      }
    } else {
      assert t.record == s.record;
    }
  }

  /** The next pod event demotes, if handled with that read. */
  predicate NextEventDemotes(w: World, read: nat, late: bool) {
    && w.podsHandled < |w.podNames| && w.podsHandled + 1 < |w.pods| && read < |w.clusters| && w.slice.record.Some?
    && var j, name := w.podsHandled, w.podNames[w.podsHandled];
       Demotes(w.key, At(w.pods[j], name), At(w.pods[j + 1], name), w.clusters[read], w.slice.record.value, w.now, late)
  }

  ghost predicate DemotingStep(w: World, a: Action) {
    a.HandlePod? && Possible(w, a) && NextEventDemotes(w, a.read, a.late)
  }

  lemma HandledPodIs(w: World, read: nat, late: bool, j: nat, name: string)
    requires j == w.podsHandled < |w.podNames| && w.podNames[j] == name && j + 1 < |w.pods| && read < |w.clusters|
    ensures HandledPod(w, read, late).slice ==
            w.slice.PodEvent(w.key, At(w.pods[j], name), At(w.pods[j + 1], name), w.clusters[read], w.now, w.opts, late,
                Present(w))
  {
  }

  lemma HandledPodDemotesAt(w: World, read: nat, late: bool, j: nat, name: string, was: Option<Pod>, pod: Option<Pod>)
    requires OffersReady(w.slice.record)
    requires j == w.podsHandled < |w.podNames| && w.podNames[j] == name && j + 1 < |w.pods| && read < |w.clusters|
    requires was == At(w.pods[j], name) && pod == At(w.pods[j + 1], name)
    ensures OffersUnready(HandledPod(w, read, late).slice.record) <==>
              Demotes(w.key, was, pod, w.clusters[read], w.slice.record.value, w.now, late)
  {
    HandledPodIs(w, read, late, j, name);
    PodEventDemotesIff(w.slice, w.key, was, pod, w.clusters[read], w.now, w.opts, late, Present(w));
  }

  lemma NextEventIs(w: World, read: nat, late: bool, j: nat, name: string)
    requires w.slice.record.Some?
    requires j == w.podsHandled < |w.podNames| && w.podNames[j] == name && j + 1 < |w.pods| && read < |w.clusters|
    ensures NextEventDemotes(w, read, late) <==>
              Demotes(w.key, At(w.pods[j], name), At(w.pods[j + 1], name), w.clusters[read], w.slice.record.value,
                  w.now, late)
  {
  }

  /** No other step does: the primary of an offered record stops being ready exactly by such an event. */
  lemma StepDemotesIff(w: World, a: Action)
    requires OffersReady(w.slice.record)
    ensures OffersUnready(Next(w, a).slice.record) <==> DemotingStep(w, a)
  {
    if a.HandlePod? && Possible(w, a) {
      assert Next(w, a) == HandledPod(w, a.read, a.late);
      var j, name := w.podsHandled, w.podNames[w.podsHandled];
      HandledPodDemotesAt(w, a.read, a.late, j, name, At(w.pods[j], name), At(w.pods[j + 1], name));
      NextEventIs(w, a.read, a.late, j, name);
    } else if Offers(Next(w, a).slice.record) {
      OtherStepsKeepPrimary(w, a);
    }
  }

  lemma VerifiedPrimaryIsReady(w: World, a: Action)
    requires Verifies(w, a)
    ensures PrimaryReady(Next(w, a).slice.record.value)
  {
    CommitPictures(w.slice, a.o, w.clusters[a.read].value, a.list, a.caCurrent, Next(w, a).slice.record.value);
  }

  lemma OtherStepsKeepPrimary(w: World, a: Action)
    requires Offers(Next(w, a).slice.record) && !(a.HandlePod? && Possible(w, a))
    requires OffersReady(w.slice.record)
    ensures PrimaryReady(Next(w, a).slice.record.value)
  {
    StepOffers(w, a);
    if Verifies(w, a) {
      VerifiedPrimaryIsReady(w, a);
    }
  }

  // ---- Every run ----

  /** In every run, an available record whose primary is not ready goes back to a demoting step. */
  lemma {:induction false} UnreadyWasDemoted(w: World, actions: seq<Action>) returns (k: nat)
    requires !OffersUnready(w.slice.record) && OffersUnready(P.Run(w, actions).slice.record)
    ensures k < |actions|
    ensures var v := P.Run(w, actions[..k]); OffersReady(v.slice.record) && DemotingStep(v, actions[k])
    decreases actions
  {
    var v := Next(w, actions[0]);
    if OffersUnready(v.slice.record) {
      k := 0;
      assert actions[..0] == [];
      FirstDemotion(w, actions[0]);
    } else {
      var j := UnreadyWasDemoted(v, actions[1..]);
      k := j + 1;
      assert actions[..k][1..] == actions[1..][..j];
    }
  }

  lemma FirstDemotion(w: World, a: Action)
    requires !OffersUnready(w.slice.record) && OffersUnready(Next(w, a).slice.record)
    ensures OffersReady(w.slice.record) && DemotingStep(w, a)
  {
    StepOffers(w, a);
    if Verifies(w, a) {
      VerifiedPrimaryIsReady(w, a);
    } else {
      StepDemotesIff(w, a);
    }
  }

  /** The primary of an offered record can be demoted: its pod is there and every pod event handled,
      the record is not expired, and some content that handlers may read is of the same Cluster but
      with another current primary. */
  ghost predicate Demotable(w: World, name: string, read: nat) {
    && OffersReady(w.slice.record) && w.now < w.slice.record.value.validUntil
    && w.podsHandled + 1 == |w.pods| && |w.pods| == |w.podNames| + 1 && name in w.pods[w.podsHandled]
    && Reads(w, read) && w.clusters[read].Some?
    && w.clusters[read].value.uid == w.slice.record.value.cluster.uid && w.clusters[read].value.currentPrimary != name
    && var pod := w.pods[w.podsHandled][name];
       pod.name == name && pod.uid == w.slice.record.value.primaryID && PodCluster(pod) == Some(w.key)
  }

  /** From every world in which it can be, deleting the pod and handling that event demotes it. */
  lemma DemotableIsDemoted(w: World, name: string, read: nat)
    requires Demotable(w, name, read)
    ensures OffersUnready(P.Run(w, [PodChanges(name, None), HandlePod(read, false)]).slice.record)
  {
    var change, handle := PodChanges(name, None), HandlePod(read, false);
    var v := Next(w, change);
    PodVanishes(w, name);
    StepDemotesIff(v, handle);
    assert [change, handle][1..] == [handle] && [handle][1..] == [];
    assert P.Run(w, [change, handle]) == P.Run(v, [handle]) == P.Run(Next(v, handle), []);
  }
}

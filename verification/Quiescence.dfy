/**
  Once no metadata handler is outstanding, an available record describes the routes that the
  informers hold now, in every interleaving of the protocol.
 */
module Quiescence {
  import opened Keys
  import opened Api
  import opened Metadata
  import opened Evidence
  import opened Slices
  import opened Commits
  import opened Informers
  import opened Protocol
  import P = Protocol

  // ---- Where an available record comes from ----

  /** The record was built from this Cluster and primary pod, while the informers held them. */
  ghost predicate Anchored(key: ClusterKey, h: Clusters, seen: nat, p: Pods, podsSeen: nat, src: Source, x: Snapshot) {
    && src.Source? && src.clusterIndex <= seen < |h| && src.podIndex <= podsSeen < |p|
    && h[src.clusterIndex] == Some(src.cluster) && src.cluster.params.Some? && src.cluster.Active()
    && src.cluster.Key() == key && src.primary.name == src.cluster.currentPrimary
       && At(p[src.podIndex], src.primary.name) == Some(src.primary)
    && x.cluster == src.cluster.Ref() && x.primaryID == src.primary.uid
  }

  /** The Cluster was not moving its primary, its annotation parsed, and the record's connection is of that
      Cluster and of the CA that the observation retained. */
  ghost predicate Grounded(src: Source, x: Snapshot) {
    && src.Source? && ClusterAlike(src.observation.observed, src.cluster)
    && src.cluster.currentPrimary == src.cluster.targetPrimary != ""
    && (src.cluster.fencing.Unfenced? || src.cluster.fencing.Fenced?)
    && x.connection.database == src.cluster.database && x.connection.serverCAPEM == src.observation.ca.public
  }

  /** The published member is a serving pod of the Cluster in that content, not fenced off, at the addresses
      that the Cluster gives it, and a usable probe of the observation was of that very pod. */
  ghost predicate Lists(key: ClusterKey, q: map<string, Pod>, c: Cluster, o: Observation, m: Member) {
    && m.name in q && Describes(m, q[m.name], c)
    && !c.fencing.Malformed? && !FencedOff(c.fencing, m.name)
    && BelongsTo(q[m.name], key) && Serving(q[m.name]) && Backed(o, q[m.name])
  }

  ghost predicate ReadyListed(key: ClusterKey, q: map<string, Pod>, c: Cluster, o: Observation, members: seq<Member>) {
    forall i :: 0 <= i < |members| && members[i].ready ==> Lists(key, q, c, o, members[i])
  }

  /** No handled event moved the Cluster away from the source, or the only one was a deletion that
      was ignored because a replacement is already there. */
  ghost predicate ClusterHolds(h: Clusters, handled: nat, from: nat) {
    || KeepsRouteBetween(h, from, handled)
    || (from < handled < |h| - 1 && h[handled].None?)
  }

  /** No handled event changed the route of a member that is still ready. */
  ghost predicate MembersHold(p: Pods, from: nat, podsHandled: nat, members: seq<Member>) {
    forall i :: 0 <= i < |members| && members[i].ready ==> KeepsPodBetween(p, from, podsHandled, members[i].name)
  }

  ghost predicate PrimaryReady(x: Snapshot) {
    exists i :: 0 <= i < |x.members| && x.members[i].id == x.primaryID && x.members[i].ready
  }

  ghost predicate Sound(w: World) {
    Offers(w.slice.record) ==>
      var x := w.slice.record.value;
      && Anchored(w.key, w.clusters, w.seen, w.pods, w.podsSeen, w.source, x)
      && Grounded(w.source, x)
      && ReadyListed(w.key, w.pods[w.source.podIndex], w.source.cluster, w.source.observation, x.members)
      && ClusterHolds(w.clusters, w.handled, w.source.clusterIndex)
      && (|| Reroutes(w.clusters, w.source.clusterIndex)
          || (MembersHold(w.pods, w.source.podIndex, w.podsHandled, x.members) && PrimaryReady(x)))
  }

  ghost predicate ChangesOnly(p: Pods, j: nat, name: string) {
    j < |p| - 1 && forall n :: n != name ==> At(p[j], n) == At(p[j + 1], n)
  }

  /** Each pod event changes the pod it names and no other. */
  ghost predicate OnePodEach(p: Pods, names: seq<string>) {
    && |p| == |names| + 1
    && (forall j :: 0 <= j < |names| ==> ChangesOnly(p, j, names[j]))
  }

  /** Nothing is deleted twice in a row. */
  ghost predicate Alternates(h: Clusters) {
    forall i :: 0 <= i < |h| - 1 ==> h[i].Some? || h[i + 1].Some?
  }

  ghost predicate Keyed(h: Clusters, key: ClusterKey) {
    forall i :: 0 <= i < |h| && h[i].Some? ==> h[i].value.Key() == key
  }

  /** What the API server guarantees of the contents. */
  ghost predicate Contents(h: Clusters, p: Pods, names: seq<string>, key: ClusterKey) {
    FreshUIDs(h) && TextsAgree(h) && Alternates(h) && Keyed(h, key) && PodsOk(p, key) && OnePodEach(p, names)
  }

  ghost predicate Basics(w: World) {
    Positions(w) && Contents(w.clusters, w.pods, w.podNames, w.key)
  }

  // ---- Basics ----

  lemma ClusterChangeKeepsContents(h: Clusters, p: Pods, names: seq<string>, key: ClusterKey, c: Option<Cluster>)
    requires Contents(h, p, names, key) && MayBecome(h, key, c)
    ensures Contents(h + [c], p, names, key)
  {
    ChangeKeepsUIDs(h, key, c);
    ChangeKeepsTexts(h, key, c);
  }

  lemma ChangeKeepsUIDs(h: Clusters, key: ClusterKey, c: Option<Cluster>)
    requires FreshUIDs(h) && MayBecome(h, key, c)
    ensures FreshUIDs(h + [c])
  {
  }

  lemma ChangeKeepsTexts(h: Clusters, key: ClusterKey, c: Option<Cluster>)
    requires TextsAgree(h) && MayBecome(h, key, c)
    ensures TextsAgree(h + [c])
  {
  }

  lemma PodChangeKeepsContents(h: Clusters, p: Pods, names: seq<string>, key: ClusterKey, name: string,
                               pod: Option<Pod>)
    requires Contents(h, p, names, key) && PodMayBecome(p, key, name, pod)
    ensures Contents(h, p + [PodsAfter(p[|p| - 1], name, pod)], names + [name], key)
  {
    PodBecomeKeepsOk(p, key, name, pod);
    PodChangeIsOne(p, names, name, pod);
  }

  /** Only the informers change contents. */
  ghost predicate ContentStep(w: World, v: World, a: Action) {
    && v.key == w.key
    && match a
       case ClusterChanges(c) =>
         MayBecome(w.clusters, w.key, c) && v.clusters == w.clusters + [c] && v.pods == w.pods
             && v.podNames == w.podNames
       case PodChanges(name, pod) =>
         && PodMayBecome(w.pods, w.key, name, pod) && v.clusters == w.clusters
         && v.pods == w.pods + [PodsAfter(w.pods[|w.pods| - 1], name, pod)] && v.podNames == w.podNames + [name]
       case _ => v.clusters == w.clusters && v.pods == w.pods && v.podNames == w.podNames
  }

  lemma NextContents(w: World, a: Action)
    ensures Next(w, a) == w || ContentStep(w, Next(w, a), a)
  {
  }

  lemma ContentStepKeeps(w: World, v: World, a: Action)
    requires Contents(w.clusters, w.pods, w.podNames, w.key) && ContentStep(w, v, a)
    ensures Contents(v.clusters, v.pods, v.podNames, v.key)
  {
    match a
    case ClusterChanges(c) => ClusterChangeKeepsContents(w.clusters, w.pods, w.podNames, w.key, c);
    case PodChanges(name, pod) => PodChangeKeepsContents(w.clusters, w.pods, w.podNames, w.key, name, pod);
    case _ =>
  }

  lemma StepKeepsBasics(w: World, a: Action)
    requires Basics(w)
    ensures Basics(Next(w, a))
  {
    StepKeepsPositions(w, a);
    NextContents(w, a);
    if Next(w, a) != w {
      ContentStepKeeps(w, Next(w, a), a);
    }
  }

  lemma PodChangeIsOne(p: Pods, names: seq<string>, name: string, pod: Option<Pod>)
    requires OnePodEach(p, names)
    ensures OnePodEach(p + [PodsAfter(p[|p| - 1], name, pod)], names + [name])
  {
  }

  // ---- Steps that change no content and handle no event ----

  /** Nothing becomes available, or stays so with another content. */
  ghost predicate OnlyWithdraws(before: Option<Snapshot>, after: Option<Snapshot>) {
    Offers(after) ==> after == before
  }

  lemma WithdrawalKeepsSound(w: World, v: World)
    requires Sound(w) && OnlyWithdraws(w.slice.record, v.slice.record)
    requires v.key == w.key && v.clusters == w.clusters && v.handled == w.handled && w.seen <= v.seen < |v.clusters|
    requires v.pods == w.pods && v.podsHandled == w.podsHandled && w.podsSeen <= v.podsSeen < |v.pods|
    requires v.source == w.source
    ensures Sound(v)
  {
  }

  lemma SecretWithdraws(s: Slice, cluster: Cluster, now: int, opts: Options, late: bool, present: bool)
    ensures OnlyWithdraws(s.record, s.SecretEvent(cluster, now, opts, late, present).record)
  {
  }

  lemma FailureWithdraws(s: Slice, cancelled: bool, latest: Option<Cluster>, reason: string, now: int, opts: Options,
                         late: bool)
    ensures OnlyWithdraws(s.record, s.PublishFailure(cancelled, latest, reason, now, opts, late).record)
  {
  }

  // ---- The informers change ----

  lemma ClusterChangeKeepsSound(w: World, c: Option<Cluster>)
    requires Basics(w) && Sound(w)
    ensures Sound(w.(clusters := w.clusters + [c]))
  {
    if Offers(w.slice.record) {
      GrowsReroutes(w.clusters, c, w.source.clusterIndex);
      ChangeKeepsHolds(w.clusters, c, w.handled, w.source.clusterIndex);
    }
  }

  lemma ChangeKeepsHolds(h: Clusters, c: Option<Cluster>, handled: nat, from: nat)
    requires handled < |h| && ClusterHolds(h, handled, from)
    ensures ClusterHolds(h + [c], handled, from)
  {
    GrowsReroutes(h, c, from);
    if KeepsRouteBetween(h, from, handled) {
      forall i | from <= i < handled
        ensures KeepsRoute(h + [c], i)
      {
        assert KeepsRoute(h, i);
      }
    }
  }

  lemma PodChangeKeepsSound(w: World, q: map<string, Pod>, names: seq<string>)
    requires Basics(w) && Sound(w)
    ensures Sound(w.(pods := w.pods + [q], podNames := names))
  {
    if Offers(w.slice.record) {
      if MembersHold(w.pods, w.source.podIndex, w.podsHandled, w.slice.record.value.members) {
        PodChangeKeepsHold(w.pods, q, w.source.podIndex, w.podsHandled, w.slice.record.value.members);
      }
    }
  }

  lemma PodChangeKeepsHold(p: Pods, q: map<string, Pod>, from: nat, podsHandled: nat, members: seq<Member>)
    requires MembersHold(p, from, podsHandled, members)
    ensures MembersHold(p + [q], from, podsHandled, members)
  {
    forall i, j | 0 <= i < |members| && members[i].ready && from <= j < podsHandled
      ensures KeepsPod(p + [q], j, members[i].name)
    {
      assert KeepsPod(p, j, members[i].name);
    }
  }

  // ---- The Cluster handlers ----

  /** What can still be offered after a Cluster event. */
  lemma ClusterEventRecord(s: Slice, was: Option<Cluster>, cluster: Cluster, now: int, opts: Options, late: bool,
                           present: bool)
    ensures var t := s.ClusterEvent(was, cluster, now, opts, late, present).record;
            Offers(t) ==> t == s.record && t.value.cluster.uid == cluster.uid
                          && (was.Some? ==> SameClusterRoute(was.value, cluster))
  {
  }

  lemma ClusterEventHolds(h: Clusters, handled: nat, from: nat)
    requires FreshUIDs(h) && handled + 1 < |h| && from < |h| && h[from].Some? && h[handled + 1].Some?
    requires h[from].value.uid == h[handled + 1].value.uid
    requires h[handled].Some? ==> SameClusterRoute(h[handled].value, h[handled + 1].value)
    requires ClusterHolds(h, handled, from)
    ensures ClusterHolds(h, handled + 1, from)
  {
  }

  lemma DeletionHolds(h: Clusters, handled: nat, from: nat, read: nat)
    requires handled + 1 < read < |h| && h[handled + 1].None?
    ensures ClusterHolds(h, handled + 1, from)
  {
  }

  /** What can still be offered after a Cluster event or a deletion. */
  predicate ClusterOutcome(was: Option<Cluster>, cluster: Option<Cluster>, current: Option<Cluster>,
                           before: Option<Snapshot>, after: Option<Snapshot>) {
    Offers(after) ==>
      && after == before
      && (cluster.Some? ==>
            after.value.cluster.uid == cluster.value.uid && (was.Some? ==> SameClusterRoute(was.value, cluster.value)))
      && (cluster.None? && was.Some? ==> current.Some? && current.value.uid != was.value.uid)
  }

  lemma HandledClusterOutcome(w: World, read: nat, late: bool, i: nat, was: Option<Cluster>, cluster: Option<Cluster>)
    requires i == w.handled && i + 1 < |w.clusters| && read < |w.clusters| && was == w.clusters[i]
             && cluster == w.clusters[i + 1]
    ensures ClusterOutcome(was, cluster, w.clusters[read], w.slice.record, HandledCluster(w, read, late).slice.record)
  {
    if cluster.Some? {
      ClusterEventRecord(w.slice, was, cluster.value, w.now, w.opts, late, Present(w));
    }
  }

  lemma ClusterOutcomeKeepsSound(w: World, v: World, read: nat, i: nat)
    requires Basics(w) && Sound(w) && i == w.handled && i + 1 < |w.clusters| && i + 1 <= read && Reads(w, read)
    requires ClusterOutcome(w.clusters[i], w.clusters[i + 1], w.clusters[read], w.slice.record, v.slice.record)
    requires v.key == w.key && v.clusters == w.clusters && v.handled == i + 1 && w.seen <= v.seen < |v.clusters|
    requires v.pods == w.pods && v.podsHandled == w.podsHandled && w.podsSeen <= v.podsSeen < |v.pods|
    requires v.source == w.source
    ensures Sound(v)
  {
    var h := w.clusters;
    if Offers(v.slice.record) {
      if h[i + 1].Some? {
        ClusterEventHolds(h, i, w.source.clusterIndex);
      } else {
        assert h[i].Some? && read != i + 1;
        DeletionHolds(h, i, w.source.clusterIndex, read);
      }
    }
  }

  lemma HandleClusterKeepsSound(w: World, read: nat, late: bool)
    requires Basics(w) && Sound(w) && w.handled + 1 < |w.clusters| && w.handled + 1 <= read && Reads(w, read)
    ensures Sound(HandledCluster(w, read, late))
  {
    HandledClusterOutcome(w, read, late, w.handled, w.clusters[w.handled], w.clusters[w.handled + 1]);
    ClusterOutcomeKeepsSound(w, HandledCluster(w, read, late), read, w.handled);
  }

  // ---- The Pod handler ----

  predicate SamePrimary(x: Snapshot, y: Snapshot) {
    y.cluster == x.cluster && y.primaryID == x.primaryID && y.connection == x.connection
  }

  lemma MemberChangedRecord(s: Slice, cluster: Cluster, id: string, now: int, late: bool)
    ensures
      var t := s.MemberChanged(cluster, id, now, late).record;
      Offers(t) ==>
        && Offers(s.record) && SamePrimary(s.record.value, t.value)
        && t.value.members == if s.record.value.cluster.uid == cluster.uid then MarkMembers(s.record.value.members, id)
                              else s.record.value.members
  {
  }

  /** What can still be offered after a Pod event. */
  predicate PodOutcome(key: ClusterKey, was: Option<Pod>, pod: Option<Pod>, cluster: Option<Cluster>,
                       before: Option<Snapshot>, after: Option<Snapshot>) {
    Offers(after) ==>
      && Offers(before) && SamePrimary(before.value, after.value)
      && (Loses(key, was, pod, cluster) ==> was.value.name != cluster.value.currentPrimary)
      && after.value.members ==
         if Loses(key, was, pod, cluster) && before.value.cluster.uid == cluster.value.uid
         then MarkMembers(before.value.members, was.value.uid) else before.value.members
  }

  lemma PodEventRecord(s: Slice, key: ClusterKey, was: Option<Pod>, pod: Option<Pod>, cluster: Option<Cluster>,
                       now: int, opts: Options, late: bool, present: bool)
    ensures PodOutcome(key, was, pod, cluster, s.record,
            s.PodEvent(key, was, pod, cluster, now, opts, late, present).record)
  {
    var t := s.PodEvent(key, was, pod, cluster, now, opts, late, present);
    if Loses(key, was, pod, cluster) {
      assert t.record == s.PodRouteChanged(was.value, cluster.value, now, opts, late).record;
      MemberChangedRecord(s, cluster.value, was.value.uid, now, late);
    } else {
      assert t.record == s.record;
    }
  }

  /** A read that sees another incarnation or another primary proves a route change after the source. */
  lemma OtherReadReroutes(h: Clusters, from: nat, read: nat)
    requires from <= read < |h| && h[from].Some?
    requires h[read].Some? ==>
               h[read].value.currentPrimary != h[from].value.currentPrimary || h[read].value.uid != h[from].value.uid
    ensures Reroutes(h, from)
  {
    DifferentRouteReroutes(h, from, read);
  }

  /** A member's pod still has its identity until an event of its own changes its route. */
  lemma MemberPodBefore(key: ClusterKey, p: Pods, from: nat, j: nat, c: Cluster, o: Observation, m: Member)
    requires from <= j < |p| && PodsNamed(p, key) && Lists(key, p[from], c, o, m) && KeepsPodBetween(p, from, j, m.name)
    ensures Lists(key, p[j], c, o, m)
  {
    PodChain(p, from, j, m.name);
    PodRouteIff(p[from][m.name], p[j][m.name]);
    AlikeKeepsListed(key, p[from][m.name], p[j][m.name], c, o, m);
  }

  lemma AlikeKeepsListed(key: ClusterKey, a: Pod, b: Pod, c: Cluster, o: Observation, m: Member)
    requires PodAlike(a, b) && b.namespace == key.namespace
    requires Describes(m, a, c) && BelongsTo(a, key) && Backed(o, a)
    ensures Describes(m, b, c) && BelongsTo(b, key) && Backed(o, b)
  {
    var j :| 0 <= j < |o.probed| && j < |o.results| && PodAlike(o.probed[j], a)
             && !o.results[j].failed && o.results[j].status.isPrimary.Some?;
    assert PodAlike(o.probed[j], b);
  }

  /** A member that a Pod event leaves ready kept its route through that event. */
  lemma MemberSurvives(w: World, read: nat, j: nat, name: string, m: Member)
    requires PodsNamed(w.pods, w.key) && j < |w.podNames| && OnePodEach(w.pods, w.podNames) && w.podNames[j] == name
    requires w.seen <= read < |w.clusters|
    requires w.source.Source? && w.source.clusterIndex <= read
             && w.clusters[w.source.clusterIndex] == Some(w.source.cluster)
    requires w.source.podIndex <= j && Lists(w.key, w.pods[w.source.podIndex], w.source.cluster, w.source.observation,
             m)
             && KeepsPodBetween(w.pods, w.source.podIndex, j, m.name)
    requires !Reroutes(w.clusters, w.source.clusterIndex)
    requires var was, pod := At(w.pods[j], name), At(w.pods[j + 1], name);
             Loses(w.key, was, pod, w.clusters[read]) ==>
               || was.value.uid != m.id || w.clusters[read].value.uid != w.source.cluster.uid
    ensures KeepsPod(w.pods, j, m.name)
  {
    MemberPodBefore(w.key, w.pods, w.source.podIndex, j, w.source.cluster, w.source.observation, m);
    PodClusterIff(w.pods[j][m.name], w.key);
    assert ChangesOnly(w.pods, j, name);
    assert At(w.pods[j], m.name) == Some(w.pods[j][m.name]);
    if name != m.name {
      assert At(w.pods[j], m.name) == At(w.pods[j + 1], m.name);
    } else if w.clusters[read].None? || w.clusters[read].value.uid != w.source.cluster.uid {
      OtherReadReroutes(w.clusters, w.source.clusterIndex, read);
    }
  }

  /** A Pod event leaves ready only members it does not speak of. */
  lemma StillReady(key: ClusterKey, was: Option<Pod>, pod: Option<Pod>, cluster: Option<Cluster>, x: Snapshot,
                   y: Snapshot, i: nat)
    requires x.available && y.available && PodOutcome(key, was, pod, cluster, Some(x), Some(y))
    requires i < |y.members| && y.members[i].ready
    ensures i < |x.members| && y.members[i] == x.members[i]
    ensures Loses(key, was, pod, cluster) ==> was.value.uid != x.members[i].id || cluster.value.uid != x.cluster.uid
  {
  }

  lemma PodEventHolds(w: World, read: nat, j: nat, name: string, x: Snapshot, m: Member)
    requires PodsNamed(w.pods, w.key) && j < |w.podNames| && OnePodEach(w.pods, w.podNames) && w.podNames[j] == name
    requires w.seen <= read < |w.clusters|
    requires Anchored(w.key, w.clusters, w.seen, w.pods, w.podsSeen, w.source, x)
    requires m in x.members && m.ready && ReadyListed(w.key, w.pods[w.source.podIndex], w.source.cluster,
             w.source.observation, x.members)
    requires MembersHold(w.pods, w.source.podIndex, j, x.members) && !Reroutes(w.clusters, w.source.clusterIndex)
    requires Loses(w.key, At(w.pods[j], name), At(w.pods[j + 1], name), w.clusters[read]) ==>
               At(w.pods[j], name).value.uid != m.id || w.clusters[read].value.uid != x.cluster.uid
    ensures KeepsPodBetween(w.pods, w.source.podIndex, j + 1, m.name)
  {
    if w.source.podIndex <= j {
      MemberSurvives(w, read, j, name, m);
    }
  }

  lemma PodOutcomeHolds(w: World, read: nat, j: nat, name: string, x: Snapshot, y: Snapshot)
    requires PodsNamed(w.pods, w.key) && j < |w.podNames| && OnePodEach(w.pods, w.podNames) && w.podNames[j] == name
    requires w.seen <= read < |w.clusters|
    requires Anchored(w.key, w.clusters, w.seen, w.pods, w.podsSeen, w.source, x)
    requires ReadyListed(w.key, w.pods[w.source.podIndex], w.source.cluster, w.source.observation, x.members)
    requires MembersHold(w.pods, w.source.podIndex, j, x.members) && !Reroutes(w.clusters, w.source.clusterIndex)
    requires x.available && y.available
    requires PodOutcome(w.key, At(w.pods[j], name), At(w.pods[j + 1], name), w.clusters[read], Some(x), Some(y))
    ensures MembersHold(w.pods, w.source.podIndex, j + 1, y.members)
  {
    forall i | 0 <= i < |y.members| && y.members[i].ready
      ensures KeepsPodBetween(w.pods, w.source.podIndex, j + 1, y.members[i].name)
    {
      StillReady(w.key, At(w.pods[j], name), At(w.pods[j + 1], name), w.clusters[read], x, y, i);
      PodEventHolds(w, read, j, name, x, x.members[i]);
    }
  }

  lemma PodEventKeepsReady(w: World, read: nat, j: nat, x: Snapshot, y: Snapshot)
    requires Basics(w) && Reads(w, read) && j < |w.podNames|
    requires Anchored(w.key, w.clusters, w.seen, w.pods, w.podsSeen, w.source, x) && PrimaryReady(x)
    requires x.available && y.available
    requires PodOutcome(w.key, At(w.pods[j], w.podNames[j]), At(w.pods[j + 1], w.podNames[j]), w.clusters[read],
             Some(x), Some(y))
    ensures Reroutes(w.clusters, w.source.clusterIndex) || PrimaryReady(y)
  {
    var i :| 0 <= i < |x.members| && x.members[i].id == x.primaryID && x.members[i].ready;
    if !y.members[i].ready {
      assert w.podNames[j] == w.source.primary.name;
      OtherReadReroutes(w.clusters, w.source.clusterIndex, read);
    }
  }

  lemma MarkKeepsListed(key: ClusterKey, q: map<string, Pod>, c: Cluster, o: Observation, members: seq<Member>,
                        id: string)
    requires ReadyListed(key, q, c, o, members)
    ensures ReadyListed(key, q, c, o, MarkMembers(members, id))
  {
  }

  lemma PodOutcomeKeepsSound(w: World, v: World, read: nat, j: nat)
    requires Basics(w) && Sound(w) && j == w.podsHandled < |w.podNames| && Reads(w, read)
    requires var name := w.podNames[j];
             PodOutcome(w.key, At(w.pods[j], name), At(w.pods[j + 1], name), w.clusters[read], w.slice.record,
                 v.slice.record)
    requires v.key == w.key && v.clusters == w.clusters && v.handled == w.handled && w.seen <= v.seen < |v.clusters|
    requires v.pods == w.pods && v.podsHandled == j + 1 && w.podsSeen <= v.podsSeen < |v.pods|
    requires v.source == w.source
    ensures Sound(v)
  {
    if Offers(v.slice.record) {
      var x, y := w.slice.record.value, v.slice.record.value;
      if y.members != x.members {
        MarkKeepsListed(w.key, w.pods[w.source.podIndex], w.source.cluster, w.source.observation, x.members,
            At(w.pods[j], w.podNames[j]).value.uid);
      }
      if !Reroutes(w.clusters, w.source.clusterIndex) {
        PodOutcomeHolds(w, read, j, w.podNames[j], x, y);
        PodEventKeepsReady(w, read, j, x, y);
      }
    }
  }

  lemma HandledPodOutcome(w: World, read: nat, late: bool, j: nat, name: string)
    requires j == w.podsHandled < |w.podNames| && w.podNames[j] == name && j + 1 < |w.pods| && read < |w.clusters|
    ensures PodOutcome(w.key, At(w.pods[j], name), At(w.pods[j + 1], name), w.clusters[read], w.slice.record,
                       HandledPod(w, read, late).slice.record)
  {
    PodEventRecord(w.slice, w.key, At(w.pods[j], name), At(w.pods[j + 1], name), w.clusters[read], w.now, w.opts, late,
        Present(w));
  }

  lemma HandlePodKeepsSound(w: World, read: nat, late: bool)
    requires Basics(w) && Sound(w) && w.podsHandled < |w.podNames| && Reads(w, read)
    ensures Sound(HandledPod(w, read, late))
  {
    var j := w.podsHandled;
    HandledPodOutcome(w, read, late, j, w.podNames[j]);
    PodOutcomeKeepsSound(w, HandledPod(w, read, late), read, j);
  }

  // ---- The observation's commit ----

  /** What the record of a sound commit says about the contents it was built from. */
  ghost predicate Pictures(x: Snapshot, o: Observation, c: Cluster, list: seq<Pod>) {
    && c.params.Some? && c.Active() && x.cluster == c.Ref() && |x.members| == |list|
    && ClusterAlike(o.observed, c) && c.currentPrimary == c.targetPrimary != ""
    && (c.fencing.Unfenced? || c.fencing.Fenced?)
    && x.connection.database == c.database && x.connection.serverCAPEM == o.ca.public
    && (exists p :: 0 <= p < |list| && list[p].name == c.currentPrimary && x.primaryID == list[p].uid
                    && x.members[p].ready)
    && (forall i :: 0 <= i < |list| ==> MemberBacked(o, x.members[i], list[i], c))
  }

  lemma CommitPictures(s: Slice, o: Observation, c: Cluster, list: seq<Pod>, caCurrent: bool, x: Snapshot)
    requires |o.results| == |o.probed| && SoundCommit(s, o, c, list, caCurrent, x)
    ensures Pictures(x, o, c, list)
  {
  }

  lemma CommitIsSound(w: World, v: World, o: Observation, read: nat, podsRead: nat, list: seq<Pod>)
    requires Positions(w) && Reads(w, read) && w.podsSeen <= podsRead < |w.pods| && |o.results| == |o.probed|
    requires w.clusters[read].Some? && w.clusters[read].value.Key() == w.key
    requires IsPodList(list, w.pods[podsRead], w.key, w.clusters[read].value.uid)
    requires v.slice.record.Some? && Pictures(v.slice.record.value, o, w.clusters[read].value, list)
    requires v.key == w.key && v.clusters == w.clusters && v.handled == w.handled && v.seen == |v.clusters| - 1
    requires v.pods == w.pods && v.podsHandled == w.podsHandled && v.podsSeen == |v.pods| - 1
    requires v.source == SourceOf(o, w.clusters[read], list, read, podsRead)
    ensures Sound(v)
  {
    var c, x := w.clusters[read].value, v.slice.record.value;
    CommitIsAnchored(w.key, w.clusters, v.seen, w.pods, v.podsSeen, v.source, x, o, list, read, podsRead);
    CommitIsListed(w.key, w.pods[podsRead], c, o, list, x);
  }

  lemma CommitIsAnchored(key: ClusterKey, h: Clusters, seen: nat, p: Pods, podsSeen: nat, src: Source, x: Snapshot,
                         o: Observation, list: seq<Pod>, read: nat, podsRead: nat)
    requires read <= seen < |h| && podsRead <= podsSeen < |p| && |o.results| == |o.probed|
    requires h[read].Some? && h[read].value.Key() == key && IsPodList(list, p[podsRead], key, h[read].value.uid)
    requires Pictures(x, o, h[read].value, list) && src == SourceOf(o, h[read], list, read, podsRead)
    ensures Anchored(key, h, seen, p, podsSeen, src, x) && Grounded(src, x) && PrimaryReady(x)
    ensures src.cluster == h[read].value && src.clusterIndex == read && src.podIndex == podsRead && src.observation == o
  {
    var i := PicturedPrimary(x, o, h[read].value, list);
    PictureIsGrounded(x, o, h[read].value, list);
    SourceIsFound(key, h[read].value, p[podsRead], o, list, read, podsRead, i);
  }

  lemma SourceIsFound(key: ClusterKey, c: Cluster, q: map<string, Pod>, o: Observation, list: seq<Pod>, read: nat,
                      podsRead: nat, i: nat)
    requires IsPodList(list, q, key, c.uid) && i < |list| && list[i].name == c.currentPrimary
    requires |o.results| == |o.probed|
    ensures SourceOf(o, Some(c), list, read, podsRead) == Source(c, list[i], read, podsRead, o)
    ensures At(q, list[i].name) == Some(list[i])
  {
    OneOfName(list, i);
  }

  lemma OneOfName(list: seq<Pod>, i: nat)
    requires i < |list| && DistinctNames(list)
    ensures PodIndex(list, list[i].name) == i
  {
  }

  lemma PictureIsGrounded(x: Snapshot, o: Observation, c: Cluster, list: seq<Pod>)
    requires Pictures(x, o, c, list)
    ensures c.params.Some? && c.Active() && x.cluster == c.Ref()
    ensures forall src: Source :: src.Source? && src.cluster == c && src.observation == o ==> Grounded(src, x)
  {
  }

  lemma PicturedPrimary(x: Snapshot, o: Observation, c: Cluster, list: seq<Pod>) returns (i: nat)
    requires Pictures(x, o, c, list)
    ensures i < |list| && list[i].name == c.currentPrimary && x.primaryID == list[i].uid && PrimaryReady(x)
  {
    i :| 0 <= i < |list| && list[i].name == c.currentPrimary && x.primaryID == list[i].uid && x.members[i].ready;
    assert MemberBacked(o, x.members[i], list[i], c);
  }

  lemma CommitIsListed(key: ClusterKey, q: map<string, Pod>, c: Cluster, o: Observation, list: seq<Pod>, x: Snapshot)
    requires IsPodList(list, q, key, c.uid) && Pictures(x, o, c, list)
    ensures ReadyListed(key, q, c, o, x.members)
  {
    forall i | 0 <= i < |x.members| && x.members[i].ready
      ensures Lists(key, q, c, o, x.members[i])
    {
      assert MemberBacked(o, x.members[i], list[i], c);
      PodClusterIff(list[i], key);
    }
  }

  lemma PublishKeepsSound(w: World, o: Observation, read: nat, podsRead: nat, list: seq<Pod>, caCurrent: bool,
                          late: bool)
    requires Basics(w) && Sound(w) && Reads(w, read) && w.podsSeen <= podsRead < |w.pods| && |o.results| == |o.probed|
    requires w.clusters[read].Some? ==> IsPodList(list, w.pods[podsRead], w.key, w.clusters[read].value.uid)
    ensures Sound(PublishedBy(w, o, read, podsRead, list, caCurrent, late))
  {
    var v := PublishedBy(w, o, read, podsRead, list, caCurrent, late);
    PublishIsSound(w.slice, o, w.clusters[read], list, caCurrent, w.now, w.opts, late, Present(w));
    if !Offers(v.slice.record) || !PublishesVerified(o, w.clusters[read], caCurrent) {
      assert OnlyWithdraws(w.slice.record, v.slice.record);
      if Offers(v.slice.record) {
        WithdrawalKeepsSound(w, v);
      }
    } else {
      CommitPictures(w.slice, o, w.clusters[read].value, list, caCurrent, v.slice.record.value);
      CommitIsSound(w, v, o, read, podsRead, list);
    }
  }

  // ---- How a record comes to be offered ----

  /** The step publishes what it has just verified. */
  ghost predicate Verifies(w: World, a: Action) {
    && a.Publish? && Possible(w, a) && w.clusters[a.read].Some? && Offers(Next(w, a).slice.record)
    && SoundCommit(w.slice, a.o, w.clusters[a.read].value, a.list, a.caCurrent, Next(w, a).slice.record.value)
  }

  /** A step leaves offered what was offered before, up to members withdrawn from it, or it publishes
      what it has verified. */
  lemma StepOffers(w: World, a: Action)
    requires Offers(Next(w, a).slice.record)
    ensures Verifies(w, a) || (Offers(w.slice.record)
            && SamePrimary(w.slice.record.value, Next(w, a).slice.record.value))
    ensures Verifies(w, a) || a.HandlePod? || Next(w, a).slice.record == w.slice.record
  {
    if a.HandleCluster? && Possible(w, a) {
      HandledClusterOutcome(w, a.read, a.late, w.handled, w.clusters[w.handled], w.clusters[w.handled + 1]);
    } else if a.HandlePod? && Possible(w, a) {
      HandledPodOutcome(w, a.read, a.late, w.podsHandled, w.podNames[w.podsHandled]);
    } else if a.Publish? && Possible(w, a) {
      PublishOffers(w, a);
    } else if !a.HandleCluster? && !a.HandlePod? && !a.Publish? {
      QuietWithdraws(w, a);
    }
  }

  /** Until the next such publication, the record is of the same observation. */
  lemma StepSource(w: World, a: Action)
    requires Offers(Next(w, a).slice.record)
    ensures Verifies(w, a) || Next(w, a).source == w.source
    ensures Verifies(w, a) ==> Next(w, a).source.Source? && Next(w, a).source.observation == a.o
  {
    if a.Publish? && Possible(w, a) {
      PublishOffers(w, a);
      PublishSource(w, a);
    } else if !a.Publish? {
      OtherSource(w, a);
    }
  }

  lemma OtherSource(w: World, a: Action)
    requires !a.Publish?
    ensures Next(w, a).source == w.source
  {
  }

  lemma PublishSource(w: World, a: Action)
    requires a.Publish? && Possible(w, a) && Offers(Next(w, a).slice.record)
    ensures Verifies(w, a) || Next(w, a).source == w.source
    ensures Verifies(w, a) ==> Next(w, a).source.Source? && Next(w, a).source.observation == a.o
  {
    PublishIsSound(w.slice, a.o, w.clusters[a.read], a.list, a.caCurrent, w.now, w.opts, a.late, Present(w));
    if Verifies(w, a) {
      var c, x := w.clusters[a.read].value, Next(w, a).slice.record.value;
      CommitPictures(w.slice, a.o, c, a.list, a.caCurrent, x);
      var i := PicturedPrimary(x, a.o, c, a.list);
      CommitSource(w, a, i);
    }
  }

  lemma CommitSource(w: World, a: Action, i: nat)
    requires a.Publish? && Possible(w, a) && PublishesVerified(a.o, w.clusters[a.read], a.caCurrent)
    requires i < |a.list| && a.list[i].name == w.clusters[a.read].value.currentPrimary
    ensures Next(w, a).source.Source? && Next(w, a).source.observation == a.o
  {
  }

  lemma PublishOffers(w: World, a: Action)
    requires a.Publish? && Possible(w, a) && Offers(Next(w, a).slice.record)
    ensures Verifies(w, a) || Next(w, a).slice.record == w.slice.record
  {
    PublishIsSound(w.slice, a.o, w.clusters[a.read], a.list, a.caCurrent, w.now, w.opts, a.late, Present(w));
  }

  lemma QuietWithdraws(w: World, a: Action)
    requires !a.HandleCluster? && !a.HandlePod? && !a.Publish?
    ensures OnlyWithdraws(w.slice.record, Next(w, a).slice.record)
  {
    if Possible(w, a) {
      match a
      case HandleSecret(read, late) =>
        SecretWithdraws(w.slice, w.clusters[read].value, w.now, w.opts, late, Present(w));
      case Fail(cancelled, reason, read, late) =>
        FailureWithdraws(w.slice, cancelled, w.clusters[read], reason, w.now, w.opts, late);
      case _ =>
    }
  }

  // ---- Every run ----

  lemma QuietFrame(w: World, a: Action)
    requires Positions(w) && !a.ClusterChanges? && !a.PodChanges? && !a.HandleCluster? && !a.HandlePod? && !a.Publish?
    ensures var v := Next(w, a);
            && v.key == w.key && v.clusters == w.clusters && v.handled == w.handled && w.seen <= v.seen < |v.clusters|
            && v.pods == w.pods && v.podsHandled == w.podsHandled && w.podsSeen <= v.podsSeen < |v.pods|
               && v.source == w.source
  {
  }

  lemma QuietKeepsSound(w: World, a: Action)
    requires Basics(w) && Sound(w) && Possible(w, a)
    requires !a.ClusterChanges? && !a.PodChanges? && !a.HandleCluster? && !a.HandlePod? && !a.Publish?
    ensures Sound(Next(w, a))
  {
    QuietWithdraws(w, a);
    QuietFrame(w, a);
    WithdrawalKeepsSound(w, Next(w, a));
  }

  lemma ChangeKeepsSound(w: World, a: Action)
    requires Basics(w) && Sound(w) && Possible(w, a) && (a.ClusterChanges? || a.PodChanges?)
    ensures Sound(Next(w, a))
  {
    match a
    case ClusterChanges(c) => ClusterChangeKeepsSound(w, c);
    case PodChanges(name, pod) =>
      PodChangeKeepsSound(w, PodsAfter(w.pods[|w.pods| - 1], name, pod), w.podNames + [name]);
  }

  lemma EventKeepsSound(w: World, a: Action)
    requires Basics(w) && Sound(w) && Possible(w, a) && (a.HandleCluster? || a.HandlePod? || a.Publish?)
    ensures Sound(Next(w, a))
  {
    match a
    case HandleCluster(read, late) => HandleClusterKeepsSound(w, read, late);
    case HandlePod(read, late) => HandlePodKeepsSound(w, read, late);
    case Publish(o, read, podsRead, list, caCurrent, late) =>
        PublishKeepsSound(w, o, read, podsRead, list, caCurrent, late);
  }

  lemma StepKeepsSound(w: World, a: Action)
    requires Basics(w) && Sound(w)
    ensures Sound(Next(w, a))
  {
    if Possible(w, a) {
      if a.ClusterChanges? || a.PodChanges? {
        ChangeKeepsSound(w, a);
      } else if a.HandleCluster? || a.HandlePod? || a.Publish? {
        EventKeepsSound(w, a);
      } else {
        QuietKeepsSound(w, a);
      }
    }
  }

  lemma {:induction false} RunIsSound(w: World, actions: seq<Action>)
    requires Basics(w) && Sound(w)
    ensures Basics(P.Run(w, actions)) && Sound(P.Run(w, actions))
    decreases actions
  {
    if actions != [] {
      StepKeepsBasics(w, actions[0]);
      StepKeepsSound(w, actions[0]);
      RunIsSound(Next(w, actions[0]), actions[1..]);
    }
  }

  lemma EveryRunIsSound(key: ClusterKey, opts: Options, now: int, actions: seq<Action>)
    ensures Basics(P.Run(P.Start(key, opts, now), actions)) && Sound(P.Run(P.Start(key, opts, now), actions))
  {
    RunIsSound(P.Start(key, opts, now), actions);
  }

  /** The record is of the Cluster and the pods that the informers hold now, field by field: the Cluster is
      enabled, its annotation neither is malformed nor fences a ready member, the current primary is the
      target and its pod is the published primary, the database and the Secret of the CA are the Cluster's;
      and every ready member is a serving pod of it, published as it is now and probed as it is now. */
  ghost predicate IsCurrent(w: World, x: Snapshot) {
    && w.clusters != [] && w.pods != [] && Present(w) && w.source.Source?
    && var c, pods, o := w.clusters[|w.clusters| - 1].value, w.pods[|w.pods| - 1], w.source.observation;
       && c.enabled && !c.deleting && x.cluster == ClusterRef(c.namespace, c.name, c.uid)
       && c.currentPrimary == c.targetPrimary != ""
       && c.currentPrimary in pods && x.primaryID == pods[c.currentPrimary].uid && Backed(o, pods[c.currentPrimary])
       && !c.fencing.Malformed? && !FencedOff(c.fencing, c.currentPrimary)
       && x.connection.database == c.database && x.connection.serverCAPEM == o.ca.public
       && o.observed.certificates.serverCASecret == c.certificates.serverCASecret && o.observed.params == c.params
       && ReadyListed(w.key, pods, c, o, x.members)
  }

  /** Once no Cluster or Pod handler is outstanding, an available record is current. */
  lemma QuiescentRecordIsCurrent(key: ClusterKey, opts: Options, now: int, actions: seq<Action>)
    ensures
      var w := P.Run(P.Start(key, opts, now), actions);
      w.handled + 1 == |w.clusters| && w.podsHandled + 1 == |w.pods| && Offers(w.slice.record) ==>
        IsCurrent(w, w.slice.record.value) && PrimaryReady(w.slice.record.value)
  {
    EveryRunIsSound(key, opts, now, actions);
    SoundAtRest(P.Run(P.Start(key, opts, now), actions));
  }

  lemma SoundAtRest(w: World)
    requires Basics(w) && Sound(w)
    ensures w.handled + 1 == |w.clusters| && w.podsHandled + 1 == |w.pods| && Offers(w.slice.record) ==>
              IsCurrent(w, w.slice.record.value) && PrimaryReady(w.slice.record.value)
  {
    if w.handled + 1 == |w.clusters| && w.podsHandled + 1 == |w.pods| && Offers(w.slice.record) {
      var src, c, x := w.source, w.clusters[w.handled], w.slice.record.value;
      HandledMeansUnmoved(w.clusters, w.handled, src.clusterIndex);
      ClusterRouteIff(src.cluster, c.value);
      assert SameText(src.cluster.fencing, c.value.fencing);
      MembersAreCurrent(w, x);
      AlikeLists(w.key, w.pods[w.podsHandled], src.cluster, c.value, src.observation, x.members);
      PrimaryIsCurrent(w, c.value, x);
    }
  }

  /** Clusters of one key that are alike give their pods the same addresses and fence the same ones. */
  lemma AlikeLists(key: ClusterKey, q: map<string, Pod>, c: Cluster, d: Cluster, o: Observation, members: seq<Member>)
    requires ReadyListed(key, q, c, o, members) && ClusterAlike(c, d) && c.Key() == d.Key()
    requires SameText(c.fencing, d.fencing)
    ensures ReadyListed(key, q, d, o, members)
  {
    forall i | 0 <= i < |members| && members[i].ready
      ensures Lists(key, q, d, o, members[i])
    {
      assert Lists(key, q, c, o, members[i]);
    }
  }

  lemma MembersAreCurrent(w: World, x: Snapshot)
    requires Basics(w) && w.podsHandled + 1 == |w.pods| && w.source.Source? && w.source.podIndex <= w.podsHandled
    requires ReadyListed(w.key, w.pods[w.source.podIndex], w.source.cluster, w.source.observation, x.members)
    requires MembersHold(w.pods, w.source.podIndex, w.podsHandled, x.members)
    ensures ReadyListed(w.key, w.pods[w.podsHandled], w.source.cluster, w.source.observation, x.members)
  {
    forall i | 0 <= i < |x.members| && x.members[i].ready
      ensures Lists(w.key, w.pods[w.podsHandled], w.source.cluster, w.source.observation, x.members[i])
    {
      MemberPodBefore(w.key, w.pods, w.source.podIndex, w.podsHandled, w.source.cluster, w.source.observation,
          x.members[i]);
    }
  }

  lemma PrimaryIsCurrent(w: World, c: Cluster, x: Snapshot)
    requires Basics(w) && w.podsHandled + 1 == |w.pods| && PrimaryReady(x)
    requires Anchored(w.key, w.clusters, w.seen, w.pods, w.podsSeen, w.source, x)
    requires c.currentPrimary == w.source.cluster.currentPrimary
    requires ReadyListed(w.key, w.pods[w.podsHandled], c, w.source.observation, x.members)
    ensures var q := w.pods[w.podsHandled];
            && c.currentPrimary in q && x.primaryID == q[c.currentPrimary].uid
            && Backed(w.source.observation, q[c.currentPrimary])
            && !c.fencing.Malformed? && !FencedOff(c.fencing, c.currentPrimary)
  {
    var i :| 0 <= i < |x.members| && x.members[i].id == x.primaryID && x.members[i].ready;
    var q, p := w.pods[w.podsHandled], w.pods[w.source.podIndex];
    assert Lists(w.key, q, c, w.source.observation, x.members[i]);
    assert q[x.members[i].name].uid == p[w.source.primary.name].uid;
  }

  // ---- The annotation ----

  /** The annotation of a Cluster that is offered parses, unless it is present and empty. */
  lemma OfferedAnnotationParses(key: ClusterKey, opts: Options, now: int, actions: seq<Action>)
    ensures
      var w := P.Run(P.Start(key, opts, now), actions);
      w.handled + 1 == |w.clusters| && Offers(w.slice.record) ==>
        && Present(w)
        && var f := w.clusters[|w.clusters| - 1].value.fencing;
           f.Unfenced? || f.Fenced? <==> !f.EmptyText?
  {
    EveryRunIsSound(key, opts, now, actions);
    var w := P.Run(P.Start(key, opts, now), actions);
    if w.handled + 1 == |w.clusters| && Offers(w.slice.record) {
      HandledMeansUnmoved(w.clusters, w.handled, w.source.clusterIndex);
      assert SameText(w.source.cluster.fencing, w.clusters[w.handled].value.fencing);
    }
  }

  /** That exception happens: giving an unfenced Cluster at rest an empty annotation, which does not parse,
      moves no route, and the record stays offered once the event has been handled. */
  lemma EmptyAnnotationKeepsRoute(w: World, late: bool)
    requires Basics(w) && Sound(w) && Offers(w.slice.record) && w.handled + 1 == |w.clusters| && Present(w)
    requires w.clusters[w.handled].value.fencing.Unfenced?
    ensures
      var d := w.clusters[w.handled].value.(fencing := EmptyText);
      var v := Next(Next(w, ClusterChanges(Some(d))), HandleCluster(|w.clusters|, late));
      v.handled + 1 == |v.clusters| && v.clusters[v.handled] == Some(d) && v.slice.record == w.slice.record
  {
    EmptyMayFollow(w.clusters, w.key);
    HandledMeansUnmoved(w.clusters, w.handled, w.source.clusterIndex);
    var d := w.clusters[w.handled].value.(fencing := EmptyText);
    UnmovedIsHandled(w.(clusters := w.clusters + [Some(d)]), late);
  }

  lemma EmptyMayFollow(h: Clusters, key: ClusterKey)
    requires h != [] && h[|h| - 1].Some? && h[|h| - 1].value.fencing.Unfenced? && TextsAgree(h) && Keyed(h, key)
    ensures MayBecome(h, key, Some(h[|h| - 1].value.(fencing := EmptyText)))
  {
    assert forall i :: 0 <= i < |h| && h[i].Some? ==> SameText(h[i].value.fencing, h[|h| - 1].value.fencing);
  }

  /** An event that moves nothing leaves the record of that incarnation alone. */
  lemma UnmovedIsHandled(w: World, late: bool)
    requires Positions(w) && w.handled + 2 == |w.clusters| && w.clusters[w.handled].Some? && Present(w)
    requires SameClusterRoute(w.clusters[w.handled].value, w.clusters[w.handled + 1].value)
    requires w.clusters[w.handled].value.Active()
    requires w.slice.record.Some? && w.slice.record.value.cluster.uid == w.clusters[w.handled].value.uid
    ensures var v := Next(w, HandleCluster(w.handled + 1, late));
            && v == HandledCluster(w, w.handled + 1, late) && v.slice.record == w.slice.record
            && v.clusters == w.clusters && v.handled == w.handled + 1
  {
  }

  lemma HandledMeansUnmoved(h: Clusters, handled: nat, from: nat)
    requires from <= handled == |h| - 1 && ClusterHolds(h, handled, from) && h[from].Some?
    requires SameClusterRoute(h[from].value, h[from].value)
    ensures h[handled].Some? && SameClusterRoute(h[from].value, h[handled].value) && !Reroutes(h, from)
  {
    if from < handled {
      RouteChain(h, from, handled);
    }
  }

  /** An available record names a primary that is not ready only while an event that moves the
      Cluster is still undelivered. */
  lemma UnreadyPrimaryIsPending(key: ClusterKey, opts: Options, now: int, actions: seq<Action>)
    ensures
      var w := P.Run(P.Start(key, opts, now), actions);
      Offers(w.slice.record) && !Reroutes(w.clusters, w.handled) ==> PrimaryReady(w.slice.record.value)
  {
    EveryRunIsSound(key, opts, now, actions);
    var w := P.Run(P.Start(key, opts, now), actions);
    if Offers(w.slice.record) && Reroutes(w.clusters, w.source.clusterIndex) {
      PendingIsLater(w.clusters, w.handled, w.source.clusterIndex);
    }
  }

  lemma PendingIsLater(h: Clusters, handled: nat, from: nat)
    requires ClusterHolds(h, handled, from) && Reroutes(h, from)
    ensures Reroutes(h, handled)
  {
    if KeepsRouteBetween(h, from, handled) {
      var i :| from <= i < |h| - 1 && !KeepsRoute(h, i);
      assert handled <= i < |h| - 1 && !KeepsRoute(h, i);
    } else {
      assert !KeepsRoute(h, handled);
    }
  }
}

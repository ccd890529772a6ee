/**
  The commits that each critical section of the observer makes, in the order in which it makes
  them. They add up to the section's effect on the record.
 */
module Sections {
  import opened Keys
  import opened Api
  import opened Metadata
  import opened Topology
  import opened Slices
  import opened Protocol
  import S = Stores
  import P = Protocol

  /** A commit that the observer makes; `late` says that the validity had ended, and `Lapse` is the
      expiry that reading a record commits. */
  datatype Effect = Put(snapshot: Snapshot, late: bool) | Drop | Lapse

  /** Revisions are the store's own. */
  function Unrevised(x: Snapshot): Snapshot {
    x.(revision := 0)
  }

  function Content(record: Option<Snapshot>): Option<Snapshot> {
    if record.None? then None else Some(Unrevised(record.value))
  }

  function Applied(effect: Effect, record: Option<Snapshot>): Option<Snapshot> {
    match effect
    case Put(x, late) => Some(Unrevised(S.Prepared(x, late)))
    case Drop => None
    case Lapse => if record.None? then None else Some(Invalidated(record.value))
  }

  function AllApplied(effects: seq<Effect>, record: Option<Snapshot>): Option<Snapshot>
    decreases effects
  {
    if effects == [] then record else AllApplied(effects[1..], Applied(effects[0], record))
  }

  function Withdrawal(cluster: Cluster, now: int, opts: Options, reason: string, late: bool): seq<Effect> {
    [Put(Unavailable(cluster, now, opts.ttl, reason), late)]
  }

  function ReadCommits(s: Slice, now: int): seq<Effect> {
    if s.record.Some? && now >= s.record.value.validUntil then [Lapse] else []
  }

  function ClusterEventCommits(s: Slice, was: Option<Cluster>, cluster: Cluster, now: int, opts: Options,
                               late: bool): seq<Effect> {
    if !cluster.Active() then [Drop] else
    (if s.Unknown(cluster) then Withdrawal(cluster, now, opts, "awaiting_observation", late) else []) +
    (if was.Some? && !SameClusterRoute(was.value, cluster) then Withdrawal(cluster, now, opts, "topology_changed", late)
        else [])
  }

  function ClusterDeletedCommits(cluster: Cluster, current: Option<Cluster>): seq<Effect> {
    if current.Some? && current.value.uid != cluster.uid then [] else [Drop]
  }

  function MemberCommits(s: Slice, cluster: Cluster, id: string, now: int, late: bool): seq<Effect> {
    var r := s.ReadRecord(now).record;
    ReadCommits(s, now) +
    (if r.None? || r.value.cluster.uid != cluster.uid then []
     else [Put(r.value.(members := MarkMembers(r.value.members, id)), late)])
  }

  function PodEventCommits(s: Slice, key: ClusterKey, was: Option<Pod>, pod: Option<Pod>, cluster: Option<Cluster>,
                           now: int, opts: Options, late: bool): seq<Effect> {
    if Unremarkable(was, pod) || !Concerns(key, was, pod) || cluster.None? || !LosesRoute(was, pod) then []
    else if was.value.name == cluster.value.currentPrimary
        then Withdrawal(cluster.value, now, opts, "primary_changed", late)
    else MemberCommits(s, cluster.value, was.value.uid, now, late)
  }

  function SecretEventCommits(s: Slice, cluster: Cluster, now: int, opts: Options, late: bool): seq<Effect> {
    var r := s.ReadRecord(now).record;
    ReadCommits(s, now) +
    (if r.Some? && (r.value.available || r.value.connection.serverCAPEM != [])
     then Withdrawal(cluster, now, opts, "connection_defaults_changed", late) else [])
  }

  function FailureCommits(cancelled: bool, latest: Option<Cluster>, reason: string, now: int, opts: Options,
                          late: bool): seq<Effect> {
    if cancelled then []
    else if latest.None? || !latest.value.Active() then [Drop]
    else [Put(Unavailable(latest.value, now, opts.ttl, reason).(transitioning := Transitioning(latest.value)), late)]
  }

  function PublishCommits(s: Slice, o: Observation, latest: Option<Cluster>, pods: seq<Pod>, caCurrent: bool, now: int,
                          opts: Options, late: bool): seq<Effect>
    requires |o.results| == |o.probed|
  {
    if latest.None? || !latest.value.Active() then [Drop]
    else if o.cancelled || !o.ready then []
    else if !SameClusterRoute(o.observed, latest.value) then
      Withdrawal(latest.value, now, opts, "topology_changed_during_observation", late)
    else if !caCurrent then
      Withdrawal(latest.value, now, opts, "connection_defaults_changed", late)
    else
      [Put(s.Recorded(o, latest.value, pods).Verified(o, latest.value, pods, opts), late)]
  }

  // ---- They add up ----

  lemma OneApplied(effect: Effect, record: Option<Snapshot>)
    ensures AllApplied([effect], record) == Applied(effect, record)
  {
    assert [effect][1..] == [];
  }

  lemma ReadAddsUp(s: Slice, now: int)
    ensures AllApplied(ReadCommits(s, now), Content(s.record)) == Content(s.ReadRecord(now).record)
  {
    OneApplied(Lapse, Content(s.record));
  }

  /** A Put after other commits hides them. */
  lemma {:induction false} PutHides(effects: seq<Effect>, x: Snapshot, late: bool, record: Option<Snapshot>)
    ensures AllApplied(effects + [Put(x, late)], record) == Content(Committed(x, late))
    decreases effects
  {
    if effects == [] {
      assert [] + [Put(x, late)] == [Put(x, late)];
      OneApplied(Put(x, late), record);
    } else {
      assert (effects + [Put(x, late)])[1..] == effects[1..] + [Put(x, late)];
      PutHides(effects[1..], x, late, Applied(effects[0], record));
    }
  }

  lemma ClusterEventAddsUp(s: Slice, was: Option<Cluster>, cluster: Cluster, now: int, opts: Options, late: bool,
                           present: bool)
    ensures AllApplied(ClusterEventCommits(s, was, cluster, now, opts, late), Content(s.record)) ==
            Content(s.ClusterEvent(was, cluster, now, opts, late, present).record)
  {
    var first := if s.Unknown(cluster) then Withdrawal(cluster, now, opts, "awaiting_observation", late) else [];
    OneApplied(Drop, Content(s.record));
    if was.Some? && !SameClusterRoute(was.value, cluster) {
      PutHides(first, Unavailable(cluster, now, opts.ttl, "topology_changed"), late, Content(s.record));
    } else {
      assert first + [] == first;
      PutHides([], Unavailable(cluster, now, opts.ttl, "awaiting_observation"), late, Content(s.record));
    }
  }

  lemma MemberAddsUp(s: Slice, cluster: Cluster, id: string, now: int, late: bool)
    ensures AllApplied(MemberCommits(s, cluster, id, now, late), Content(s.record)) ==
            Content(s.MemberChanged(cluster, id, now, late).record)
  {
    var r := s.ReadRecord(now).record;
    ReadAddsUp(s, now);
    if r.Some? && r.value.cluster.uid == cluster.uid {
      PutHides(ReadCommits(s, now), r.value.(members := MarkMembers(r.value.members, id)), late, Content(s.record));
    } else {
      assert ReadCommits(s, now) + [] == ReadCommits(s, now);
    }
  }

  lemma PodEventAddsUp(s: Slice, key: ClusterKey, was: Option<Pod>, pod: Option<Pod>, cluster: Option<Cluster>,
                       now: int, opts: Options, late: bool, present: bool)
    ensures AllApplied(PodEventCommits(s, key, was, pod, cluster, now, opts, late), Content(s.record)) ==
            Content(s.PodEvent(key, was, pod, cluster, now, opts, late, present).record)
  {
    var t := s.PodEvent(key, was, pod, cluster, now, opts, late, present);
    if PodEventCommits(s, key, was, pod, cluster, now, opts, late) == [] && !(LosesRoute(was, pod) && cluster.Some?) {
      assert t.record == s.record;
    } else if LosesRoute(was, pod) && Concerns(key, was, pod) && cluster.Some? {
      assert t.record == s.PodRouteChanged(was.value, cluster.value, now, opts, late).record;
      MemberAddsUp(s, cluster.value, was.value.uid, now, late);
      PutHides([], Unavailable(cluster.value, now, opts.ttl, "primary_changed"), late, Content(s.record));
    }
  }

  lemma SecretEventAddsUp(s: Slice, cluster: Cluster, now: int, opts: Options, late: bool, present: bool)
    ensures AllApplied(SecretEventCommits(s, cluster, now, opts, late), Content(s.record)) ==
            Content(s.SecretEvent(cluster, now, opts, late, present).record)
  {
    ReadAddsUp(s, now);
    assert ReadCommits(s, now) + [] == ReadCommits(s, now);
    PutHides(ReadCommits(s, now), Unavailable(cluster, now, opts.ttl, "connection_defaults_changed"), late,
        Content(s.record));
  }

  lemma FailureAddsUp(s: Slice, cancelled: bool, latest: Option<Cluster>, reason: string, now: int, opts: Options,
                      late: bool)
    ensures AllApplied(FailureCommits(cancelled, latest, reason, now, opts, late), Content(s.record)) ==
            Content(s.PublishFailure(cancelled, latest, reason, now, opts, late).record)
  {
    OneApplied(Drop, Content(s.record));
    if latest.Some? {
      PutHides([], Unavailable(latest.value, now, opts.ttl, reason).(transitioning := Transitioning(latest.value)),
          late, Content(s.record));
    }
  }

  lemma PublishAddsUp(s: Slice, o: Observation, latest: Option<Cluster>, pods: seq<Pod>, caCurrent: bool, now: int,
                      opts: Options, late: bool, present: bool)
    requires |o.results| == |o.probed|
    ensures AllApplied(PublishCommits(s, o, latest, pods, caCurrent, now, opts, late), Content(s.record)) ==
            Content(s.Publish(o, latest, pods, caCurrent, now, opts, late, present).record)
  {
    OneApplied(Drop, Content(s.record));
    if latest.Some? {
      var c, r := latest.value, s.Recorded(o, latest.value, pods);
      PutHides([], r.Verified(o, c, pods, opts), late, Content(s.record));
      PutHides([], Unavailable(c, now, opts.ttl, "topology_changed_during_observation"), late, Content(s.record));
      PutHides([], Unavailable(c, now, opts.ttl, "connection_defaults_changed"), late, Content(s.record));
    }
  }

  // ---- Every section ----

  ghost function SectionCommits(w: World, a: P.Action): seq<Effect>
    requires P.Possible(w, a)
  {
    match a
    case HandleCluster(read, late) => HandledClusterCommits(w, read, late)
    case HandlePod(read, late) => HandledPodCommits(w, read, late)
    case HandleSecret(read, late) => SecretEventCommits(w.slice, w.clusters[read].value, w.now, w.opts, late)
    case StartObservation(read) => if w.clusters[read].None? || !w.clusters[read].value.Active() then [Drop] else []
    case Publish(o, read, podsRead, list, caCurrent, late) =>
        PublishCommits(w.slice, o, w.clusters[read], list, caCurrent, w.now, w.opts, late)
    case Fail(cancelled, reason, read, late) => FailureCommits(cancelled, w.clusters[read], reason, w.now, w.opts, late)
    case _ => []
  }

  function HandledClusterCommits(w: World, read: nat, late: bool): seq<Effect>
    requires w.handled + 1 < |w.clusters| && read < |w.clusters|
  {
    var was, cluster := w.clusters[w.handled], w.clusters[w.handled + 1];
    if cluster.Some? then ClusterEventCommits(w.slice, was, cluster.value, w.now, w.opts, late)
    else if was.Some? then ClusterDeletedCommits(was.value, w.clusters[read])
    else []
  }

  function HandledPodCommits(w: World, read: nat, late: bool): seq<Effect>
    requires w.podsHandled + 1 < |w.pods| && w.podsHandled < |w.podNames| && read < |w.clusters|
  {
    var j, name := w.podsHandled, w.podNames[w.podsHandled];
    PodEventCommits(w.slice, w.key, At(w.pods[j], name), At(w.pods[j + 1], name), w.clusters[read], w.now, w.opts, late)
  }

  lemma HandledClusterAddsUp(w: World, read: nat, late: bool)
    requires w.handled + 1 < |w.clusters| && read < |w.clusters|
    ensures AllApplied(HandledClusterCommits(w, read, late), Content(w.slice.record)) ==
            Content(HandledCluster(w, read, late).slice.record)
  {
    var was, cluster := w.clusters[w.handled], w.clusters[w.handled + 1];
    OneApplied(Drop, Content(w.slice.record));
    if cluster.Some? {
      ClusterEventAddsUp(w.slice, was, cluster.value, w.now, w.opts, late, Present(w));
    }
  }

  lemma HandledPodAddsUp(w: World, read: nat, late: bool)
    requires w.podsHandled + 1 < |w.pods| && w.podsHandled < |w.podNames| && read < |w.clusters|
    ensures AllApplied(HandledPodCommits(w, read, late), Content(w.slice.record)) ==
            Content(HandledPod(w, read, late).slice.record)
  {
    var j, name := w.podsHandled, w.podNames[w.podsHandled];
    PodEventAddsUp(w.slice, w.key, At(w.pods[j], name), At(w.pods[j + 1], name), w.clusters[read], w.now, w.opts, late,
        Present(w));
  }

  /** The commits of every section add up to its effect on the record. */
  lemma SectionsAddUp(w: World, a: P.Action)
    requires P.Possible(w, a) && !a.Expire?
    ensures AllApplied(SectionCommits(w, a), Content(w.slice.record)) == Content(P.Next(w, a).slice.record)
  {
    OneApplied(Drop, Content(w.slice.record));
    match a
    case HandleCluster(read, late) => HandledClusterAddsUp(w, read, late);
    case HandlePod(read, late) => HandledPodAddsUp(w, read, late);
    case HandleSecret(read, late) => SecretEventAddsUp(w.slice, w.clusters[read].value, w.now, w.opts, late,
        Present(w));
    case StartObservation(read) =>
    case Publish(o, read, podsRead, list, caCurrent, late) =>
      PublishAddsUp(w.slice, o, w.clusters[read], list, caCurrent, w.now, w.opts, late, Present(w));
    case Fail(cancelled, reason, read, late) =>
        FailureAddsUp(w.slice, cancelled, w.clusters[read], reason, w.now, w.opts, late);
    case _ =>
  }
}

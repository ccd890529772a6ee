/**
  The observer object, reduced to one Cluster key. Each method is one critical section of the state
  mutex, proved equal to the section's function on `Slice`; what it promises its caller is stated
  beside that.
 */
module Observers {
  import opened Keys
  import opened Api
  import opened Metadata
  import opened Topology
  import opened Evidence
  import opened Slices
  import opened Commits

  ghost predicate IndexesProbed(byName: map<string, nat>, probed: seq<Pod>) {
    forall n :: (n in byName <==> ProbedIndex(probed, n) >= 0) && (n in byName ==> byName[n] == ProbedIndex(probed, n))
  }

  method IndexProbed(probed: seq<Pod>) returns (byName: map<string, nat>)
    ensures IndexesProbed(byName, probed)
  {
    byName := map[];
    var i := 0;
    while i < |probed|
      invariant 0 <= i <= |probed| && IndexesProbed(byName, probed[..i])
    {
      ghost var longer := probed[..i + 1];
      assert longer[..i] == probed[..i] && longer[i] == probed[i];
      byName := byName[probed[i].name := i];
      assert IndexesProbed(byName, longer);
      i := i + 1;
    }
    assert probed[..i] == probed;
  }

  method MatchInstanceResults(probed: seq<Pod>, current: seq<Pod>, results: seq<Probe>) returns (mapped: seq<Probe>)
    requires |results| == |probed|
    ensures mapped == Mapped(probed, results, current)
  {
    var byName := IndexProbed(probed);
    mapped := [];
    var i := 0;
    while i < |current|
      invariant 0 <= i <= |current| && |mapped| == i
      invariant forall j :: 0 <= j < i ==> mapped[j] == MappedResult(probed, results, current[j])
    {
      var pod := current[i];
      if pod.name !in byName || !SamePodRoute(probed[byName[pod.name]], pod) {
        mapped := mapped + [CHANGED];
      } else {
        mapped := mapped + [results[byName[pod.name]]];
      }
      i := i + 1;
    }
    assert mapped == Mapped(probed, results, current);
  }

  class ClusterObserver {
    const key: ClusterKey
    const opts: Options
    var record: Option<Snapshot>
    var claims: Option<Claims>
    var worker: Worker
    var watchers: nat
    var lease: Option<int>
    var callbacks: nat
    var dirty: bool
    var delayed: nat
    var demandNext: Option<int>

    ghost function Value(): Slice
      reads this
    {
      Slice(record, claims, worker, watchers, lease, callbacks, dirty, delayed, demandNext)
    }

    constructor (key: ClusterKey, opts: Options)
      ensures this.key == key && this.opts == opts && Value() == INITIAL
    {
      this.key, this.opts := key, opts;
      record, claims, worker := None, None, Free;
      watchers, lease, callbacks := 0, None, 0;
      dirty, delayed, demandNext := false, 0, None;
    }

    /** An observation in flight can no longer publish. */
    method CancelObservation()
      modifies this`worker
      ensures Value() == old(Value()).Cancel()
      ensures worker != Observing(false)
    {
      if worker.Observing? {
        worker := Observing(true);
      }
    }

    method DropKey()
      modifies this
      ensures Value() == old(Value()).Forget()
    {
      CancelObservation();
      claims, demandNext := None, None;
      record, lease := None, None;
    }

    method Commit(snapshot: Snapshot, late: bool)
      modifies this`record
      ensures record == Committed(snapshot, late)
    {
      var prepared := snapshot.(apiVersion := API_VERSION);
      if late {
        prepared := Invalidate(prepared);
      }
      record := Some(prepared);
    }

    /** Without new interest, demand only ever ends. */
    method HasDemand(now: int) returns (demanded: bool)
      ensures demanded == Value().Demanded(now)
      ensures forall t :: if demanded then t <= now ==> Value().Demanded(t) else t >= now ==> !Value().Demanded(t)
    {
      demanded := watchers > 0 || (lease.Some? && now < lease.value);
    }

    method Notify(now: int, present: bool)
      modifies this`dirty
      ensures Value() == old(Value()).Notify(now, present)
      ensures dirty <==> old(dirty) || (Value().Demanded(now) && present)
    {
      var demanded := HasDemand(now);
      if demanded && present {
        dirty := true;
      }
    }

    /** A request that counts is never lost: it queues the key now, no sooner than a poll interval
        after the last one that did, or adds a delayed one. */
    method EnqueueDemand(now: int, present: bool)
      modifies this
      ensures Value() == old(Value()).EnqueueDemand(now, opts, present)
      ensures Value().Demanded(now) && present ==>
                (dirty && demandNext == Some(now + opts.pollInterval)) || delayed == old(delayed) + 1
      ensures demandNext != old(demandNext) ==> old(demandNext).None? || old(demandNext).value <= now
    {
      var demanded := HasDemand(now);
      if !demanded || !present {
        return;
      }
      if demandNext.Some? && now < demandNext.value {
        delayed := delayed + 1;
        return;
      }
      demandNext := Some(now + opts.pollInterval);
      dirty := true;
    }

    /** A key that is not needed is dropped now and would be at any later time. */
    method NeedsObservation(now: int) returns (needed: bool)
      ensures needed == Value().Needed(now)
      ensures !needed ==> forall t, ready :: t >= now ==> Value().Began(t, ready) == Value().(worker := Leaving)
    {
      var demanded := HasDemand(now);
      if !demanded {
        return false;
      }
      needed := record.Some?;
    }

    /** The worker holds the key; a key that is needed is observed or put off, never dropped. */
    method BeginWork(now: int, ready: bool) returns (observing: bool)
      modifies this`worker, this`delayed
      ensures Value() == old(Value()).Began(now, ready)
      ensures old(Value()).Needed(now) ==> (observing && worker == Accepted) || (!ready && delayed == old(delayed) + 1)
      ensures !old(Value()).Needed(now) ==> !observing && worker == Leaving && delayed == old(delayed)
    {
      observing := false;
      var needed := NeedsObservation(now);
      if !needed {
        worker := Leaving;
        return;
      }
      if !ready {
        delayed := delayed + 1;
        worker := Leaving;
        return;
      }
      worker := Accepted;
      observing := true;
    }

    method BeginObservation()
      modifies this`worker
      ensures Value() == old(Value()).BeginObservation()
    {
      worker := Observing(false);
    }

    /** A needed key is rescheduled, unless the event that superseded its observation has done so. */
    method EndWork(now: int, superseded: bool)
      modifies this`worker, this`delayed
      ensures Value() == old(Value()).Ended(now, superseded)
      ensures worker == Leaving && delayed == old(delayed) + (if old(Value()).Needed(now) && !superseded then 1 else 0)
    {
      var needed := NeedsObservation(now);
      worker := Leaving;
      if superseded || !needed {
        return;
      }
      delayed := delayed + 1;
    }

    /** Afterwards the record is of this incarnation or, if the Cluster is disabled, gone; what the
        event changed is withdrawn, its observation stopped, and with demand the key is queued. */
    method ClusterEvent(was: Option<Cluster>, cluster: Cluster, now: int, late: bool, present: bool)
      modifies this
      ensures Value() == old(Value()).ClusterEvent(was, cluster, now, opts, late, present)
      ensures !cluster.Active() ==> record.None? && claims.None? && lease.None? && worker != Observing(false)
      ensures cluster.Active() ==> record.Some? && record.value.cluster.uid == cluster.uid
      ensures old(Value()).Unknown(cluster) || (was.Some? && !SameClusterRoute(was.value, cluster)) ==>
                !Offers(record) && worker != Observing(false)
      ensures cluster.Active() && !(was.Some? && SameClusterRoute(was.value, cluster)) ==>
                (Value().Demanded(now) && present ==> dirty)
      ensures cluster.Active() && !old(Value()).Unknown(cluster) && was.Some?
              && SameClusterRoute(was.value, cluster) ==>
                Value() == old(Value())
    {
      if !cluster.enabled || cluster.deleting {
        DropKey();
        return;
      }
      if record.None? || record.value.cluster.uid != cluster.uid {
        CancelObservation();
        claims, demandNext := None, None;
        Commit(Unavailable(cluster, now, opts.ttl, "awaiting_observation"), late);
      }
      if was.Some? {
        if SameClusterRoute(was.value, cluster) {
          return;
        }
        CancelObservation();
        Commit(Unavailable(cluster, now, opts.ttl, "topology_changed"), late);
      }
      var demanded := HasDemand(now);
      if demanded {
        Notify(now, present);
      }
    }

    /** A late tombstone spares the replacement; otherwise nothing of the Cluster is left to serve. */
    method ClusterDeleted(cluster: Cluster, current: Option<Cluster>)
      modifies this
      ensures Value() == old(Value()).ClusterDeleted(cluster, current)
      ensures Value() == old(Value()) ||
              (record.None? && claims.None? && lease.None? && demandNext.None? && worker != Observing(false))
      ensures current.None? || current.value.uid == cluster.uid ==> record.None?
      ensures watchers == old(watchers) && dirty == old(dirty) && delayed == old(delayed)
    {
      if current.Some? && current.value.uid != cluster.uid {
        return;
      }
      DropKey();
    }

    /** What is read fails closed, and its timestamps are untouched. */
    method ReadRecord(now: int)
      modifies this`record
      ensures Value() == old(Value()).ReadRecord(now)
      ensures record.Some? <==> old(record).Some?
      ensures record.Some? ==>
                && (now < record.value.validUntil || Withdrawn(record.value))
                && record.value.observedAt == old(record).value.observedAt
                   && record.value.validUntil == old(record).value.validUntil
    {
      if record.Some? && now >= record.value.validUntil {
        var expired := Invalidate(record.value);
        record := Some(expired);
      }
    }

    /** Withdraws exactly the members with that ID from a record of the same incarnation: in time, all
        else stays as it is; late or expired, nothing is offered at all. */
    method MemberChanged(cluster: Cluster, id: string, now: int, late: bool)
      modifies this`record
      ensures Value() == old(Value()).MemberChanged(cluster, id, now, late)
      ensures record.Some? && record.value.cluster.uid == cluster.uid ==>
                forall i :: 0 <= i < |record.value.members| && record.value.members[i].id == id ==>
                      !record.value.members[i].ready
      ensures old(record).Some? && now < old(record).value.validUntil && !late ==>
                && record.Some? && |record.value.members| == |old(record).value.members|
                && record.value == old(record).value.(apiVersion := record.value.apiVersion, members :=
                   record.value.members)
                && (forall i :: 0 <= i < |record.value.members| && old(record).value.members[i].id != id ==>
                      record.value.members[i] == old(record).value.members[i])
      ensures Offers(record) ==> Offers(old(record)) && now < old(record).value.validUntil
    {
      ReadRecord(now);
      if record.None? || record.value.cluster.uid != cluster.uid {
        return;
      }
      var was := record.value.members;
      var members := was;
      var i := 0;
      while i < |members|
        invariant 0 <= i <= |members| == |was|
        invariant forall j :: 0 <= j < i ==> members[j] == MarkMember(was[j], id)
        invariant forall j :: i <= j < |members| ==> members[j] == was[j]
      {
        if members[i].id == id {
          members := members[i := members[i].(ready := false, reason := "member_changed")];
        }
        i := i + 1;
      }
      assert members == MarkMembers(was, id);
      Commit(record.value.(members := members), late);
    }

    /** A lost route is no longer offered: the whole record's if the pod was the current primary's, the
        member's otherwise. With demand, an event that matters queues the key. */
    method PodEvent(was: Option<Pod>, pod: Option<Pod>, cluster: Option<Cluster>, now: int, late: bool, present: bool)
      modifies this
      ensures Value() == old(Value()).PodEvent(key, was, pod, cluster, now, opts, late, present)
      ensures Loses(key, was, pod, cluster) && was.value.name == cluster.value.currentPrimary ==>
                !Offers(record) && worker != Observing(false)
      ensures Loses(key, was, pod, cluster) && was.value.name != cluster.value.currentPrimary
              && record.Some? && record.value.cluster.uid == cluster.value.uid ==>
                forall i :: 0 <= i < |record.value.members| && record.value.members[i].id == was.value.uid ==>
                      !record.value.members[i].ready
      ensures !Loses(key, was, pod, cluster) ==> record == old(record) && worker == old(worker)
      ensures !Unremarkable(was, pod) && Concerns(key, was, pod) && Value().Demanded(now) && present ==> dirty
    {
      if Unremarkable(was, pod) || !Concerns(key, was, pod) {
        return;
      }
      if cluster.Some? {
        if was.Some? && (pod.None? || !SamePodRoute(was.value, pod.value)) {
          if was.value.name == cluster.value.currentPrimary {
            CancelObservation();
            Commit(Unavailable(cluster.value, now, opts.ttl, "primary_changed"), late);
          } else {
            MemberChanged(cluster.value, was.value.uid, now, late);
          }
        }
      }
      Notify(now, present);
    }

    /** Nothing that used the stale CA is offered or published any more. */
    method SecretEvent(cluster: Cluster, now: int, late: bool, present: bool)
      modifies this
      ensures Value() == old(Value()).SecretEvent(cluster, now, opts, late, present)
      ensures !Offers(record) && worker != Observing(false)
      ensures record.Some? ==> record.value.connection.serverCAPEM == []
      ensures Value().Demanded(now) && present ==> dirty
    {
      CancelObservation();
      ReadRecord(now);
      if record.Some? && (record.value.available || |record.value.connection.serverCAPEM| != 0) {
        Commit(Unavailable(cluster, now, opts.ttl, "connection_defaults_changed"), late);
      }
      Notify(now, present);
    }

    /** The section that starts an observation; `going` tells it to collect. */
    method BeginCollection(latest: Option<Cluster>) returns (going: bool)
      modifies this
      ensures Value() == old(Value()).ObserveMissing(latest)
      ensures going ==> latest.Some? && latest.value.Active() && Value() == old(Value())
      ensures !going ==> record.None? && claims.None? && lease.None?
    {
      if latest.None? || !latest.value.enabled || latest.value.deleting {
        record, lease := None, None;
        claims := None;
        return false;
      }
      going := true;
    }

    /** A failure offers nothing; a superseded one changes nothing. */
    method PublishFailure(cancelled: bool, latest: Option<Cluster>, reason: string, now: int, late: bool)
      modifies this
      ensures Value() == old(Value()).PublishFailure(cancelled, latest, reason, now, opts, late)
      ensures if cancelled then Value() == old(Value()) else !Offers(record)
      ensures claims == old(claims)
    {
      if cancelled {
        return;
      }
      if latest.None? || !latest.value.enabled || latest.value.deleting {
        record, lease := None, None;
        return;
      }
      var snapshot := Unavailable(latest.value, now, opts.ttl, reason);
      snapshot := snapshot.(transitioning := latest.value.currentPrimary == ""
          || latest.value.currentPrimary != latest.value.targetPrimary);
      Commit(snapshot, late);
    }

    method RecordEvidence(o: Observation, latest: Cluster, pods: seq<Pod>) returns (conflict: bool)
      requires |o.results| == |o.probed|
      requires Collection(o.observed, latest, o.probed, pods, o.results).WellFormed()
      modifies this`claims
      ensures Value() == old(Value()).Recorded(o, latest, pods)
      ensures conflict == Value().Conflict(o, latest)
    {
      conflict := false;
      if o.observed.uid == latest.uid {
        var book := new EvidenceBook();
        if claims.Some? {
          book.primaries := map[latest.Key() := claims.value];
        }
        conflict := book.ConflictingPrimary(Collection(o.observed, latest, o.probed, pods, o.results));
        claims := Some(book.primaries[latest.Key()]);
      }
    }

    /** `pods` lists the current pods of the Cluster that was just read, and `caCurrent` is the verdict
        on the CA that the observation retained. Whatever is offered afterwards was before, or is a
        sound commit; a superseded observation publishes nothing. */
    method PublishObservation(o: Observation, latest: Option<Cluster>, pods: seq<Pod>, caCurrent: bool, now: int,
                              late: bool, present: bool)
        returns (done: bool)
      requires |o.results| == |o.probed|
      requires latest.Some? ==> Collection(o.observed, latest.value, o.probed, pods, o.results).WellFormed()
      modifies this
      ensures Value() == old(Value()).Publish(o, latest, pods, caCurrent, now, opts, late, present)
      ensures Offers(record) ==>
                || (record == old(record) && !PublishesVerified(o, latest, caCurrent))
                || (latest.Some? && SoundCommit(old(Value()), o, latest.value, pods, caCurrent, record.value))
      ensures o.cancelled ==> record == old(record) || record.None?
      ensures done <==>
                || latest.None? || !latest.value.Active()
                || (PublishesVerified(o, latest, caCurrent)
                    && old(Value()).Recorded(o, latest.value, pods).Verified(o, latest.value, pods, opts).available)
    {
      PublishIsSound(Value(), o, latest, pods, caCurrent, now, opts, late, present);
      if o.cancelled {
        SupersededPublishesNothing(Value(), o, latest, pods, caCurrent, now, opts, late, present);
      }
      done := RunSection(o, latest, pods, caCurrent, now, late, present);
    }

    /** The section itself; it is done for good when the Cluster is gone or the snapshot available. */
    method RunSection(o: Observation, latest: Option<Cluster>, pods: seq<Pod>, caCurrent: bool, now: int, late: bool,
                      present: bool)
        returns (done: bool)
      requires |o.results| == |o.probed|
      requires latest.Some? ==> Collection(o.observed, latest.value, o.probed, pods, o.results).WellFormed()
      modifies this
      ensures Value() == old(Value()).Publish(o, latest, pods, caCurrent, now, opts, late, present)
      ensures done <==>
                || latest.None? || !latest.value.Active()
                || (PublishesVerified(o, latest, caCurrent)
                    && old(Value()).Recorded(o, latest.value, pods).Verified(o, latest.value, pods, opts).available)
    {
      if latest.None? || !latest.value.enabled || latest.value.deleting {
        record, lease, claims := None, None, None;
        return true;
      }
      var c := latest.value;
      var conflict := RecordEvidence(o, c, pods);
      if o.cancelled || !o.ready {
        return false;
      }
      if !SameClusterRoute(o.observed, c) {
        Notify(now, present);
        Commit(Unavailable(c, now, opts.ttl, "topology_changed_during_observation"), late);
        return false;
      }
      if !caCurrent {
        Notify(now, present);
        Commit(Unavailable(c, now, opts.ttl, "connection_defaults_changed"), late);
        return false;
      }
      var snapshot := VerifiedSnapshot(o, c, pods, opts.ttl, conflict);
      Commit(snapshot, late);
      done := snapshot.available;
    }
  }

  /** The snapshot of a verified observation: a conflict withdraws every route of it. */
  method VerifiedSnapshot(o: Observation, c: Cluster, pods: seq<Pod>, ttl: int, conflict: bool)
        returns (snapshot: Snapshot)
    requires |o.results| == |o.probed|
    ensures var built := Built(c, pods, Mapped(o.probed, o.results, pods), o.Params(), o.started, ttl);
            snapshot == (if conflict then Conflicted(built) else built).(connection := o.Defaults())
    ensures conflict ==> Withdrawn(snapshot)
  {
    var mapped := MatchInstanceResults(o.probed, pods, o.results);
    snapshot := BuildSnapshot(c, pods, mapped, o.Params(), o.started, ttl);
    if conflict {
      snapshot := WithdrawConflict(snapshot);
    }
    snapshot := snapshot.(connection := o.Defaults());
  }

  lemma SwapPermutes(pods: seq<Pod>, i: nat)
    requires i < |pods|
    ensures multiset(pods[0 := pods[i]][i := pods[0]]) == multiset(pods)
  {
    var first := pods[0 := pods[i]];
    assert multiset(first) == multiset(pods) - multiset{pods[0]} + multiset{pods[i]};
    assert multiset(first[i := pods[0]]) == multiset(first) - multiset{pods[i]} + multiset{pods[0]};
  }

  /** Moves the expected primary to the front, so that it is verified before its standbys. */
  method PrimaryFirst(pods: array<Pod>, current: string)
    modifies pods
    ensures multiset(pods[..]) == multiset(old(pods[..]))
    ensures (exists i :: 0 <= i < pods.Length && old(pods[i]).name == current) ==> pods[0].name == current
    ensures (forall i :: 0 <= i < pods.Length ==> old(pods[i]).name != current) ==> pods[..] == old(pods[..])
  {
    var i := 0;
    while i < pods.Length
      invariant 0 <= i <= pods.Length && pods[..] == old(pods[..])
      invariant forall j :: 0 <= j < i ==> pods[j].name != current
    {
      if pods[i].name == current {
        ghost var was := pods[..];
        pods[0], pods[i] := pods[i], pods[0];
        assert pods[..] == was[0 := was[i]][i := was[0]];
        SwapPermutes(was, i);
        return;
      }
      i := i + 1;
    }
  }

  method WithdrawConflict(s: Snapshot) returns (r: Snapshot)
    ensures r == Conflicted(s) && Withdrawn(r)
  {
    var members := s.members;
    var i := 0;
    while i < |members|
      invariant 0 <= i <= |members| == |s.members|
      invariant forall j :: 0 <= j < i ==> members[j] == s.members[j].(ready := false)
      invariant forall j :: i <= j < |members| ==> members[j] == s.members[j]
    {
      members := members[i := members[i].(ready := false)];
      i := i + 1;
    }
    r := s.(available := false, primaryID := "", reason := "multiple_primaries_observed", members := members);
    assert r.members == Conflicted(s).members;
  }
}

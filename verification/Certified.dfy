/**
  The observer of one Cluster key together with the CA cache, Secret by Secret. Whether a retained
  CA is current is decided here from the cache and the Secret informer, in the section that
  publishes; and a stale Secret event supersedes the observations that used it.
 */
module Certified {
  import opened Keys
  import opened Api
  import opened Metadata
  import opened Slices
  import opened Commits
  import opened CACaches
  import opened Quiescence
  import P = Protocol
  import CA = CAProtocol
  import Schedule

  /** `secrets` holds the Secrets of the key's namespace that were ever touched, by name. */
  datatype System = System(observer: P.World, secrets: map<string, CA.World>) {
    function Secret(name: string): CA.World {
      if name in secrets then secrets[name] else CA.START
    }
  }

  datatype Action =
    | Observe(action: P.Action)
    | Publish(o: Observation, read: nat, podsRead: nat, list: seq<Pod>, secretRead: nat, late: bool)
    | HandleSecret(name: string, secretRead: nat, read: nat, late: bool)
    | Cache(name: string, step: CA.Action, notifies: bool)

  function Start(key: ClusterKey, opts: Options, now: int): System {
    System(P.Start(key, opts, now), map[])
  }

  function SecretName(c: Cluster): string {
    c.certificates.serverCASecret
  }

  /** The index of Clusters by CA lists those that are enabled, not being deleted and name one. */
  predicate Uses(c: Option<Cluster>, name: string) {
    c.Some? && c.value.Active() && name != "" && SecretName(c.value) == name
  }

  /** The verdict on the CA that the observation retained. */
  predicate CurrentCA(v: System, o: Observation, secretRead: nat) {
    var s := v.Secret(SecretName(o.observed));
    secretRead < |s.contents| && s.cell.Current(Some(o.ca), s.contents[secretRead])
  }

  function PublishStep(v: System, a: Action): P.Action
    requires a.Publish?
  {
    P.Publish(a.o, a.read, a.podsRead, a.list, CurrentCA(v, a.o, a.secretRead), a.late)
  }

  ghost predicate Possible(v: System, a: Action) {
    match a
    case Observe(b) => !b.Publish? && !b.HandleSecret?
    case Publish(o, _, _, _, secretRead, _) => CA.Reads(v.Secret(SecretName(o.observed)), secretRead)
    case HandleSecret(name, secretRead, read, _) =>
      CA.Possible(v.Secret(name), CA.Handle(secretRead)) && P.Reads(v.observer, read)
    case Cache(_, step, _) => !step.Handle?
  }

  /** An event of a Secret whose cached entry is still current changes nothing else. */
  predicate Supersedes(v: System, name: string, secretRead: nat, read: nat)
    requires secretRead < |v.Secret(name).contents| && read < |v.observer.clusters|
  {
    var s := v.Secret(name);
    !s.cell.Fresh(s.contents[secretRead]) && Uses(v.observer.clusters[read], name)
  }

  /** The observer's part of an action, if it has one. */
  ghost function Part(v: System, a: Action): Option<P.Action>
    requires Possible(v, a)
  {
    match a
    case Observe(b) => Some(b)
    case Publish(_, _, _, _, _, _) => Some(PublishStep(v, a))
    case HandleSecret(name, secretRead, read, late) =>
      if Supersedes(v, name, secretRead, read) then Some(P.HandleSecret(read, late)) else None
    case Cache(_, _, notifies) => if notifies then Some(P.Notified) else None
  }

  /** The cache's part: publishing reads a Secret, and the end of its section is seen by later reads. */
  function SecretsAfter(v: System, a: Action): map<string, CA.World> {
    match a
    case Observe(_) => v.secrets
    case Publish(o, _, _, _, _, _) => v.secrets[SecretName(o.observed) := CA.Left(v.Secret(SecretName(o.observed)))]
    case HandleSecret(name, secretRead, _, _) => v.secrets[name := CA.Next(v.Secret(name), CA.Handle(secretRead))]
    case Cache(name, step, _) => v.secrets[name := CA.Next(v.Secret(name), step)]
  }

  ghost function Next(v: System, a: Action): System {
    if !Possible(v, a) then v else
    System(if Part(v, a).None? then v.observer else P.Next(v.observer, Part(v, a).value), SecretsAfter(v, a))
  }

  ghost function Run(v: System, actions: seq<Action>): System
    decreases actions
  {
    if actions == [] then v else Run(Next(v, actions[0]), actions[1..])
  }

  ghost predicate SecretsOk(v: System) {
    forall name :: CA.Inv(v.Secret(name))
  }

  lemma AfterKeepsSecrets(v: System, a: Action, name: string)
    requires CA.Inv(v.Secret(name))
    ensures CA.Inv(v.(secrets := SecretsAfter(v, a)).Secret(name))
  {
    match a
    case Observe(_) =>
    case Publish(_, _, _, _, _, _) =>
    case HandleSecret(n, secretRead, _, _) => if n == name { CA.StepKeepsInv(v.Secret(name), CA.Handle(secretRead)); }
    case Cache(n, step, _) => if n == name { CA.StepKeepsInv(v.Secret(name), step); }
  }

  lemma StepKeepsSecrets(v: System, a: Action)
    requires SecretsOk(v)
    ensures SecretsOk(Next(v, a))
  {
    if Possible(v, a) {
      forall name
        ensures CA.Inv(Next(v, a).Secret(name))
      {
        assert CA.Inv(v.Secret(name));
        AfterKeepsSecrets(v, a, name);
        assert Next(v, a).Secret(name) == v.(secrets := SecretsAfter(v, a)).Secret(name);
      }
    }
  }

  lemma {:induction false} RunKeepsSecrets(v: System, actions: seq<Action>)
    requires SecretsOk(v)
    ensures SecretsOk(Run(v, actions))
    decreases actions
  {
    if actions != [] {
      StepKeepsSecrets(v, actions[0]);
      RunKeepsSecrets(Next(v, actions[0]), actions[1..]);
    }
  }

  lemma StartIsOk(key: ClusterKey, opts: Options, now: int)
    ensures SecretsOk(Start(key, opts, now))
  {
    forall name
      ensures CA.Inv(Start(key, opts, now).Secret(name))
    {
      assert Start(key, opts, now).Secret(name) == CA.START;
    }
  }

  /** In every run, and for every Secret, a cached entry's version was the informer's both when its read
      began and when it was installed, and is the current one once no handler is outstanding; and a
      pending fetch is under way. */
  lemma EverySecretIsKept(key: ClusterKey, opts: Options, now: int, actions: seq<Action>, name: string)
    ensures var s := Run(Start(key, opts, now), actions).Secret(name);
            && (s.cell.pending ==> CA.Underway(s.cell))
            && (s.cell.entry.Some? ==>
                  var version := s.cell.entry.value.version;
                  && CA.At(s.contents, s.verified.0, version) && CA.At(s.contents, s.verified.1, version)
                  && s.verified.0 <= s.verified.1 && (s.handled + 1 == |s.contents| ==>
                       CA.At(s.contents, s.handled, version)))
  {
    StartIsOk(key, opts, now);
    RunKeepsSecrets(Start(key, opts, now), actions);
    assert CA.Inv(Run(Start(key, opts, now), actions).Secret(name));
  }

  // ---- What a publication has verified ----

  /** The step publishes an observation in flight that nothing superseded, whose retained CA is the
      cached object and the Secret informer's version, as it was when that object was read and
      installed; and what it publishes is that CA and nothing else. */
  ghost predicate Certifies(v: System, a: Action) {
    && a.Publish? && Possible(v, a) && Verifies(v.observer, PublishStep(v, a))
    && var s := v.Secret(SecretName(a.o.observed));
       && v.observer.slice.worker == Observing(false) && a.o.ready
       && s.cell.entry == Some(a.o.ca) && a.secretRead < |s.contents|
          && s.contents[a.secretRead] == Some(a.o.ca.version)
       && CA.At(s.contents, s.verified.0, a.o.ca.version) && CA.At(s.contents, s.verified.1, a.o.ca.version)
       && Publishes(Next(v, a).observer, a.o)
  }

  /** The record is the one that the observation published. */
  predicate Publishes(w: P.World, o: Observation) {
    && Offers(w.slice.record) && w.slice.record.value.connection == Connection(o.observed.database, o.ca.public)
    && w.source.Source? && w.source.observation == o
  }

  /** What is offered is of the same observation as before, at most with members withdrawn. */
  predicate Retains(w: P.World, v: P.World) {
    && Offers(w.slice.record) && Offers(v.slice.record) && SamePrimary(w.slice.record.value, v.slice.record.value)
    && v.source == w.source
  }

  lemma PublicationIsCertified(v: System, a: Action)
    requires SecretsOk(v) && a.Publish? && Possible(v, a) && Verifies(v.observer, PublishStep(v, a))
    ensures Certifies(v, a)
  {
    assert CA.Inv(v.Secret(SecretName(a.o.observed)));
    VerifiedPublishes(v.observer, PublishStep(v, a));
  }

  lemma VerifiedPublishes(w: P.World, a: P.Action)
    requires Verifies(w, a)
    ensures Publishes(P.Next(w, a), a.o)
    ensures w.slice.worker == Observing(false) && a.o.ready && a.caCurrent
  {
    StepSource(w, a);
  }

  lemma StepIsCertified(v: System, a: Action)
    requires SecretsOk(v) && Offers(Next(v, a).observer.slice.record)
    ensures Certifies(v, a) || Retains(v.observer, Next(v, a).observer)
  {
    if Possible(v, a) && Part(v, a).Some? {
      StepOffers(v.observer, Part(v, a).value);
      StepSource(v.observer, Part(v, a).value);
      if Verifies(v.observer, Part(v, a).value) {
        PublicationIsCertified(v, a);
      }
    }
  }

  lemma RunPrefix(v: System, actions: seq<Action>, j: nat)
    requires j < |actions| - 1
    ensures Run(v, actions[..j + 1]) == Run(Next(v, actions[0]), actions[1..][..j])
  {
    assert actions[..j + 1][1..] == actions[1..][..j];
  }

  /** In every run, an available record was published by a certified step, and since then only
      members were withdrawn from it. Step `k` is that one, unless the record was there before. */
  lemma {:induction false} OffersAreCertified(v: System, actions: seq<Action>) returns (k: int)
    requires SecretsOk(v) && Offers(Run(v, actions).observer.slice.record)
    ensures -1 <= k < |actions|
    ensures k >= 0 ==> Certifies(Run(v, actions[..k]), actions[k])
    ensures var since := if k < 0 then v else Next(Run(v, actions[..k]), actions[k]);
            Retains(since.observer, Run(v, actions).observer)
    decreases actions
  {
    if actions == [] {
      k := -1;
    } else {
      StepKeepsSecrets(v, actions[0]);
      var j := OffersAreCertified(Next(v, actions[0]), actions[1..]);
      if j >= 0 {
        k := j + 1;
        RunPrefix(v, actions, j);
      } else {
        StepIsCertified(v, actions[0]);
        if Certifies(v, actions[0]) {
          k := 0;
          assert actions[..0] == [];
        } else {
          k := -1;
        }
      }
    }
  }

  /** From the start, every available record goes back to a certified publication of its CA. */
  lemma EveryOfferIsCertified(key: ClusterKey, opts: Options, now: int, actions: seq<Action>) returns (k: nat)
    requires Offers(Run(Start(key, opts, now), actions).observer.slice.record)
    ensures k < |actions|
    ensures var v, final := Run(Start(key, opts, now), actions[..k]), Run(Start(key, opts, now), actions);
            Certifies(v, actions[k]) && Publishes(final.observer, actions[k].o)
  {
    StartIsOk(key, opts, now);
    var j := OffersAreCertified(Start(key, opts, now), actions);
    k := j;
  }

  /** A superseded observation commits nothing: the record stays, or goes because its Cluster has. */
  lemma SupersededCommitsNothing(w: P.World, a: P.Action)
    requires w.slice.worker == Observing(true) && P.Possible(w, a) && (a.Publish? || a.Fail?)
    ensures var after := P.Next(w, a).slice.record;
            || after == w.slice.record
            || (after.None? && (w.clusters[a.read].None? || !w.clusters[a.read].value.Active()))
  {
    if a.Publish? {
      SupersededPublishesNothing(w.slice, a.o, w.clusters[a.read], a.list, a.caCurrent, w.now, w.opts, a.late,
          P.Present(w));
    }
  }

  /** A Secret event that finds its cached entry stale withdraws the route and stops the observation
      in flight, whose retained CA is then no longer the cached one. */
  lemma StaleSecretStopsPublication(v: System, name: string, secretRead: nat, read: nat, late: bool)
    requires Possible(v, HandleSecret(name, secretRead, read, late)) && Supersedes(v, name, secretRead, read)
    ensures var after := Next(v, HandleSecret(name, secretRead, read, late));
            && !Offers(after.observer.slice.record) && after.observer.slice.worker != Observing(false)
            && after.Secret(name).cell.entry.None?
  {
    SecretStops(v.observer.slice, v.observer.clusters[read].value, v.observer.now, v.observer.opts, late,
        P.Present(v.observer));
  }

  lemma SecretStops(s: Slice, c: Cluster, now: int, opts: Options, late: bool, present: bool)
    ensures var t := s.SecretEvent(c, now, opts, late, present); !Offers(t.record) && t.worker != Observing(false)
  {
  }

  // ---- An offer whose CA was replaced ----

  ghost predicate Kept(w: P.World) {
    Basics(w) && Sound(w) && Schedule.Kept(w)
  }

  lemma ObserverStep(w: P.World, a: P.Action)
    requires Kept(w)
    ensures Kept(P.Next(w, a))
  {
    StepKeepsBasics(w, a);
    StepKeepsSound(w, a);
    Schedule.StepKeeps(w, a);
  }

  lemma StepKeepsObserver(v: System, a: Action)
    requires Kept(v.observer)
    ensures Kept(Next(v, a).observer)
  {
    if Possible(v, a) && Part(v, a).Some? {
      ObserverStep(v.observer, Part(v, a).value);
    }
  }

  lemma {:induction false} RunKeepsObserver(v: System, actions: seq<Action>)
    requires Kept(v.observer)
    ensures Kept(Run(v, actions).observer)
    decreases actions
  {
    if actions != [] {
      StepKeepsObserver(v, actions[0]);
      RunKeepsObserver(Next(v, actions[0]), actions[1..]);
    }
  }

  /** Once no Cluster handler is outstanding, an offered record is of a certified publication whose CA was
      that of the Secret, and whose database the one, that the informer's Cluster names now. */
  lemma OfferNamesItsSecret(key: ClusterKey, opts: Options, now: int, actions: seq<Action>) returns (k: nat)
    requires var w := Run(Start(key, opts, now), actions).observer;
             Offers(w.slice.record) && w.handled + 1 == |w.clusters|
    ensures k < |actions| && Certifies(Run(Start(key, opts, now), actions[..k]), actions[k])
    ensures var w := Run(Start(key, opts, now), actions).observer;
            P.Present(w) && NamesItsSecret(w.clusters[w.handled].value, actions[k].o, w.slice.record.value)
  {
    k := EveryOfferIsCertified(key, opts, now, actions);
    EveryRunIsKept(key, opts, now, actions);
    SourceNamesItsSecret(Run(Start(key, opts, now), actions).observer, actions[k].o);
  }

  lemma EveryRunIsKept(key: ClusterKey, opts: Options, now: int, actions: seq<Action>)
    ensures Kept(Run(Start(key, opts, now), actions).observer)
  {
    RunKeepsObserver(Start(key, opts, now), actions);
  }

  predicate NamesItsSecret(c: Cluster, o: Observation, x: Snapshot) {
    && o.observed.certificates.serverCASecret == c.certificates.serverCASecret
    && x.connection.serverCAPEM == o.ca.public && x.connection.database == c.database
  }

  lemma SourceNamesItsSecret(w: P.World, o: Observation)
    requires Kept(w) && Publishes(w, o) && w.handled + 1 == |w.clusters|
    ensures P.Present(w) && NamesItsSecret(w.clusters[w.handled].value, o, w.slice.record.value)
  {
    HandledMeansUnmoved(w.clusters, w.handled, w.source.clusterIndex);
  }

  /** An offered record does not carry the CA that is cached for its Cluster now. */
  ghost predicate Outdated(v: System) {
    && Offers(v.observer.slice.record) && P.Present(v.observer)
    && var entry := v.Secret(SecretName(v.observer.clusters[|v.observer.clusters| - 1].value)).cell.entry;
       entry.None? || entry.value.public != v.observer.slice.record.value.connection.serverCAPEM
  }

  /** In every run, with no Cluster handler and no demand callback outstanding, an offered record that has
      demand is going to be observed again; so is one whose CA was replaced before the Secret's handler ran. */
  lemma OutdatedOfferIsScheduled(key: ClusterKey, opts: Options, now: int, actions: seq<Action>)
    requires var v := Run(Start(key, opts, now), actions);
             && Outdated(v) && v.observer.handled + 1 == |v.observer.clusters|
             && v.observer.slice.callbacks == 0 && v.observer.slice.Demanded(v.observer.now)
    ensures Schedule.Scheduled(Run(Start(key, opts, now), actions).observer.slice)
  {
    EveryRunIsKept(key, opts, now, actions);
    OfferIsScheduled(Run(Start(key, opts, now), actions).observer);
  }

  lemma OfferIsScheduled(w: P.World)
    requires Kept(w) && Offers(w.slice.record) && w.handled + 1 == |w.clusters|
    requires w.slice.callbacks == 0 && w.slice.Demanded(w.now)
    ensures Schedule.Scheduled(w.slice)
  {
    HandledMeansUnmoved(w.clusters, w.handled, w.source.clusterIndex);
  }

  /** The record is offered with the CA that is cached for that Secret. */
  ghost predicate Carries(v: System, name: string) {
    && Offers(v.observer.slice.record) && v.Secret(name).cell.entry.Some?
    && v.Secret(name).cell.entry.value.public == v.observer.slice.record.value.connection.serverCAPEM
  }

  /** The step drops or replaces the cached CA and does not withdraw: a sweep of a Secret that no demanded
      Cluster uses, the end of a fetch that installs another CA, or a stale event of the Secret that finds
      no Cluster to use it. */
  ghost predicate Outdates(v: System, a: Action, name: string) {
    && Possible(v, a)
    && match a
       case HandleSecret(n, secretRead, read, _) =>
         n == name && !v.Secret(name).cell.Fresh(v.Secret(name).contents[secretRead])
             && !Supersedes(v, name, secretRead, read)
       case Cache(n, step, _) => n == name && ReplacesEntry(v.Secret(name), step)
       case _ => false
  }

  ghost predicate ReplacesEntry(s: CA.World, step: CA.Action) {
    && CA.Possible(s, step) && s.cell.entry.Some?
    && match step
       case Prune(demanded) => !demanded
       case End(ca, read, expired, ready, demanded) =>
         && demanded && s.cell.Verifies(CA.Returned(s, ca), s.contents[read], expired, ready)
         && ca.value.1 != s.cell.entry.value.public
       case _ => false
  }

  /** What a step of the cache does to the CA that is cached. */
  lemma EntryReplacedIff(s: CA.World, step: CA.Action)
    requires s.cell.entry.Some? && !step.Handle?
    ensures var after := CA.Next(s, step).cell.entry;
            after.None? || after.value.public != s.cell.entry.value.public <==> ReplacesEntry(s, step)
  {
  }

  lemma EntryHandled(s: CA.World, read: nat)
    requires CA.Possible(s, CA.Handle(read))
    ensures CA.Next(s, CA.Handle(read)).cell.entry == if s.cell.Fresh(s.contents[read]) then s.cell.entry else None
  {
  }

  /** Apart from publications, a step leaves an offered record without its cached CA exactly then. */
  lemma StepOutdatesIff(v: System, a: Action, name: string)
    requires Carries(v, name) && !a.Publish? && Offers(Next(v, a).observer.slice.record) && SecretsOk(v)
    ensures !Carries(Next(v, a), name) <==> Outdates(v, a, name)
  {
    StepIsCertified(v, a);
    match a
    case HandleSecret(n, secretRead, read, late) =>
      if Possible(v, a) {
        EntryHandled(v.Secret(n), secretRead);
        if Supersedes(v, n, secretRead, read) {
          StaleSecretStopsPublication(v, n, secretRead, read, late);
        }
      }
    case Cache(n, step, _) =>
      if n == name && Possible(v, a) {
        EntryReplacedIff(v.Secret(name), step);
      }
    case _ =>
  }

  /** And a certified publication carries the cached CA of its Cluster's Secret. */
  lemma PublicationCarries(v: System, a: Action)
    requires Certifies(v, a)
    ensures Carries(Next(v, a), SecretName(a.o.observed))
  {
  }
}

# Topology discovery: a verified model

This project models the service that observes CloudNativePG clusters and publishes their topology,
and proves what its concurrent parts guarantee in every interleaving. A critical section of a
mutex is one atomic step, time is an integer that never decreases, and whatever a step reads from
an informer, a probe or the API server is an arbitrary input, constrained only where the source
relies on it. Objects that the source updates in place are classes; each of their methods is proved
equal to a function on the value the object holds, and the theorems are about runs of those
functions.

The parts, in the order in which they build on each other:

- **The observation queue** (`Queue.dfy`, `QueueService.dfy`): two FIFO lanes over one coalescing
  state; refinement of a set of pending and active keys, one follow-up per active key, draining,
  and service bounds for both lanes.
- **The discovery store and its watch streams** (`Ordering.dfy`, `Api.dfy`, `Routing.dfy`,
  `Store.dfy`, `Mailbox.dfy`, `Watch.dfy`, `Convergence.dfy`, `Publications.dfy`, `Demand.dfy`):
  commits, deliveries in any order and any number of times, one-slot mailboxes, expiry lookups.
- **Classification and evidence** (`Metadata.dfy`, `Topology.dfy`, `Classification.dfy`,
  `Evidence.dfy`): when a snapshot is available, which members are ready, what is published of each,
  and how long a claim to be primary is remembered.
- **The observer** (`Slice.dfy`, `Commits.dfy`, `Effects.dfy`, `Observer.dfy`, `Informers.dfy`,
  `Protocol.dfy`, `Quiescence.dfy`, `Unready.dfy`, `Pending.dfy`, `Stray.dfy`, `Revived.dfy`,
  `Memory.dfy`, `Forgotten.dfy`, `Schedule.dfy`): one Cluster key, the contents its informers have
  held, the events whose handlers have run, and observations that span both.
- **The CA cache** (`CACache.dfy`, `CAProtocol.dfy`) and the observer with it (`Certified.dfy`,
  `Outdated.dfy`): what a publication has verified about the CA it carries.
- **The whole service** (`Sections.dfy`, `Reasons.dfy`, `EndToEnd.dfy`, `ServiceRuns.dfy`): the
  observer's critical sections commit to the store while streams, deliveries and expiry run between
  those commits.
- **Probe slots** (`ProbeSlots.dfy`), **cache projections** (`Projection.dfy`, `PodProjection.dfy`) and
  what is read from the objects they keep (`Readers.dfy`).

The functions that specify the methods also have statements of their own, in terms of the fields that
go in and come out: `Classification`, `Effects` and `Readers` hold most of them.

Some promises hold only under a condition, and the project states exactly which:

- A stream forwards a snapshot past its validity if it carries the reason `deleted` but still offers
  a route, since streams recognise tombstones by that reason. `Publications.StreamsFailClosed` and
  `Publications.UnsafePutLeaks` show that this is the only way, `Reasons.ObserverPutsAreSafe` that no
  snapshot the observer puts takes it, and `ServiceRuns.StreamsFailClosed` that the service fails closed.
- An available record can name a primary that is not ready. `Unready.StepDemotesIff` states exactly
  which pod event makes it so, `Unready.UnreadyWasDemoted` that nothing else does, and
  `Unready.DemotableIsDemoted` that it can happen wherever a Cluster content that has moved its
  primary on can be read; `Quiescence.UnreadyPrimaryIsPending` that its delivery is then outstanding.
- Evidence of a conflict can be cleared unreleased while its Cluster lives, by an event of a
  predecessor that is handled late (`Forgotten.LiveClaimIsForgotten`). `Memory.StepClaims` states
  exactly when a step clears it, and `Memory.ClaimsPersistThroughout` that none does while one
  incarnation lasts from the last handled event on.
- A disabled Cluster can have a record again after its own event removed it, since a pod event does
  not ask whether the Cluster is enabled. `Stray.StepRevivesIff` and `Stray.StrayWasRevived` state
  exactly which event makes it, `Stray.RevivableIsRevived` that it happens wherever it can, and
  `Stray.StrayOffersNothing` that what it makes offers nothing. No Cluster event is left to remove it:
  with demand the key is queued, and the observation that follows does (`Stray.RevivedIsQueued`,
  `Stray.ObservationRemovesStray`); without demand it stays. A Cluster that is gone has no record.
- The annotation of an offered Cluster can fail to parse, if it is present and empty: such a one equals
  an absent one in the route comparison. `Quiescence.OfferedAnnotationParses` states that it parses
  exactly otherwise, `Quiescence.EmptyAnnotationKeepsRoute` that it happens to every unfenced Cluster
  given such an annotation, and `Pending.EmptyAnnotationIsOffered` gives a run.
- An offered record can carry a CA that is no longer the cached one although every Secret event is
  handled (`Outdated.ReplacedCAIsOffered`). `Certified.StepOutdatesIff` states exactly which steps make
  it so, and `Certified.OutdatedOfferIsScheduled` that with demand it will be observed again.
- The routing digest depends on an unstable sort; it is determined exactly when the pair of ID and
  name identifies the members (`Routing.DigestIsDeterminedIff`).
- Cache projection changes what is read from objects that are not well formed
  (`Projection.ViewIsKeptIff`, `PodProjection.PodIsKeptIff`).

Where comments in the source and its code differ, or are silent, the model follows the code: an
empty fencing annotation is malformed for classification, no fence for evidence, and equal to an
absent one in a route comparison; cache projection is said to keep a rejected plugin definition
rejected, which holds for a malformed list but not for a `spec` that is no object.

## Model

| member | source | states |
|---|---|---|
| `PriorityQueues.PromoteKeepsValid` | internal/observer/queue.go:53-65 | promoting keeps the lanes a partition of the queued keys, urgent exactly when promoted, and leaves a key that is not queued marked only |
| `PriorityQueues.AddKeepsValid` | internal/observer/queue.go:67-80 | adding keeps `dirty` exactly the queued keys plus the active keys that owe a follow-up |
| `PriorityQueues.PushKeepsValid` | internal/observer/queue.go:84-91 | queueing an owed key that is in no lane restores the invariant |
| `PriorityQueues.GetKeepsValid` | internal/observer/queue.go:109-138 | dequeuing from either lane keeps the invariant and the burst bound |
| `PriorityQueues.DoneKeepsValid` | internal/observer/queue.go:148-159 | finishing a key keeps the invariant, with or without a follow-up |
| `PriorityQueues.PriorityQueue.Promote` | internal/observer/queue.go:53-65 | the object moves a queued key to the urgent lane as specified, and stays valid |
| `PriorityQueues.PriorityQueue.Add` | internal/observer/queue.go:67-80 | the object coalesces an event as specified, and stays valid |
| `PriorityQueues.PriorityQueue.Push` | internal/observer/queue.go:84-91 | the object appends the key to the lane its promotion chooses |
| `PriorityQueues.PriorityQueue.Get` | internal/observer/queue.go:109-138 | one evaluation of the wait loop: waits, reports shutdown, or hands out the specified key |
| `PriorityQueues.PriorityQueue.Dequeue` | internal/observer/queue.go:119-137 | the lane choice with its burst counter, and the bookkeeping of the key taken |
| `QueueService.UrgencyIsFixed` | internal/observer/queue.go:140-146 | until it is done, a key that was handed out counts as urgent exactly if it was promoted when it was taken, whatever is promoted or added meanwhile |
| `PriorityQueues.PriorityQueue.Done` | internal/observer/queue.go:148-159 | the object releases the key and queues its follow-up as specified |
| `PriorityQueues.PriorityQueue.ShutDown` | internal/observer/queue.go:163-169 | shutdown closes the queue and ends a drain; additions and promotions are ignored from then on |
| `PriorityQueues.PriorityQueue.BeginDrain` | internal/observer/queue.go:173-182 | a drain closes the queue; the returned flag is its exit test |
| `QueueService.RunKeepsValid` | internal/observer/queue.go:53-182 | the representation invariant holds after every run of operations |
| `QueueService.RefinesWorkSet` | internal/observer/queue.go:53-182 | every operation is one of an unordered work set: nothing pending is lost, no key is active twice, active urgency is fixed, a regular worker waits only when nothing is available |
| `QueueService.OneFollowUp` | internal/observer/queue.go:67-80 | whatever happens while a key is active, finishing it queues exactly one follow-up if and only if some add asked for one, urgent if and only if some event promoted it |
| `QueueService.ClosedStepFalls` | internal/observer/queue.go:67-159 | on a closed queue each dequeue and each effective Done lowers twice the dirty keys plus the active ones by one, and nothing else changes it |
| `QueueService.ClosedRunDrains` | internal/observer/queue.go:161-182 | over any run after shutdown that measure falls by exactly the number of effective operations |
| `QueueService.DrainExitMeansNothingOwed` | internal/observer/queue.go:173-182 | the drain's exit test holds exactly when nothing is owed, and until then some operation makes progress |
| `QueueService.BackgroundServed` | internal/observer/queue.go:109-138 | a background key at position i with burst b has left the background lane within 9*i+9-b regular dequeues, whatever interleaves, on a closed queue too, where promotions do nothing |
| `QueueService.BackgroundBoundIsTight` | internal/observer/queue.go:109-138 | with enough urgent work, one dequeue fewer leaves the key waiting |
| `QueueService.BackgroundTurnIff` | internal/observer/queue.go:109-138 | in every run from the empty queue, a regular dequeue that finds both lanes occupied takes a background key exactly if at least eight regular dequeues took urgent keys since the last background one; dequeues of the urgent worker do not count |
| `QueueService.UrgentServed` | internal/observer/queue.go:109-138 | an urgent key at position j waits for at most j urgent dequeues and one background dequeue per eight urgent ones spent or ahead, plus one |
| `QueueService.UrgentLaneIff` | internal/observer/queue.go:53-91 | in every run, a queued key is in the urgent lane exactly if it was promoted since it was last handed out |
| `Api.Invalidate` | internal/discovery/store.go:400-408 | invalidation withdraws availability and primary, and publishes every member as it was except that it is not ready and says that it expired; both timestamps stay |
| `Api.InvalidatedForm` | internal/discovery/store.go:400-408 | an expired snapshot has the same cluster, connection, timestamps and transition flag, offers nothing, has the reason expired, and as many members, each the same except ready and reason |
| `Ordering.LessIff` | internal/discovery/store.go:424-444 | the order of strings that members and Clusters are sorted by is that of dictionaries |
| `Routing.RoutingDigest` | internal/discovery/store.go:424-444 | the digest is of a canonical form: revision, timestamps and replay positions cleared, members sorted and permuted only |
| `Routing.EqualDigestsMeanSameRouting` | internal/discovery/store.go:424-444 | equal digests mean equal routing, whatever arrangement the sort chose |
| `Routing.DigestIsCanonical` | internal/discovery/store.go:424-444 | when ID and name identify the members, digests are equal if and only if routing is equal up to member order, replay positions and timestamps |
| `Routing.DigestIsDeterminedIff` | internal/discovery/store.go:424-444 | a snapshot has one digest exactly when ID and name identify its members |
| `Routing.DuplicateMembersBreakTheDigest` | internal/discovery/store.go:424-444 | a snapshot with two digests |
| `Routing.MembersAreToldApart` | internal/discovery/store.go:424-444 | the digest tells members apart by every field but the replay position |
| `Stores.PutKeepsValid` | internal/discovery/store.go:146-177 | a Put keeps every record's key, digest, order and revision consistent, and expired records withdrawn |
| `Stores.ExpireKeepsValid` | internal/discovery/store.go:362-377 | so does expiry |
| `Stores.DeleteKeepsValid` | internal/discovery/store.go:187-209 | so does deletion |
| `Stores.RegisterKeepsValid` | internal/discovery/store.go:287-330 | so does registration |
| `Stores.ReadsFailClosed` | internal/discovery/store.go:248-260 | after its expiry check a record is within its validity or offers no route |
| `Stores.PutPublishes` | internal/discovery/store.go:146-177 | a Put publishes the snapshot field by field as it is, or its expired form if it came too late, and which of them can still expire |
| `Stores.ExpiryPublishes` | internal/discovery/store.go:362-377 | expiry publishes the record in its expired form, once |
| `Stores.DeletionPublishes` | internal/discovery/store.go:187-209 | a tombstone keeps cluster, connection and timestamps, and no topology; its revision is new and the record is gone |
| `Stores.Store.SetDemandHandler` | internal/discovery/store.go:62-67 | from then on a refresh fires the callback exactly for a known key without demand, and makes demand for the length of the lease |
| `Stores.Store.PutDeferred` | internal/discovery/store.go:146-177 | commits the snapshot as put, or its expired form member by member if its validity ended before or while waiting for the lock, under a new revision exactly when the digest changed, and captures the watchers |
| `Stores.Store.DeleteDeferred` | internal/discovery/store.go:187-209 | ends the lease, removes the record, and publishes a withdrawn tombstone with the record's cluster and timestamps and no members |
| `Stores.Store.ExpireRecord` | internal/discovery/store.go:362-377 | commits the expiry of a record that is due and not yet expired, once, with every member kept except that it is not ready and says that it expired |
| `Stores.Store.ReadPublication` | internal/discovery/store.go:248-260 | returns the record after its expiry check, or nothing |
| `Stores.Store.Register` | internal/discovery/store.go:287-330 | refuses an unknown key if asked to; otherwise expires first, adds the watcher, returns the initial publication and says whether the demand callback fires |
| `Stores.Store.Unregister` | internal/discovery/store.go:317-328 | removes the watcher, and the key with its last one |
| `Stores.Store.HasDemand` | internal/discovery/store.go:353-360 | a watcher or a lease that has not ended; an ended lease is dropped |
| `Stores.Store.RequestRefresh` | internal/discovery/store.go:73-91 | accepts exactly known keys, renews the lease, and says whether the callback fires |
| `Stores.Store.Expire` | internal/discovery/store.go:333-350 | afterwards no record is due and no lease has ended; the notifications are exactly those of the records that were due, each once and in publication order |
| `Stores.Store.ActiveClusters` | internal/discovery/store.go:103-131 | exactly the known demanded Clusters, strictly sorted by namespace and then by name |
| `Mailboxes.Subscription.Deliver` | internal/discovery/publication.go:48-64 | the mailbox accepts only newer publications, keeps the newest, and counts what it replaced |
| `Mailboxes.Subscription.ReplacePending` | internal/discovery/publication.go:79-88 | the slot holds the latest value, and the result says whether one was replaced |
| `Mailboxes.Subscription.Close` | internal/discovery/publication.go:66-75 | no delivery changes a closed mailbox, and what is in its slot can still be received |
| `Mailboxes.NewestWins` | internal/discovery/publication.go:48-64 | an open mailbox holds the newest publication delivered to it, and nothing that is not newer is accepted, also after a receive |
| `Mailboxes.DeliverAll` | internal/discovery/publication.go:30-34 | every captured watcher that is open has accepted this publication or a newer one |
| `Mailboxes.TopologyStream.OnUpdate` | internal/discovery/grpc.go:61-92 | one iteration of the watch loop: looks up what expired in the mailbox, passes on the notification of an expiry that the lookup commits, sends only what is newer than everything sent, and fails closed |
| `Convergence.RunKeepsInv` | internal/discovery/store.go:146-330 | records are the latest publications, and every open stream has sent, holds or is owed the latest one, after every run |
| `Convergence.StreamsNeverRewind` | internal/discovery/grpc.go:61-92 | in every run a stream sends strictly increasing orders, all committed for its key |
| `Convergence.StreamsConverge` | internal/discovery/grpc.go:61-92 | once its captured deliveries have run and its mailbox is drained, an open stream's last message is the latest publication of its key, tombstones included |
| `Publications.CommitKeepsRevisions` | internal/discovery/store.go:379-387 | a commit that takes a new revision or that of a record with the same routing keeps revisions one-to-one with routings |
| `Publications.PutRevises` | internal/discovery/store.go:165-173 | a Put takes a revision never issued, or that of a record with the same routing |
| `Publications.UnchangedPutKeepsRevision` | internal/discovery/store.go:165-173 | given identified members, a Put keeps the revision exactly when it leaves the routing unchanged |
| `Publications.RevisionsIdentifyRouting` | internal/discovery/store.go:146-209 | in every run two publications share a revision only if key and routing are equal |
| `Publications.NewRevisionsAreFresh` | internal/discovery/store.go:146-209 | in every run, every commit except a Put that leaves the digest alone takes a revision that no earlier publication has, and such a Put keeps its record's |
| `Publications.WithdrawalKeepsTimestamps` | internal/discovery/store.go:187-209 | expiry and deletion withdraw the route and never change observation timestamps |
| `Publications.StreamsFailClosed` | internal/discovery/grpc.go:70-79 | in every run of safe Puts each message was, when checked, within its validity or offered no route |
| `Publications.ReadsAlwaysFailClosed` | internal/discovery/store.go:248-260 | in every run reads fail closed, whatever was put and whether or not the expiry task ran |
| `Publications.UnsafePutLeaks` | internal/discovery/grpc.go:70-79 | for every Put that claims to be a tombstone and offers a route, a run in which a stream forwards it too late |
| `Demand.PruningIsInvisible` | internal/discovery/store.go:333-360 | after any run and at any later time, demand is a watcher or the last lease since deletion, whatever pruned in between |
| `Demand.CallbackFiresIff` | internal/discovery/store.go:302-315 | the demand callback fires exactly for accepted requests that found no demand |
| `Demand.DeletionEndsLeasesOnly` | internal/discovery/store.go:187-209 | deletion ends leases and leaves watchers |
| `Metadata.ClusterRouteIsTransitive` | internal/observer/events.go:164-187 | sameness of Cluster routes composes |
| `Metadata.PodRouteIsTransitive` | internal/observer/events.go:189-200 | sameness of pod routes composes |
| `Metadata.ClusterRouteIff` | internal/observer/events.go:164-187 | two versions of a Cluster are one route exactly if UID, enrolment, current and target primary, parameters, annotation text, database and certificates agree, neither is being deleted and the parameters are valid |
| `Metadata.PodRouteIff` | internal/observer/events.go:189-200 | two versions of a pod are one route exactly if name, UID, address, node, owners, readiness, container ID and status scheme agree |
| `Metadata.PodReadyIff` | internal/observer/topology.go:63-73 | a pod is ready exactly if it runs, has an address, is not being deleted and its first Ready condition is true |
| `Metadata.PostgresIDIs` | internal/observer/events.go:202-209 | the container ID is that of the first status named postgres, empty if there is none |
| `Metadata.PodClusterIff` | internal/observer/events.go:28-39 | a pod belongs to the Cluster that its first owner of that kind names in its own namespace |
| `Topology.BuildSnapshot` | internal/observer/topology.go:93-204 | the two passes of the source compute the specified snapshot, whose fields `Classification` states one by one |
| `Topology.ClassifyMembers` | internal/observer/topology.go:108-151 | the first pass: members, the number of primary claims and the verified primary |
| `Topology.ClassifyMember` | internal/observer/topology.go:110-150 | one member's classification, and whether it claims to be primary |
| `Topology.VerifyStandbys` | internal/observer/topology.go:163-203 | the second pass against the primary's sender rows |
| `Topology.IndexReplication` | internal/observer/topology.go:169-178 | indexes the rows by name and finds the duplicated names |
| `Topology.AvailableIff` | internal/observer/topology.go:93-204 | available exactly when fencing parses, current equals target and is not empty, and exactly one eligible pod claims primary and it is the current one |
| `Topology.AvailableForm` | internal/observer/topology.go:93-204 | the primary ID and every member of an available snapshot |
| `Topology.ReadyIff` | internal/observer/topology.go:110-203 | the primary is ready; a standby exactly when eligible, not paused, receiving WAL, of the same system and named by exactly one streaming row with a known sync state |
| `Topology.LabelsIff` | internal/observer/topology.go:108-203 | roles, reasons and sync states are published only as verified |
| `Topology.UnavailableIsWithdrawn` | internal/observer/topology.go:152-162 | an unavailable snapshot offers no route at all |
| `Topology.RowOrderIsIrrelevant` | internal/observer/topology.go:169-203 | permuting sender rows does not change the snapshot |
| `Classification.AvailableByFields` | internal/observer/topology.go:93-204 | a snapshot is available exactly if one pod alone claims to be primary among those that are not fenced, serve and answered usably, and it is the current and target primary; then its UID is published |
| `Classification.ReadyByFields` | internal/observer/topology.go:110-203 | exactly the primary and the standbys that replay from it under one streaming sender row are ready, with that row's sync state |
| `Classification.MemberByFields` | internal/observer/topology.go:108-192 | every member's identity, node, zone, region, addresses, role, timeline and replay position, and why it is not ready, available or not |
| `Classification.EndpointsAre` | internal/observer/topology.go:103-121 | internal is the pod's address at port 5432 under the default server name, there exactly if it has one; external is the endpoint configured for the pod, under its own server name or the default; there is no other network |
| `Classification.SnapshotByFields` | internal/observer/topology.go:89-162 | whose snapshot it is, when it was observed and until when it is valid, whether the primary is moving, and why it is not available |
| `Evidence.EvidenceBook.Forget` | internal/observer/events.go:54-54 | no claim of that key is carried into its next collection, and no other key's claims change |
| `Evidence.EvidenceBook.ConflictingPrimary` | internal/observer/primary_evidence.go:26-82 | the three loops compute the specified evidence and touch no other key; a conflict is reported exactly if the annotation is malformed or some recorded claim is by a pod that is neither the current primary nor fenced off |
| `Evidence.EvidenceBook.ScanCurrent` | internal/observer/primary_evidence.go:36-42 | drops claims of replaced pods and indexes the current ones |
| `Evidence.EvidenceBook.ScanProbes` | internal/observer/primary_evidence.go:43-56 | applies every usable report in order |
| `Evidence.EvidenceBook.Unresolved` | internal/observer/primary_evidence.go:69-81 | a conflict exactly when fencing is malformed or some claim is neither expected nor fenced |
| `Evidence.ReportDecidesClaim` | internal/observer/primary_evidence.go:43-56 | a usable report decides the claim of its instance, whatever the others report |
| `Evidence.StepReleases` | internal/observer/primary_evidence.go:26-82 | a claim leaves in one collection only by a verified refusal of that UID, a current pod of that name with another UID, or becoming the sole claim of the expected primary |
| `Evidence.ClaimsPersist` | internal/observer/primary_evidence.go:26-82 | over any sequence of collections of one Cluster UID, a claim that is gone was released by one of them in one of those ways |
| `Evidence.FailoversLeaveNoEvidence` | internal/observer/primary_evidence.go:36-81 | if only expected primaries claim the role, evidence is empty after every run, and a conflict is reported exactly under malformed fencing |
| `Evidence.EvidenceIgnoresFencing` | internal/observer/primary_evidence.go:36-68 | runs that differ only in fencing or the latest primary name have equal evidence |
| `Evidence.RetainedClaimConflicts` | internal/observer/primary_evidence.go:69-81 | a retained claim that is not expected conflicts unless fenced, and again once the fence is gone |
| `Evidence.EvidenceByClaim` | internal/observer/primary_evidence.go:26-68 | a claim is in the evidence after a collection exactly if it was made in it, or was carried in and its pod neither replaced nor reported on, and the claims are not only the expected primary's |
| `Evidence.ConflictIff` | internal/observer/primary_evidence.go:69-81 | a conflict exactly if the annotation is malformed or some claim is by a pod that is neither the current primary nor fenced off by name or by a star; an empty annotation is no fence |
| `Memory.StepClaims` | internal/observer/events.go:52-66 | every step of the protocol weighs the claims of an incarnation, forgets them or keeps them, and it forgets them exactly when a Cluster event is of a disabled Cluster or of another incarnation than the record's, a deletion is not ignored, an observation finds the Cluster gone, or one of another incarnation is recorded |
| `Memory.ClaimsPersist` | internal/observer/primary_evidence.go:26-82 | in every run of the protocol whose steps do not forget the evidence, a claim that is gone was released by a collection |
| `Memory.ClaimsPersistThroughout` | internal/observer/primary_evidence.go:26-82 | while one enabled incarnation lasts from the last handled event on and the record is its own, whatever fences, primaries, failed probes and vanished pods come and go, a claim leaves only by a collection that released it |
| `Memory.IncarnationRemembers` | internal/observer/events.go:59-66 | in every run that keeps that incarnation, no step forgets its evidence |
| `Forgotten.LiveClaimIsForgotten` | internal/observer/events.go:60-64 | a run in which a late event of a predecessor clears the claim of the Cluster that the informer holds, though nothing released it |
| `Observers.MatchInstanceResults` | internal/observer/collection.go:208-223 | a current pod gets the result of the last probed pod of its name only if their routes are equal, an error otherwise |
| `Observers.WithdrawConflict` | internal/observer/collection.go:195-202 | a conflict withdraws every route |
| `Observers.PrimaryFirst` | internal/observer/collection.go:52-58 | the pods are permuted so that the expected primary, if there, is probed first |
| `Observers.ClusterObserver.CancelObservation` | internal/observer/work.go:110-114 | afterwards no observation in flight can publish; nothing else changes |
| `Observers.ClusterObserver.HasDemand` | internal/discovery/store.go:353-360 | demand at that time, which without new interest held before and never returns later |
| `Observers.ClusterObserver.Notify` | internal/observer/observer.go:150-167 | the key is queued exactly if it was, or has demand and is in the informer |
| `Observers.ClusterObserver.EnqueueDemand` | internal/observer/observer.go:154-188 | a request with demand for a known Cluster is never lost: it queues the key, no sooner than a poll interval after the last one that did, or adds a delayed one |
| `Observers.ClusterObserver.NeedsObservation` | internal/observer/work.go:116-124 | a key that is not needed is dropped now and would be at any later time |
| `Observers.ClusterObserver.BeginWork` | internal/observer/work.go:54-71 | a needed key is observed or put off, never dropped; a key that is not needed leaves nothing behind |
| `Observers.ClusterObserver.EndWork` | internal/observer/work.go:71-93 | exactly a needed key whose observation was not superseded is rescheduled |
| `Observers.ClusterObserver.ClusterEvent` | internal/observer/events.go:41-77 | the record is of this incarnation, or gone with its evidence and lease if the Cluster is disabled; a changed route is withdrawn, its observation stopped, and with demand the key queued; an event that changes nothing changes nothing |
| `Observers.ClusterObserver.ClusterDeleted` | internal/observer/events.go:79-97 | a late tombstone spares a replacement; otherwise record, evidence, lease and observation are gone and interest remains |
| `Observers.ClusterObserver.ReadRecord` | internal/discovery/store.go:232-260 | what is read is within its validity or withdrawn, with its timestamps untouched |
| `Observers.ClusterObserver.MemberChanged` | internal/observer/events.go:127-138 | no member with that ID is ready in a record of the same incarnation; in time, everything else stays as it is |
| `Observers.ClusterObserver.PodEvent` | internal/observer/events.go:99-145 | a lost route of the current primary leaves nothing offered and no observation running, another lost route leaves no ready member of that pod, no lost route leaves the record alone; with demand the key is queued |
| `Observers.ClusterObserver.SecretEvent` | internal/observer/connection.go:136-145 | nothing that used the stale CA is offered or can be published, no CA stays in the record, and with demand the key is queued |
| `Observers.ClusterObserver.BeginCollection` | internal/observer/collection.go:26-43 | a Cluster that is gone or disabled loses record, evidence and lease before anything is collected; otherwise nothing changes |
| `Observers.ClusterObserver.PublishFailure` | internal/observer/collection.go:76-99 | a failure leaves nothing offered and the evidence alone, and changes nothing if superseded |
| `Observers.ClusterObserver.RecordEvidence` | internal/observer/collection.go:171-177 | records evidence of the same incarnation even when superseded |
| `Observers.ClusterObserver.PublishObservation` | internal/observer/collection.go:145-206 | what is offered afterwards was before or is a sound commit, a superseded observation publishes nothing, and success is reported exactly for a gone Cluster or an available snapshot |
| `Observers.VerifiedSnapshot` | internal/observer/collection.go:191-203 | matching, classification and the connection defaults, with every route withdrawn in a conflict |
| `Effects.ClusterEventByFields` | internal/observer/events.go:41-77 | what a Cluster event leaves in every field, from the fields that it compares: dropped, awaiting its first observation without evidence, or withdrawn because it moved, with its reason and times, and queued exactly if wanted |
| `Effects.ClusterDeletedByFields` | internal/observer/events.go:79-97 | a deletion drops the key unless another incarnation is there |
| `Effects.PodEventByFields` | internal/observer/events.go:99-145 | an event that concerns no pod of the Cluster, or neither its route nor its zone or region, changes nothing; any other queues a wanted key, and a lost route withdraws the record or its member |
| `Effects.MemberChangedByFields` | internal/observer/events.go:127-138 | in time, the members with that ID are unready and say that they changed, and every other field stays |
| `Effects.SecretEventByFields` | internal/observer/connection.go:136-145 | the observation is stopped, a record that offers a route or carries a CA is withdrawn with its reason and times, one past its time expires, and a wanted key is queued |
| `Effects.FailureByFields` | internal/observer/collection.go:76-99 | a superseded failure changes nothing, one of a gone Cluster removes its record and lease, any other withdraws it with the reason given |
| `Effects.RecordedByClaim` | internal/observer/collection.go:171-177 | an observation of this incarnation records exactly the claims that are held after it, and any other leaves the evidence alone |
| `Effects.RejectedByFields` | internal/observer/collection.go:157-190 | an observation that publishes no verified snapshot leaves the record if superseded or unhealthy, and otherwise withdraws a Cluster that moved or whose CA is not current, with its reason and times, and queues it if wanted |
| `Effects.ConflictedByFields` | internal/observer/collection.go:195-202 | a conflict keeps every published field of the members except that none is ready |
| `Effects.DemandByFields` | internal/observer/observer.go:154-188 | a callback queues a wanted key at once, or puts it off if the last one did so less than a poll interval ago |
| `Informers.RouteChain` | internal/observer/events.go:67-70 | events that each keep the route compose |
| `Informers.DifferentRouteReroutes` | internal/observer/events.go:67-73 | two contents with different routes have a rerouting event between them |
| `Commits.PublishIsSound` | internal/observer/collection.go:145-223 | whatever an observation leaves available was there before, or was committed with the Cluster field by field as observed, its current and target primary claiming the role alone, no recorded claim challenging it, the Cluster's database and the retained CA, every member at the addresses and server names of the current parameters, and every ready one serving, not fenced and backed by a usable probe of the same pod and container as now |
| `Commits.PublishedIsAvailableIff` | internal/observer/collection.go:171-205 | in time, an observation of an unchanged Cluster with a current CA commits an available record exactly if no recorded claim challenges the current primary, fenced ones not counting, and that primary claims the role alone |
| `Commits.MappedIs` | internal/observer/collection.go:208-223 | a result counts for a pod exactly if it is of the same pod as it is now; otherwise the pod counts as not answering |
| `Commits.SupersededPublishesNothing` | internal/observer/collection.go:157-180 | a cancelled observation leaves the record, or drops it because its Cluster is gone |
| `Certified.EveryOfferIsCertified` | internal/observer/collection.go:176-205 | in every run of the observer and the CA cache, an available record goes back to a publication whose observation was in flight and not superseded, with watches healthy, whose retained CA was the cached object and the Secret informer's version, as when it was read and installed; the record carries that CA and is still of that observation |
| `Certified.OfferNamesItsSecret` | internal/observer/connection.go:29-32 | in every run, with no Cluster handler outstanding, the Secret that an offered CA was verified against is the one, and the database the one, that the informer's Cluster names now |
| `Certified.StepIsCertified` | internal/observer/connection.go:74-82 | a step offers a record only by such a publication; every other step only withdraws |
| `Certified.SupersededCommitsNothing` | internal/observer/work.go:108-114 | a superseded observation commits nothing: the record stays, or goes because its Cluster has |
| `Certified.StaleSecretStopsPublication` | internal/observer/connection.go:126-145 | a Secret event that finds its entry stale leaves nothing cached or offered and stops the observation in flight |
| `Certified.EverySecretIsKept` | internal/observer/connection.go:113-218 | in every run with the observer and for every Secret, a cached entry was verified when read and when installed, is current once no handler is outstanding, and a pending fetch is under way |
| `Certified.PublicationCarries` | internal/observer/collection.go:203-204 | a certified publication offers the CA that is cached for its Cluster's Secret |
| `Certified.StepOutdatesIff` | internal/observer/connection.go:126-146 | apart from publications, a step leaves an offered record without its cached CA exactly if it sweeps an unused Secret's entry, installs another CA, or handles a stale event of a Secret that no enabled Cluster read uses |
| `Certified.OutdatedOfferIsScheduled` | internal/observer/connection.go:214-216 | in every run, an offered record whose CA is not the cached one, with demand and with no Cluster handler or demand callback outstanding, is queued, being observed or waiting for a delayed add |
| `Outdated.ReplacedCAIsOffered` | internal/observer/connection.go:126-128 | a run to an offered record whose CA was replaced, with every Cluster and Secret event handled |
| `Outdated.CertifiedPublicationIsReached` | internal/observer/collection.go:191-205 | a run that reaches a certified publication |
| `Commits.ConflictBlocksAvailability` | internal/observer/collection.go:171-205 | while a recorded claim is neither expected nor fenced, an observation commits nothing available |
| `Quiescence.HandleClusterKeepsSound` | internal/observer/events.go:41-97 | late, ignored and replaced Cluster events keep an available record tied to its source |
| `Quiescence.HandlePodKeepsSound` | internal/observer/events.go:99-145 | so do late pod events, whatever Cluster they read |
| `Quiescence.PublishKeepsSound` | internal/observer/collection.go:145-206 | so do commits |
| `Quiescence.QuiescentRecordIsCurrent` | internal/observer/events.go:41-145 | in every run, once no Cluster or pod handler is outstanding, an available record is, field by field, of the Cluster that the informer holds now: enabled, current primary equal to target and its pod the published primary, database, parameters and CA Secret the same, annotation not malformed; and every ready member is a serving pod of it, not fenced, published with its UID, node, addresses and server names, and backed by a usable probe of that pod and container |
| `Quiescence.OfferedAnnotationParses` | internal/observer/topology.go:97-102 | in every run, with no Cluster handler outstanding, the fencing annotation of an offered Cluster parses exactly if it is not present and empty |
| `Quiescence.EmptyAnnotationKeepsRoute` | internal/observer/events.go:178-180 | giving any offered, handled and unfenced Cluster an empty annotation keeps its record offered once the event is handled |
| `Pending.EmptyAnnotationIsOffered` | internal/observer/events.go:178-180 | a run to such an offered Cluster whose annotation does not parse |
| `Quiescence.UnreadyPrimaryIsPending` | internal/observer/events.go:119-138 | in every run an available record's primary is ready unless an undelivered event changes the Cluster's route, which is necessary and not sufficient |
| `Unready.StepDemotesIff` | internal/observer/events.go:119-138 | a step turns an available record with a ready primary into one without exactly if it handles a pod event that loses the route of the primary's pod and reads a Cluster of the record's UID with another current primary, in time and before the record expires |
| `Unready.UnreadyWasDemoted` | internal/observer/events.go:119-138 | in every run an available record whose primary is not ready goes back to such a step |
| `Unready.DemotableIsDemoted` | internal/observer/events.go:119-138 | from every world with such a content to read and the pod there, deleting the pod and handling that event does it |
| `Pending.UnreadyPrimaryIsOffered` | internal/observer/events.go:119-138 | a run to such a world, and on to an available record whose primary is not ready |
| `Stray.StepRevivesIff` | internal/observer/events.go:117-126 | with the Cluster disabled or gone, that event handled and no record, a step makes a record exactly if it handles a pod event that loses the route of the pod that the Cluster read names as current primary |
| `Stray.StepStraysIff` | internal/observer/events.go:117-126 | a step makes such a record where there was none exactly if it is such an event; the Cluster's own last event leaves none |
| `Stray.StrayWasRevived` | internal/observer/events.go:117-126 | in every run, a record without an enabled Cluster behind it, with every Cluster event handled, goes back to such an event |
| `Stray.RevivableIsRevived` | internal/observer/events.go:117-126 | from every world with the Cluster disabled and handled, no record and the primary's pod there, deleting the pod and handling that event makes one, with no Cluster handler outstanding to remove it |
| `Stray.StrayOffersNothing` | internal/observer/events.go:117-126 | in every run, with no Cluster handler outstanding, nothing is offered for a Cluster that is disabled or gone |
| `Stray.GoneClusterHasNoRecord` | internal/observer/events.go:79-97 | in every run, with no Cluster handler outstanding, a Cluster that is gone has no record |
| `Stray.RevivedIsQueued` | internal/observer/events.go:142-143 | with demand, the event that makes such a record also queues the key |
| `Stray.ObservationRemovesStray` | internal/observer/collection.go:35-42 | an observation that starts removes such a record |
| `Revived.DisabledClusterHasARecord` | internal/observer/events.go:117-126 | a run that leaves a record for a disabled Cluster with every Cluster event handled |
| `Schedule.NoScheduleIsLost` | internal/observer/work.go:43-124 | in every run, with no Cluster handler outstanding, an enabled Cluster has a record of its incarnation, and with demand and no callback outstanding it is queued, being observed or waiting for a delayed add |
| `Schedule.NoScheduleIsLostWhileSteady` | internal/observer/events.go:59-76 | the same as soon as no undelivered event can change the route |
| `Schedule.ClusterEventAttends` | internal/observer/events.go:59-76 | an event that adds the Cluster or changes its route leaves it recorded and scheduled |
| `Reasons.ObserverPutsAreSafe` | internal/observer/events.go:65-125 | in every run, every snapshot that a section of the observer puts, also one hidden by a later put of the same section, is safe for streams to forward |
| `EndToEnd.StreamsShowCurrentRoutes` | internal/observer/events.go:41-145 | in every run of the observer, the store and the streams together, once every handler has run, every commit is made and the stream is drained, its last message, if it offers a route, is field by field of the Cluster and the pods that the informers hold now, as for `Quiescence.QuiescentRecordIsCurrent`; for an enabled Cluster it is the stored record of its current incarnation, and for one that is gone a tombstone |
| `EndToEnd.RunKeepsJoint` | internal/discovery/store.go:146-209 | in every run the store will hold the observer's record once the observer's section has made its commits, whatever expires in between |
| `EndToEnd.ServeAgrees` | internal/discovery/store.go:248-377 | an expiry found by a read, a registration, a stream or the expiry task changes the stored record as the observer's own expiry would, and is hidden by commits still to come |
| `EndToEnd.CommitAgrees` | internal/discovery/store.go:146-209 | each commit of a section does to the stored record what the section accounts for |
| `ServiceRuns.StreamsFailClosed` | internal/discovery/grpc.go:70-79 | in every run of the whole service each message was, when checked, within its validity or offered no route |
| `ServiceRuns.OpenStreamIsScheduled` | internal/discovery/store.go:302-315 | in every run, while a stream is open on an enabled Cluster whose events are handled and no demand callback is outstanding, the Cluster is queued, being observed or waiting for a delayed add |
| `Sections.SectionsAddUp` | internal/observer/collection.go:26-206 | the commits that each section of the source makes, in their order, add up to its specified effect on the record |
| `ServiceRuns.SectionsAreAdmitted` | internal/observer/collection.go:26-206 | those commits are ones that the service admits |
| `Sections.ClusterEventAddsUp` | internal/observer/events.go:41-77 | the one or two withdrawals, or the deletion, of a Cluster event leave the specified record |
| `Sections.PodEventAddsUp` | internal/observer/events.go:118-141 | reading and then rewriting the record, with an expiry in between, leaves the specified record |
| `Sections.SecretEventAddsUp` | internal/observer/connection.go:138-143 | so does reading and then withdrawing it |
| `Sections.PublishAddsUp` | internal/observer/collection.go:157-205 | so does publishing an observation |
| `CACaches.CACache.CurrentCA` | internal/observer/connection.go:76-82 | the retained entry is the cached object itself and the informer's version |
| `CACaches.CACache.CachedConnection` | internal/observer/connection.go:49-72 | a hit returns the current entry; a miss on a known Secret is pending and queued once |
| `CACaches.CACache.SecretEvent` | internal/observer/connection.go:113-135 | a stale entry is dropped, a read in flight cancelled and a pending fetch queued again; other Secrets are untouched |
| `CACaches.CACache.BeginFetch` | internal/observer/connection.go:160-191 | put off when not ready, dropped when the Secret, the demand or the need is gone, otherwise a read of the version seen |
| `CACaches.CACache.EndFetch` | internal/observer/connection.go:193-218 | installs only a verified version in demand, and retries everything unverified |
| `CACaches.CACache.Prune` | internal/observer/status.go:158-165 | drops exactly the entries that no demanded Cluster uses |
| `CAProtocol.InstalledIsVerified` | internal/observer/connection.go:181-218 | in every run a cached entry's version was the informer's both when its read began and when it was installed |
| `CAProtocol.QuiescentEntryIsCurrent` | internal/observer/connection.go:113-146 | in every run, once no Secret handler is outstanding, a cached entry is the informer's current version |
| `CAProtocol.NoFetchIsLost` | internal/observer/connection.go:49-218 | in every run a pending Secret is queued, held by a worker or waiting for a retry |
| `CAProtocol.MissesShareOneFetch` | internal/observer/connection.go:67-70 | however many observations miss, only the first queues a fetch |
| `CAProtocol.RetainedMeansUninterrupted` | internal/observer/connection.go:74-82 | an entry found current again at publication was the cached one all along |
| `CAProtocol.SupersededReadInstallsNothing` | internal/observer/connection.go:129-132 | a read that a Secret event overtook installs nothing, whatever it returns |
| `CAProtocol.StepInstallsIff` | internal/observer/connection.go:193-218 | an entry is installed exactly by a read that returned, in time and undisturbed, the UID and resource version that the informer held at its begin and end, for a demanded Secret; it is dropped exactly by an event of another version and by a sweep without demand |
| `CAProtocol.StepPendsIff` | internal/observer/connection.go:49-218 | a fetch becomes pending and stops being so exactly by the steps named |
| `CAProtocol.StepReadsIff` | internal/observer/connection.go:160-191 | a read begins exactly for a Secret that is there, demanded and not cached at that version, and a stale event cancels it |
| `CAProtocol.StepQueuesIff` | internal/observer/connection.go:113-218 | a key is queued, and a retry owed, exactly by the steps named |
| `ProbeSlots.ReservedCapacity` | internal/observer/work.go:14-19 | from two on, the reserve is the larger of one and an eighth of the limit, and leaves room for background work; below, there is none |
| `ProbeSlots.SemaphoresCountCallers` | internal/observer/work.go:126-168 | in every run both semaphores equal the callers past each gate, so every cancelled path returned what it took |
| `ProbeSlots.UrgentIsNotStarved` | internal/observer/work.go:14-25 | when no slot is free, urgent probes hold at least the reserve |
| `ProbeSlots.UrgentProceeds` | internal/observer/work.go:137-161 | with a limit of two or more an urgent caller gets a slot at once unless an urgent probe runs |
| `ProbeSlots.SomebodyProceeds` | internal/observer/work.go:137-168 | whenever somebody is there, somebody can take a step that needs no waiting |
| `ProbeSlots.EverybodyFinishes` | internal/observer/work.go:126-168 | once arrivals stop, only so many steps are possible, and when none is, nobody is left and nothing is held |
| `ProbeSlots.Channels.Acquire` | internal/observer/work.go:134-161 | acquiring up to the first wait takes the gate before the slot and keeps what it took |
| `ProbeSlots.Channels.GiveUp` | internal/observer/work.go:144-159 | a waiter that gives up returns its background slot if it has one |
| `ProbeSlots.Channels.Release` | internal/observer/work.go:162-167 | releasing returns the slot and then the background slot |
| `Projection.ViewIsKeptIff` | internal/observer/cache.go:18-63 | projection keeps everything the observer reads of a Cluster exactly when annotations are strings or null or none retained shows, and the spec is an object, null or absent or the Cluster has opted out |
| `Projection.KeptTwice` | internal/observer/cache.go:18-63 | projecting twice is projecting once, for every object |
| `Projection.ClusterIsKept` | internal/observer/topology.go:20-61 | whatever the parsers do, a well-formed Cluster and its projection give the same parameters, primary names, database, CA Secret and fencing |
| `Projection.RoutesAreKept` | internal/observer/events.go:164-187 | route comparisons agree on projected and original Clusters |
| `Projection.EnrolmentIsKept` | internal/observer/cache.go:32-50 | enrolment is kept exactly when the spec survives |
| `Projection.DatabaseIsKept` | internal/observer/connection.go:19-27 | the application database is kept |
| `Projection.OddAnnotationHidesOptOut` | internal/observer/cache.go:28-29 | an unrelated annotation that is neither string nor null hides an opt-out from the original but not from its projection |
| `Projection.TextSpecEnrols` | internal/observer/cache.go:32-50 | a spec that is no object is rejected before and enrolled after projection |
| `Projection.ProjectJSONFields` | internal/observer/cache.go:65-73 | retains exactly the named fields that exist |
| `Projection.SelectPlugin` | internal/observer/cache.go:35-44 | selects the first entry with the plugin's name |
| `Projection.ProjectBootstrap` | internal/observer/cache.go:51-58 | retains the database of each bootstrap method that is an object |
| `Projection.TransformClusterCache` | internal/observer/cache.go:18-63 | the transform computes the specified projection and rejects other types |
| `Readers.IdentityReads` | internal/observer/topology.go:16-18 | name, namespace, UID and deletion are the strings at their paths in the metadata |
| `Readers.StatusReads` | internal/observer/topology.go:20-24 | current and target primary, the CA Secret and the certificates are what is at their paths in the status |
| `Readers.DatabaseReads` | internal/observer/connection.go:19-27 | the database is that of the recovery, else of the base backup, else of the initialization |
| `Readers.FencingReads` | internal/observer/topology.go:97-102 | an absent annotation is no fence, an empty one does not parse, any other is what it parses to |
| `Readers.EnabledIff` | internal/observer/topology.go:26-45 | a Cluster takes part exactly if it is not annotated out, its plugins can be read, and the first entry with the plugin's name is not disabled |
| `Readers.NativeParametersRead` | internal/observer/topology.go:34-50 | the parameters are those of that entry, invalid if its flag is no boolean or they are not all strings |
| `Readers.AnnotatedParametersRead` | internal/observer/topology.go:51-61 | without that entry they are those of the annotation, none if it is absent or empty, invalid if it does not parse |
| `Readers.FieldsKeptIff` | internal/observer/cache.go:23-62 | at the top, of the metadata and of the status, exactly the named fields stay, as they were |
| `Readers.AnnotationsKeptIff` | internal/observer/cache.go:28-29 | exactly three annotations stay |
| `Readers.SpecKeptIff` | internal/observer/cache.go:32-60 | of the bootstrap exactly the database of each of three methods stays, and of the rest of the spec only the plugins |
| `Readers.PluginsKeptIff` | internal/observer/cache.go:34-50 | of a plugin list the first entry of the plugin stays alone, with exactly three of its fields; what is no list stays as it is |
| `PodProjection.PodIsKeptIff` | internal/observer/cache.go:75-128 | readiness, container ID, labels and ownership are kept; the status scheme exactly when the first postgres container decides it |
| `PodProjection.PodKeptIff` | internal/observer/cache.go:77-128 | exactly six labels, the first postgres container with its TLS flag, the first Ready condition and the first postgres status stay, beside identity, owners, node, phase and address |
| `PodProjection.PodRoutesAreKept` | internal/observer/events.go:189-200 | with unique container names, route comparisons agree on projected and original pods |
| `PodProjection.SecondContainerIsLost` | internal/observer/cache.go:101-114 | with two containers of that name the scheme can change |
| `PodProjection.KeptPodTwice` | internal/observer/cache.go:75-128 | projecting a pod twice is projecting it once |
| `PodProjection.SnapshotIsKept` | internal/observer/topology.go:93-204 | a snapshot built from projected objects is the one built from the originals |
| `PodProjection.TransformPodCache` | internal/observer/cache.go:77-128 | the transform computes the specified projection and rejects other types |

## Left out

- Evidence.ClaimsPersist: speaks of collections alone, because the handlers that clear evidence are covered by `Memory.StepClaims` and `Memory.ClaimsPersist`.
- Quiescence.UnreadyPrimaryIsPending: states a necessary condition only, because the exact one is that of `Unready.StepDemotesIff`.
- The HTTP/2, TLS and gRPC servers, authorization, admission counters and shutdown of internal/server: transport over other libraries.
- Parsing of fencing lists: what an annotation says is an input of the model, decided by its text.
- Flag parsing, plugin hooks, configuration decoding and `ParseParameters`: parsed parameters are inputs of the model.
- The status HTTP client, its transport cache and certificate parsing: probe results and fetched CA contents are arbitrary inputs; `probeInstances` is represented by its results.
- Metrics and logging, except the counters of expirations and coalesced updates.
- SHA-256, JSON and protobuf encoding and the random process ID: a digest is the canonical form it encodes, and a revision is its sequence number.
- The width of counters: publication orders and revision numbers are unbounded, so wrap-around of 64-bit integers is not modelled.
- Linked lists and condition variables of the queue: the lanes are sequences, and waiting is an outcome of one evaluation of the wait condition.
- Delaying and rate-limiting queues: a delayed add is counted until it fires; how long it takes, and its backoff, are not modelled.
- Promotion inside the observer protocol: which lane a scheduled key takes is a matter of the queue model only.
- The compare-and-swap loop that paces demand is one step, and so is the cancellation of a watch stream.
- Subscriptions of local snapshots (`Subscribe`), which share registration and mailboxes with streams but convert to snapshots.
- Registration of a stream for a key that has no record: streams require one.
- Shutdown of the observer: the theorems on schedules and fetches are about a running one.
- Watch health (`watch.go`) and cancellation from outside: readiness is an input of each step that reads it, and a context that nothing superseded may still be cancelled.
- Unary leases in the whole service: the observer's watchers there are the store's, while its lease is renewed independently of the store's, so results hold whatever leases there are.
- Puts for other Clusters in the whole service: they are arbitrary, and `ServiceRuns.StreamsFailClosed` takes them to be safe, as those of the modelled Cluster are proved to be.
- Accessors of unstructured objects: they belong to a library; the model reads null annotation values as empty strings, as its recent versions do, and rejects nulls in plugin parameters.
- Several Clusters in one observer protocol: a key's state is separate from every other key's, and the shared queue, store and CA cache are modelled with all their keys.
- Liveness of the Go scheduler and wall-clock latency: not decided by this code.

# Crane control plane: a verified model

Crane keeps a durable, multi-writer control plane in database rows and small files. Its promises are
about whole runs: crashes between any two store calls, retries, controllers that lost their lease,
replies that never arrive. This project models the parts that carry those promises and proves them
over every run.

**Capacity admission and provisioning** (`internal/capacity`). `Capacity.dfy` holds the tables and the
fenced writes; `Admission.dfy` the transactions `SetTarget`, `CreateAutoscalerRemovals`,
`CreateRemoval` and topology creation, with int64 arithmetic written out. `Protocol.dfy` is the whole
machine: admission, any number of provisioning controllers executing one store call at a time, lease
expiry, crashes anywhere, and Kubernetes updates that land late. A run is a sequence of events.
`Coupling.dfy`, `AdmissionSound.dfy`, `Progress.dfy` and `Safety.dfy` prove what every event keeps;
`Guarantees.dfy`, `Accounting.dfy`, `Policies.dfy`, `Provenance.dfy`, `Scaling.dfy`, `Retries.dfy` and
`Drain.dfy` state the results about runs, and `Witness.dfy` shows a run that reaches READY. `Columns.dfy` and `Removals.dfy`
say what the admission and removal transactions decide and write, column by column.
`Locks.dfy` splits `SetTarget` at its statements under PostgreSQL's READ COMMITTED and shows that every
interleaving the row locks allow is a run of the atomic machine. `Guard.dfy` says exactly when the one
check made without a lock, the registered-capacity guard, still holds at commit, and `Overtaken.dfy`
gives an interleaving in which it does not. `Store.dfy` is the store as an object, with the loops of
the Go code, proved against the transactions; each contract also names the rows and columns themselves.

**Subd** (`Subd.dfy`, `ClusterJoin.dfy`): the revision-fenced, crash-safe host agent over files that are
replaced atomically; a failed replacement may leave the old file or the new one. `HostOperations.dfy`
composes the Secret controller with Subd under lost, duplicated and delayed deliveries.

**Bootstrap** (`Bootstrap.dfy`, `BootstrapProgress.dfy`): the cluster bootstrap phase machine with competing
workers and operators who change the membership, and its progress under a succeeding executor.
**Problem cache** (`ProblemCache.dfy`): the linked list and map, changed in place.
**Worker Node** (`WorkerNode.dfy`, `Recovery.dfy`): the in-place taint filter of the scheduling handoff, and
why a recovering controller still recognises the Node. `Basics.dfy` holds shared arithmetic.

## Assumptions

- A SQL statement is atomic; transactions are ordered only by the row locks they take.
- The clock does not run backwards. New identifiers are fresh, and creation order is identifier order;
  one number names a host and the provision operation created with it (rows of one transaction share
  a creation time, so their relative order is arbitrary in the source as well).
- SHA-256 is injective and JSON encoding round-trips: a digest or fingerprint is represented by what
  it digests.
- Constraints of `internal/capacity/schema.sql` hold: target between minimum and maximum (line 63),
  non-negative revision (line 53), positive resources (line 56), unique revisions per host (lines
  102-107), immutable operation intent (lines 134-146).
- The provider and provider zone of a zone row never change (`internal/capacity/catalog.go`, lines 60-66).
- An operation and its group name one zone: both are inserted together and neither zone column is ever
  updated, so the joins of BeginLaunch and Renew on both add nothing.
- The executor (cloud, Kubernetes, SPIRE) answers arbitrarily. Only `Drain.dfy` and `BootstrapProgress.dfy`
  assume it succeeds.
- Provisioning has delivered its own expected state before the Secret controller serves a host.

## Model

| member | source | states |
|---|---|---|
| `Coupling.EffectKeepsRow` | internal/capacity/store.go:439-678 | every fenced write, made where a controller may stand, keeps operation, host, reservation and readiness evidence coupled |
| `Coupling.WriteKeepsSound` | internal/capacity/provision_handoff.go:18-141 | such a write keeps all tables linked, coupled and typed, Node identities distinct and every pool within its limits |
| `Coupling.ClaimKeepsSound` | internal/capacity/store.go:397-437 | so does a claim of free work |
| `AdmissionSound.FitsExactly` | internal/capacity/store.go:212-247 | checkReservations, in wrapping int64 arithmetic, admits exactly the requests that fit in unbounded arithmetic |
| `AdmissionSound.AdmittedExactly` | internal/capacity/store.go:45-130 | SetTarget admits a request exactly when it is admissible, stated without wrap-around and without an order of checks |
| `AdmissionSound.RefusedExactly` | internal/capacity/store.go:45-130 | SetTarget refuses with an error exactly when that error is the first one warranted, each cause stated in unbounded arithmetic |
| `AdmissionSound.ReplayedExactly` | internal/capacity/store.go:66-84 | a request not admitted succeeds exactly when it is a replay, with the stored result |
| `Columns.IncreaseWrites` | internal/capacity/store.go:132-163 | an admitted increase adds exactly one operation, host and reservation, each spelled out, for every added node, moves target and revision, stores the request and touches nothing else |
| `Columns.DecreaseWrites` | internal/capacity/store.go:286-361 | an admitted decrease cancels idle operations with host and credit, marks spare hosts, no more together than it takes off, and touches no other row |
| `Columns.EqualWrites` | internal/capacity/store.go:132-157 | a request for the present target only raises the revision and is stored |
| `Columns.NewestPicked` | internal/capacity/store.go:286-361 | undisturbed, the picks are the newest idle operations and then the newest spare hosts, as many as there are up to the count |
| `Removals.BatchCommitsExactly` | internal/capacity/removals.go:19-116 | a batch commits exactly when it is complete, owned, new, at the current revision below the largest, keeps the minimum, and every node is of the group, launched, spelled as its zone names it, live and under no removal; unbounded arithmetic |
| `Removals.BatchRefusedExactly` | internal/capacity/removals.go:19-92 | it is refused with an error exactly when that error is the first one warranted, node by node in order |
| `Removals.BatchRepeatsExactly` | internal/capacity/removals.go:46-58 | it succeeds without a change exactly when the same batch is stored |
| `Removals.BatchWrites` | internal/capacity/removals.go:94-116 | a commit inserts one removal and one operation for each node, in order, lowers the target by their number, raises the revision by one and touches nothing else |
| `Removals.RemovalCommitsExactly` | internal/capacity/catalog.go:291-369 | the single removal: exactly when it commits and what it then writes, column by column |
| `Removals.RemovalRefusedExactly` | internal/capacity/catalog.go:291-369 | and each of its errors exactly when it is the first one warranted |
| `AdmissionSound.SetTargetKeepsSound` | internal/capacity/store.go:45-180 | a committed target change keeps the tables sound, however stale its unlocked reads were and whichever rows it picked |
| `AdmissionSound.RemoveBatchKeepsSound` | internal/capacity/removals.go:19-116 | a removal batch keeps the tables sound, and its two int64 operations do not overflow; AWS hosts are named by zone and instance |
| `AdmissionSound.RemoveOneKeepsSound` | internal/capacity/catalog.go:291-369 | a single removal keeps the tables sound although its revision increment is unguarded |
| `Progress.WriteProgresses` | internal/capacity/store.go:439-678 | a fenced write only moves a record forward: fence, life cycle, binding, pin and credit never go back |
| `Progress.SetTargetProgresses` | internal/capacity/store.go:132-171 | an admission rewrites no stored request, removal, limit, settled outcome or committed credit |
| `Safety.StepSafe` | internal/capacity/provision_worker.go:42-161 | every event of the machine keeps the tables sound, every live controller where its record is, fences exclusive and release intent ahead of any release |
| `Safety.RunSafe` | internal/capacity/provision_worker.go:42-236 | so does every run, and the later state is always a progress of the earlier one |
| `Guarantees.LifecyclesCoincide` | internal/capacity/store.go:286-361 | in every reachable state cancelled, TERMINATED and released coincide; committed, provider recorded and BOOTING or later coincide; READY and succeeded coincide; a host being handed over has its operation launching |
| `Guarantees.CreditsSettle` | internal/capacity/store.go:504-572 | a committed credit is never released and a released one never comes back, in any continuation of any run |
| `Guarantees.PoolsNeverExceeded` | internal/capacity/catalog.go:82-90 | unreleased reservations of all groups sharing a pool never exceed the limits the pool was created with |
| `Guarantees.AdmissionArithmeticIsExact` | internal/capacity/store.go:97-247 | in every reachable state the delta, next revision, limit minus used and, past the quotient guards, both scaled products are exact in int64, so what is admitted is exactly what fits |
| `Guarantees.StaleTokensAreDead` | internal/capacity/store.go:484-496 | once a token was superseded, given back, cancelled or left to expire, no write presenting it ever takes effect again |
| `Guarantees.FencesOnlyRise` | internal/capacity/store.go:392-428 | fences never fall and an operation's intent never changes |
| `Guarantees.OneLiveToken` | internal/capacity/store.go:397-437 | at most one controller holds a live token for an operation, even under one owner identity |
| `Guarantees.ClaimSupersedes` | internal/capacity/store.go:404-428 | a claim makes its own token live and every earlier one dead |
| `Guarantees.ReleaseIntentFirst` | internal/capacity/provision_handoff.go:82-141 | if a taint removal was even sent, release_started is durable in every later state and the host is CONVERGING or READY |
| `Guarantees.EnrollmentSeesQuarantine` | internal/dominator/provisioner.go:241-267 | a live controller that enrolls a Node never looks at one whose taint Crane lifted |
| `Guarantees.ReadyMeansProven` | internal/capacity/provision_handoff.go:18-141 | a READY host has a provider, one Node bound under its own operation, a revision-1 pin equal to its desired version and durable release intent |
| `Guarantees.ReadyOnlyByHandoff` | internal/capacity/provision_handoff.go:94-141 | a host becomes READY only in the commit of an open handoff, under the live token, with the membership row ready and approved, the zone row ready and enabled, the cluster row ready, and the taint confirmed gone |
| `Guarantees.FirstEvidenceWins` | internal/capacity/provision_handoff.go:46-80 | the bound Node and the first pinned expected state are never replaced |
| `Provenance.HeardInRun` | internal/capacity/provision_worker.go:95-141 | an answer counted as heard is an event of the run, given where a controller of that operation waited for it |
| `Provenance.IdentitiesWereAnswered` | internal/capacity/store.go:504-572 | in every run a host's provider and Kubernetes identifier, its bound Node and its pinned expected state, content included, are ones the executor answered to a controller of that host's own operation |
| `Retries.FailedCallIsRetryable` | internal/capacity/provision_worker.go:112-178 | in every run, whatever external call of a live controller fails, two store calls later its stage's category is recorded, the lease is free, launching is kept beyond the launch boundary, and nothing else has changed |
| `Accounting.RevisionsAreExact` | internal/capacity/store.go:132-157 | every group's committed target changes number exactly its revision, the i-th carries revision i, and each stays within min and max |
| `Accounting.ReplayYieldsTarget` | internal/capacity/removals.go:94-116 | replaying those changes from zero yields the target |
| `Accounting.HostsAreConserved` | internal/capacity/store.go:159-168 | live hosts are the target, plus what removals took off, plus decreases that found nothing to cancel; live and unmarked hosts are never fewer than the target |
| `Accounting.OneOperationPerAddedNode` | internal/capacity/store.go:159-163 | the provision operations stamped with a revision number exactly what the change with that revision raised the target by |
| `Policies.ChangesCompareAndSet` | internal/capacity/store.go:86-157 | in every run a group's cluster, zone, pool, bounds and resources never change, its target moves only with the next revision in a request that expected the present one, and its template only by a replacement that expected the present one |
| `Locks.OtherStays` | internal/capacity/store.go:58-116 | whatever the locks let through leaves every open transaction's reads as good as fresh |
| `Locks.FinishRefines` | internal/capacity/store.go:132-171 | a commit computed from remembered values is the atomic transaction at that moment |
| `Locks.InterleavingsAreRuns` | internal/capacity/store.go:45-180 | every statement-by-statement interleaving of any number of SetTarget transactions with everything else is a run of the atomic machine |
| `Locks.InterleavedPoolsNeverExceeded` | internal/capacity/store.go:101-116 | hence pool limits hold in every state of every interleaving |
| `Guard.EventRegisters` | internal/capacity/store.go:633-647 | every event registers one host of a group or none, and one exactly when it is a permitted BOOTING to REGISTERING write |
| `Guard.GuardHoldsExactly` | internal/capacity/store.go:117-168 | in every interleaving, whatever runs between the count and the commit and whatever rows are picked, the committed target covers every registered host exactly when the group's registrations in between are at most desired minus the count |
| `Guard.GuardHoldsUndisturbed` | internal/capacity/store.go:117-168 | so with no controller write in between it does |
| `Guard.UndercutIsBounded` | internal/capacity/store.go:117-168 | from the lock of the group row on: registered hosts at commit are at most the group's live hosts less those cancelled; live hosts exceed every lower target, so cancelling all above it is what makes the guard safe |
| `Overtaken.DecreaseCanUndercut` | internal/capacity/store.go:117-168 | an interleaving from the empty store commits a target below the registered hosts, with nothing left that cancelPending could pick |
| `Drain.CallStep` | internal/capacity/provision_worker.go:95-161 | whatever happens during a call with a succeeding executor, its own steps, renewals, delays and late updates in any order, keeps the call on course and each of its own next steps brings it nearer its end |
| `Drain.EveryCallAdvances` | internal/capacity/provision_worker.go:42-161 | every complete call takes its host exactly one stage on (to BOOTING, to CONVERGING, to READY), frees its operation and touches no other record |
| `Drain.EveryRunOnceCounts` | internal/capacity/provision_worker.go:42-86 | every RunOnce call of a zone with unfinished work serves the oldest operation and lowers the summed distance from READY by exactly one |
| `Drain.EveryDrain` | internal/capacity/provision_worker.go:42-161 | after every sequence of n such calls the distance is what it was less n, or zero; nothing unfinished appears and what finished is READY |
| `Drain.EveryDrainFinishes` | internal/capacity/provision_worker.go:42-161 | from any state left by crashes, every sequence of as many calls as that distance, at most three for each unfinished operation, leaves all of them READY |
| `Drain.SomeCalls` | internal/capacity/provision_worker.go:42-161 | such sequences exist, of every length |
| `Drain.EveryRunFinishes` | internal/capacity/provision_worker.go:180-199 | every run that has come to rest is completed by every sequence of three calls for each unfinished operation |
| `Drain.EveryRunCanFinish` | internal/capacity/provision_worker.go:180-199 | and by some |
| `Witness.SomeHostBecomesReady` | internal/capacity/provision_worker.go:42-161 | the machine is not idle: a run from the empty store makes a host READY |
| `Scaling.CommitsExactly` | internal/capacity/store.go:66-96 | in every run a request has changed state exactly once if it is stored and not at all otherwise |
| `Scaling.AtMostOnce` | internal/adapter/autoscaler/server.go:267-293 | however often an intent is delivered, at most one delivery changes state |
| `Scaling.SuccessRepliesAgree` | internal/adapter/autoscaler/client.go:62-76 | every success reply is the same, with revision expected + 1, and by then the intent has committed once |
| `Scaling.ConflictIsFinal` | internal/adapter/autoscaler/server.go:295-314 | a conflict for an expected revision read from Target means the intent never commits |
| `Scaling.BatchesReplay` | internal/capacity/removals.go:46-58 | a committed removal batch replays as a success that changes nothing, and another batch under its identifier is refused |
| `Scaling.RemovalsAreExclusive` | internal/capacity/removals.go:65-115 | in every run a host is under at most one removal, of its own group, and only after it was launched |
| `Scaling.Retry` | internal/adapter/autoscaler/server.go:297-314 | at most three deliveries, all but the last unanswered, 50 and 100 milliseconds apart; the result is the last one's answer |
| `Store.SelectNewest` | internal/capacity/store.go:289-301 | ORDER BY created_at DESC LIMIT k: the k newest rows, newest first |
| `Store.Store.ProvisionIntent` | internal/capacity/store.go:249-284 | three inserts add one operation, one host and one reservation |
| `Store.Store.CancelRows` | internal/capacity/store.go:321-343 | the row-by-row loop cancels exactly the chosen operations, their hosts and their credits |
| `Store.Store.CancelPending` | internal/capacity/store.go:286-361 | cancels the newest pending operations and marks the newest others excess, up to the count |
| `Store.Store.Judge` | internal/capacity/store.go:45-130 | the chain of checks returns nothing exactly for an admissible request, an error exactly when it is the first warranted, a success exactly for a replay; it returns Inactive exactly when the request passes the earlier checks and one of group, pool, zone, cluster and membership columns, each named, is off |
| `Store.Store.SetTarget` | internal/capacity/store.go:45-180 | the method with its loops is the SetTarget transaction, keeps the tables sound, and changes them only while all gating columns are on |
| `Store.Store.ValidNodes` | internal/capacity/removals.go:23-29 | the validation loop accepts exactly lists of complete nodes with distinct hosts |
| `Store.Store.CheckNodes` | internal/capacity/removals.go:65-92 | the checking loop reports the first host that fails, if any |
| `Store.Store.CreateAutoscalerRemovals` | internal/capacity/removals.go:19-116 | the method with its loops commits exactly the removable batches, with the writes of BatchWrites, and otherwise returns the first warranted error: all nodes or none |
| `Store.Store.CreateRemoval` | internal/capacity/catalog.go:291-369 | the method commits exactly the removable hosts, with its writes spelled out, and otherwise returns the first warranted error |
| `Store.Store.Renew` | internal/capacity/store.go:439-460 | renews exactly under fence, lease, membership and Dominator, each column named, and only sets the lease end to now plus the duration |
| `Store.Store.BeginLaunch` | internal/capacity/store.go:464-482 | moves exactly such an operation to launching and changes no other column |
| `Store.Store.RecordLaunch` | internal/capacity/store.go:504-572 | stores exactly the given provider and, unless empty, node identifier, moves PROVISIONING to BOOTING, commits the credit, and leaves every other row alone; refused exactly for another identity or a lost fence |
| `Store.Store.SetProvisionState` | internal/capacity/store.go:633-647 | the host moves along one of three edges, from exactly the expected state, and nothing else changes |
| `Store.Store.RecordProvisionFailure` | internal/capacity/store.go:661-669 | exactly the given bounded category becomes the last error, and nothing else changes |
| `Store.Store.ReleaseProvisionLease` | internal/capacity/store.go:671-678 | the lease is given back; an operation whose host is beyond the launch boundary keeps launching, any other becomes pending |
| `Store.Store.BindProvisionNode` | internal/capacity/provision_handoff.go:18-31 | binds exactly the given Node once, under approved membership and a Node UID of no other host; only the same Node is accepted again |
| `Store.Store.PinProvisionExpectedState` | internal/capacity/provision_handoff.go:47-80 | the first pin is the one given, content included, later ones are dropped, and the kept pin becomes the desired version |
| `Store.Store.PrepareProvisionRelease` | internal/capacity/provision_handoff.go:83-90 | release intent is stored exactly for a converging host whose pin is its desired version, under approved membership, and is all that changes |
| `Store.Store.FinalizeProvision` | internal/capacity/provision_handoff.go:94-141 | undisturbed, READY and succeeded commit together, exactly when host, pin, release intent, a second of lease and the membership, zone and cluster rows, each named, are there and the release succeeded |
| `Store.Store.ClaimDominator` | internal/capacity/store.go:385-437 | refuses a missing zone or owner and a duration outside a millisecond to a day; otherwise claims the oldest operation of the zone that is free, under this Dominator and a ready and approved membership row, with the next fence and a lease until now plus the duration, or reports that there is none |
| `Subd.PublishedRevisionsRise` | internal/subd/server.go:87-99 | over updates, failed writes and restarts published accepted and applied revisions never decrease, and applied never exceeds accepted |
| `Subd.AppliesInOrder` | internal/subd/server.go:178-198 | Host.Apply sees nondecreasing revisions and one request per revision |
| `Subd.NothingOlderIsApplied` | internal/subd/server.go:179-198 | nothing older than a published accepted revision is handed to Host.Apply |
| `Subd.RestartAlwaysSucceeds` | internal/subd/server.go:39-79 | whatever a crash at any point left on disk, the next start accepts it |
| `Subd.AppliedMeansEnforced` | internal/subd/server.go:198-217 | every revision ever published as applied was enforced, by the only request ever applied at that revision; a current status with outcome applied is of its own request |
| `Subd.UpdateApplies` | internal/subd/server.go:178-231 | an update that is new, persisted, announced and enforced ends published as applied at its revision |
| `Subd.Server.constructor` | internal/subd/server.go:39-79 | recovery turns an interrupted update into interrupted, leaves every other field alone and republishes |
| `Subd.Server.Prepare` | internal/subd/server.go:178-197 | 400 exactly for a malformed request, 409 exactly for an older or contradicting one, 200 with the stored status exactly for a repetition; otherwise the first persist and announcement, with the rollback on failure |
| `Subd.Server.Enact` | internal/subd/server.go:198-231 | enforcement, the second persist and the second announcement: status, file and reply for every combination of their outcomes, with the interrupted fallback |
| `Subd.Server.Update` | internal/subd/server.go:154-232 | one whole call, case by case: an enforced new request answers 200 with exactly its applied status; a failed one is failed at the old applied revision; a repetition answers the stored status without applying; a failed last write leaves interrupted |
| `ClusterJoin.OneJoinPerHost` | internal/subd/cluster_join.go:104-136 | every JoinCluster call on a host is for one operation and one contract, with nondecreasing fences |
| `ClusterJoin.RestartAlwaysSucceeds` | internal/subd/server.go:65-76 | every join file left behind is accepted on restart |
| `ClusterJoin.Server.Handle` | internal/subd/cluster_join.go:90-139 | one whole call, case by case: malformed, contradicting and incapable requests, a failed write, a failed join and a success, which is durable and applied at the request's fence |
| `HostOperations.RevisionsAreDistinctAndRise` | internal/hostoperations/controller.go:96-111 | distinct requests hold distinct revisions, each allocated above all before it |
| `HostOperations.AllocationExceedsAccepted` | internal/hostoperations/controller.go:96-111 | in every run a new row's revision exceeds every revision in the table and the accepted revision the controller saw |
| `HostOperations.AllocatedIsAccepted` | internal/hostoperations/controller.go:88-112 | as long as the host has accepted nothing beyond what the controller saw, its agent proceeds with the allocated request: no conflict, no repetition |
| `HostOperations.RetryKeepsRevision` | internal/hostoperations/controller.go:77-95 | a retry of a known request allocates nothing and is superseded exactly when the host has accepted more |
| `HostOperations.VerifiedIsRecorded` | internal/hostoperations/controller.go:112-138 | whatever the host answered to the controller's own delivery, the request is recorded as applied exactly when the answer says applied and verified, and as failed exactly when it says failed |
| `HostOperations.SecretCanBeApplied` | internal/hostoperations/controller.go:69-138 | from every reachable state an undisturbed new request runs through to applied, on the host and in the table |
| `HostOperations.OnePayloadPerRevision` | internal/hostoperations/controller.go:69-112 | all deliveries at one revision carry one payload |
| `HostOperations.RecordedAppliedWasEnforced` | internal/hostoperations/controller.go:112-138 | a request recorded as applied was enforced with exactly its payload, and stays recorded |
| `HostOperations.NeverAppliesOlder` | internal/subd/server.go:178-198 | with any deliveries, the host never applies a request older than one it published as accepted |
| `Bootstrap.NextFrom` | internal/capacity/bootstrap_phases.go:7-21 | scanning the sequence yields the phase after the given one, and nothing after Ready |
| `Bootstrap.PhaseMovesOneStep` | internal/capacity/catalog.go:380-457 | in every run the phase stays or moves one step along the sequence |
| `Bootstrap.EarlierStepsSucceeded` | internal/capacity/bootstrap.go:64-98 | at a phase every step up to it has succeeded, each after the one before |
| `Bootstrap.ReadyOnlyAfterValidation` | internal/capacity/catalog.go:405-432 | cluster and zone become ready, and the membership ready and approved by anything but an operator, only together, from Validating and a membership no operator changed, under a lease, owner and fence that still hold, after a successful validation |
| `Bootstrap.MembershipFollowsPhase` | internal/capacity/catalog.go:421-431 | left alone by operators, the membership is approved exactly at Ready |
| `Bootstrap.DiscoveryIsWriteOnce` | internal/capacity/bootstrap_discovery.go:16-31 | recorded discovery never changes, and is there from ControlPlaneInitializing on |
| `Bootstrap.DiscoveryComesFromItsStep` | internal/capacity/bootstrap_discovery.go:16-31 | discovery changes only from empty fields to what the step into ControlPlaneInitializing found, in the phase before it, while the cluster is not ready |
| `Bootstrap.OnlyTheHolderWrites` | internal/capacity/catalog.go:391-403 | in every run the rows change, but for claims and operators, only by the worker of the latest claim before its lease ran out |
| `Bootstrap.LeaseMovesExactly` | internal/capacity/store.go:397-460 | the lease changes only by a claim of a free operation under the next fence, by a renewal in time, both for exactly the duration asked for, or by being given up in time |
| `BootstrapProgress.EveryCallAdvances` | internal/capacity/bootstrap.go:28-98 | every complete call with a succeeding executor and a kept lease advances the operation by exactly one phase and frees it, or ends it at Ready |
| `BootstrapProgress.EveryBootstrapFinishes` | internal/capacity/bootstrap.go:28-98 | every sequence of as many such calls as phases are left ends at Ready, with cluster, zone and membership ready |
| `BootstrapProgress.EveryBootstrapCanFinish` | internal/capacity/bootstrap.go:28-98 | and from every run that has come to rest there is one |
| `BootstrapProgress.StartRests` | internal/capacity/bootstrap.go:28-45 | a bootstrap as requested is such a state |
| `ProblemCache.EarlyStopIsExact` | internal/activitymanager/problemcache/lr_cache.go:53-66 | the sweep that stops early removes exactly what a full filter by the cutoff would |
| `ProblemCache.FilteredExactly` | internal/activitymanager/problemcache/lr_cache.go:56-65 | what stays is exactly what was seen at the cutoff or later, in order |
| `ProblemCache.RecordIsDistinctExactly` | internal/activitymanager/problemcache/lr_cache.go:101-115 | Record leaves one entry per key exactly when the key was absent, or alone in a cache of one |
| `ProblemCache.RecordAfterMiss` | internal/activitymanager/problemcache/lr_cache.go:101-115 | after a miss the order and the bound are kept and a full cache loses its least recently touched key |
| `ProblemCache.TouchKeepsOrder` | internal/activitymanager/problemcache/lr_cache.go:117-127 | a hit keeps one entry per key, in order of last touch |
| `ProblemCache.HoldsMostRecentlyTouched` | internal/activitymanager/manager.go:82-87 | however hits, misses and sweeps alternate, the cache holds exactly the most recently looked-at keys it has room for among those the latest sweep would not expire, in order |
| `ProblemCache.LRCache.constructor` | internal/activitymanager/problemcache/lr_cache.go:31-51 | a new cache is empty and well linked |
| `ProblemCache.Unlink` | internal/activitymanager/problemcache/lr_cache.go:77-82 | two pointer updates leave a well-formed chain without the node |
| `ProblemCache.LinkLast` | internal/activitymanager/problemcache/lr_cache.go:90-94 | four pointer updates put a node before the last sentinel |
| `ProblemCache.LRCache.RemoveNode` | internal/activitymanager/problemcache/lr_cache.go:77-85 | list and map stay in bijection without the node |
| `ProblemCache.LRCache.AddMR` | internal/activitymanager/problemcache/lr_cache.go:87-99 | list and map stay in bijection with the key at the recent end |
| `ProblemCache.LRCache.SeenRecently` | internal/activitymanager/problemcache/lr_cache.go:117-127 | reports whether the key is there and moves it, touched now, from where it stood to the recent end |
| `ProblemCache.LRCache.Record` | internal/activitymanager/problemcache/lr_cache.go:101-115 | for a key just missed, takes the least recent entry from a full cache and adds the key at the recent end |
| `ProblemCache.LRCache.PeriodicRun` | internal/activitymanager/problemcache/lr_cache.go:53-66 | exactly the entries seen at the cutoff or later stay |
| `ProblemCache.Observe` | internal/activitymanager/manager.go:82-87 | looking first and recording after a miss is the Look of HoldsMostRecentlyTouched |
| `WorkerNode.CheckLabels` | pkg/api/scheduling.go:26-39 | the label loop accepts exactly well-formed, unreserved labels that override nothing |
| `WorkerNode.CheckTaints` | pkg/api/scheduling.go:40-47 | the taint loop accepts exactly distinct, well-formed taints off the provisioning key |
| `WorkerNode.ValidateScheduling` | pkg/api/scheduling.go:22-50 | the whole validation accepts exactly the schedulable templates |
| `WorkerNode.ScheduledExactly` | pkg/api/scheduling.go:22-50 | which are those with every field set, a known architecture, and labels and taints that fit, each rule spelled out |
| `WorkerNode.ReservedExactly` | pkg/api/scheduling.go:35-39 | a key is reserved exactly when its namespace is a Kubernetes domain or below one, or it is under platform.crane.io |
| `WorkerNode.CanonicalLabelsWin` | pkg/api/scheduling.go:12-39 | a validated template never overrides a canonical label |
| `WorkerNode.BuildLabels` | pkg/api/scheduling.go:12-20 | the loop writes the template's labels over the canonical ones |
| `WorkerNode.ValidateWorkerNode` | internal/dominator/provisioner.go:293-335 | the loops report the first kind of drift, for every node and registration |
| `WorkerNode.DriftExactly` | internal/dominator/provisioner.go:293-335 | each kind of drift is reported exactly when it is the first there is, every label and taint spelled out |
| `WorkerNode.FilterTaints` | internal/dominator/provisioner.go:227-233 | filtering in place leaves the kept taints at the front of the same array |
| `WorkerNode.KeptExactly` | internal/dominator/provisioner.go:227-233 | exactly the provisioning taints go, all others stay as often as they were there |
| `WorkerNode.KeptInOrder` | internal/dominator/provisioner.go:227-233 | the others keep their order |
| `WorkerNode.ReleaseKeepsIdentityExactly` | internal/dominator/provisioner.go:293-335 | a validated Node still validates after Release, under the recovery flag, exactly when no template taint uses the provisioning key |
| `WorkerNode.ReleasedNodeIsRecognised` | internal/dominator/provisioner.go:216-239 | for every valid registration it does; repeating Release changes nothing; without the flag it is refused |
| `Recovery.RecoveryIsNeverRefused` | internal/dominator/provisioner.go:241-267 | a bound Node that only Crane has changed, read at any time, validates under the release_started read at any later time |
| `Recovery.EnrollmentIsNeverRefused` | internal/dominator/provisioner.go:241-267 | a live enrolling controller, which validates without the flag, is never refused for a quarantine Crane lifted |

## Left out

- Waiting statements: when a statement waits for a row lock PostgreSQL evaluates its condition again; here a statement sees one state. `Locks.dfy` lets a decrease pick any eligible rows, which covers rows lost that way.
- Provisioning controllers are modelled on values, as steps of one machine, because their interleaving is the point; the store they call is also given as an object.
- CompleteProvision and SetProvisionDesiredVersion: the first sits on a branch the coupling invariant makes unreachable, the second has no caller.
- Other writers of modelled rows. UpdateClusterZone (`internal/capacity/catalog.go` line 247, reached from `internal/capacity/http.go` line 256) is the Topology event of the capacity machine and the Operate event of the bootstrap machine. Store.Observe (`internal/capacity/catalog.go` line 460) writes a host's observed version and has no caller.
- Removal execution: the repository persists removals but has no executor that drains and terminates nodes, so removals stay open.
- Host states DRAINING, TERMINATING, FAILED and UNHEALTHY occur in guards; nothing in this model enters them.
- LoadProvisioningTarget, the Dominator route and bootstrap host records, and the Failed bootstrap phase, which nothing requests.
- Fences and file revisions are unbounded integers; int64 wrap-around is modelled for targets, revisions and resources.
- ProblemCache.LRCache.Record: requires the miss its only caller guarantees; ProblemCache.RecordIsDistinctExactly says what happens otherwise.
- WorkerNode.CheckLabels: takes the two Kubernetes format checks as parameters.
- HostOperations: the Kubernetes result of a Secret is one word, "verified", for both rollout cases.
- Subd's status file, which mirrors the published view, and request size and format checks.
- Cloud, SSM, IAM and shell templates, X.509 and SPIFFE, HTTP handlers, telemetry and configuration defaults: calls to services or library behaviour.
- The legacy action queue and host catalog, which also write host states: EnsureLegacyLifecycle (`internal/hostcatalog/service/service.go` lines 24-36) refuses every host with a node group, and Guarantees.ReadyOnlyByHandoff rests on that.
- Fairness between operations of a zone: a failing oldest operation is claimed first every time, so progress is claimed only for a succeeding executor.

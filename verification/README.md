# Verified model of the local-agent-dispatch control protocol and the audit sync

This project models, in Dafny 4.11, the two protocols of the repository whose
correctness is hardest to see in any one function, and proves what they promise.

**Local agent dispatch** (`experiments/local_agent_dispatch`). Parents, detached
workers, reapers, reconcilers, cancel callers and garbage collectors share files.
Each change is a read-modify-write of one file under its lock, and any process
may die between two durable writes. The model takes one such lock-guarded body,
or one file replacement, as one atomic step.

| file | models |
|---|---|
| `RunRecords.dfy`, `RunStore.dfy` | run records and their transitions; the store's methods, reconciliation included |
| `RunLifecycles.dfy` | whole lives of a run, and when each call writes, is refused or does nothing |
| `Leases.dfy`, `SlotManager.dfy` | slot tables, lease fencing, the reclaim rule, two-phase acquisition |
| `SlotReclaim.dfy` | who keeps and who loses a slot, in seconds and clock readings |
| `SlotSafety.dfy` | run store and slot tables together, under any number of crashing workers |
| `BatchPlans.dfy`, `BatchRequests.dfy`, `Manifests.dfy` | task contracts, batch requests, plans and manifests, printed and parsed |
| `Refusals.dfy` | what every accepted contract, request, plan and manifest is, on its text; what is refused |
| `Orchestrations.dfy`, `OrchestrationStarts.dfy` | manifests and permanent request tombstones; when a start succeeds, and with what |
| `GarbageCollection.dfy`, `CollectionAges.dfy` | what one collection pass selects; how old it is, then and when it is deleted |
| `BatchProtocol.dfy`, `BatchCollisions.dfy` | collectors interleaved with everything else; exactly when that is safe |
| `Supervisor.dfy` | ending a claimed run, and the asynchronous start handshake |
| `Allocation.dfy`, `ResultValues.dfy`, `Capture.dfy` | backend allocation, result normalisation, bounded output capture |

**Audit sync** (`src/dyro/audit_remote.py`, `src/dyro/witness.py`).
`AuditChain.dfy` has the hash chain, batches and their validation,
`AuditClient.dfy` the control plane's persist, send, confirm cycle,
`AuditProtocol.dfy` client and witness over a network that loses, delays and
repeats messages, with crashes on both sides, and `AuditRefusals.dfy` what either
end accepts, on the values that travel.

Code that works by updating fields is modelled by classes and methods with loops
(`RunStore`, `SlotManager`, `OrchestrationStore`, `Selection`, `Supervisor`,
`Allocator`, `AuditClient`). Each is proved against functions on values, and the
protocol theorems are proved about those functions over every sequence of steps.

What comes from outside is a parameter: clock readings, process probes, what the
operating system proved about a process group, file contents another process may
mangle, trust-store answers, and hash, signing and canonicalisation functions.
A probe that says *dead* or *stopped* is believed; death is final. Between two
store calls of a supervisor or a reconciler the other processes' events are an
arbitrary script.

## What the proofs found

* **Capture.** Reaching the byte limit does not mean that output was cut. Output
  that fits exactly fills the limit and is complete (`Capture.ExactFitIsNotCut`);
  output of a child that closes both streams in time is cut if and only if it
  delivered more than the limit (`Capture.CutExactlyWhenTooMuch`).
* **Collection and run ids.** Members' run ids are truncated digests, and runs of
  no batch draw theirs at random from the same 64 bits; nothing checks that they
  differ. A collector can come to delete an unfinished run if and only if the
  started plans clash: a member's run id is also that of a member of another plan,
  with its tombstone in another file, or is drawn for a run of no batch. Then it
  can also delete a run that a manifest lists; and it can, besides, only where two
  plans of different orchestration ids share a run id and their tombstones' file
  (`BatchCollisions.CollectionIsSafeExactlyWhen`; for the store's own ids,
  `BatchCollisions.StoreCollectionIsSafeExactlyWhen`). The schedule
  (`BatchCollisions.ClashLosesALiveRun`): the first batch, or the run of no batch,
  finishes; its manifest is unlinked by a collector that dies there; two more
  collectors doom the runs left over; one deletes them; the other batch starts in
  full and creates the shared run anew; the other collector is about to delete it.
  The idempotency claims hold for any id function.
* **Collection and age.** A manifest is at least the age limit old when it is
  unlinked, and a run is when the collector reads it, over every interleaving. But
  the deleting loop does not look at ages again. A finished run that is reported
  once more with its own status, after it was read, is deleted however recent that
  report is (`CollectionAges.RewrittenRunsAreDeletedYoung`). Where plans do not
  clash that is the only way: a run that was not written since it was read is the
  same record, and as old (`CollectionAges.DeletedRunsAreOldUnlessRewritten`).
* **Manifests and clocks.** A cancellation stamped before the creation makes the
  store's own manifest unreadable. A written manifest reads back unchanged if and
  only if the clock never ran backwards (`Manifests.ManifestRoundTrip`).
* **Audit.** `docs/audit-witness-protocol.md` lets a client rotate the receipt key
  at any time. The witness's code does not always allow it: if the very first
  batch was empty and the witness died after recording it and before its first
  checkpoint, it answers retries from the record and never writes that
  checkpoint. A rotation then asks for key epoch 2 from a witness that takes the
  new key for its first, and whatever client, witness and network do later, that
  batch stays pending and is refused, under any configured key and with any
  rotation allowed, whatever the settings, as long as they name no recovery key
  (`AuditProtocol.RotationCanStrandAClient`). Provided that its
  operators configure the key asked for, allow the rotation and trust the receipt,
  no other sent batch gets stuck: some run confirms it if and only if a checkpoint
  exists or it asks for the first epoch
  (`AuditProtocol.ConfirmableExactlyWhen`). What the witness does in one state is
  `AuditProtocol.PendingIsRefusedExactlyWhen`: it answers a batch it already
  stands at; otherwise it takes the batch exactly when it is configured with the
  batch's key, may rotate to it if it is new, and has a checkpoint or is asked for
  the first epoch.
* **Allocation order.** Members are served in their order without looking ahead.
  For identical `auto` members that loses nothing
  (`Allocation.AlikeMembersLoseNothing`); in general it can: with two backends,
  three `auto` members leave no place for a fourth that asks for the first backend,
  although the four could be assigned (`Allocation.OrderCanLose`).
* **Failed acquisition.** A failed `acquire` may already have cleared a stale slot,
  so what is proved is that leases which may not be reclaimed are untouched.

## Model

| member | source | states |
|---|---|---|
| RunRecords.StepKeepsRecord | experiments/local_agent_dispatch/run_store.py:639-875 | every transition keeps: a tracked backend means running, a cancel flag means running or cancelled; terminal status, token, cancel request never change back; a write adds exactly one revision, an idempotent return changes nothing; a save always passes its own re-parse |
| RunRecords.ReplayKeepsRecord | experiments/local_agent_dispatch/run_store.py:639-1147 | the same over any interleaved history of transitions, and the revision counts exactly the writes |
| RunRecords.NewRecordValid | experiments/local_agent_dispatch/run_store.py:388-421 | a created run starts inside the invariant |
| RunRecords.RunningEndsOnlyForItsOwner | experiments/local_agent_dispatch/run_store.py:655-680 | a running run is ended only under its own token, with no tracked backend, and as cancelled once cancellation was requested |
| RunRecords.ClaimedOrForestalledOnce | experiments/local_agent_dispatch/run_store.py:740-802 | over every race of parent, worker, reconciler and cancel callers an accepted run is claimed at most once or ended unclaimed at most once, never both |
| RunRecords.LeavesAccepted | experiments/local_agent_dispatch/run_store.py:761-802 | only a claim makes an accepted run running, and nothing makes a run accepted again |
| RunRecords.ReservationExclusive | experiments/local_agent_dispatch/run_store.py:740-759 | a reservation's token stays the run's token for ever |
| RunRecords.BystandersAbandon | experiments/local_agent_dispatch/run_store.py:959-1147 | once a worker's process is gone, everybody else, reconcilers with its token included, leaves its running run running with its backend or none, or over; any other run is not claimed, and an end stays as it is |
| RunStores.RunStore.EnsureCreated | experiments/local_agent_dispatch/run_store.py:423-581 | creates once; repeats answer the stored run unchanged; a different origin, planned execution profile and digest included, is a conflict that writes nothing, and a malformed origin or a profile its digest does not name is refused |
| RunStores.RunStore.UpdateStatus | experiments/local_agent_dispatch/run_store.py:639-690 | terminal status is absorbing, a running run needs its token, no tracked backend, and only a cancelled outcome after a request; the one record is rewritten, or none |
| RunStores.RunStore.RequestCancel | experiments/local_agent_dispatch/run_store.py:692-722 | accepted runs end, running ones are flagged once, finished ones are left alone |
| RunStores.RunStore.CancelRequestedFor | experiments/local_agent_dispatch/run_store.py:724-738 | true exactly for the running generation with that token and a stored request |
| RunStores.RunStore.ReserveAsyncWorker | experiments/local_agent_dispatch/run_store.py:740-759 | reserves an accepted run that has no token, and no other |
| RunStores.RunStore.ClaimForExecution | experiments/local_agent_dispatch/run_store.py:761-802 | claims an accepted run for its reserved token or an unreserved one |
| RunStores.RunStore.BindBackendProcess | experiments/local_agent_dispatch/run_store.py:804-875 | tracks a verified process group for the running owner only, once |
| RunStores.RunStore.CleanupBackendIfOwned | experiments/local_agent_dispatch/run_store.py:959-1002 | untracks only what was proven stopped, and answers yes only if nothing is left to stop |
| RunStores.RunStore.FailIfAccepted | experiments/local_agent_dispatch/run_store.py:1063-1076 | ends an unreserved accepted run and leaves every other run alone |
| RunStores.RunStore.FailIfRunning | experiments/local_agent_dispatch/run_store.py:1078-1101 | ends a running run only for its token and without a tracked backend |
| RunStores.RunStore.FailIfActiveWorker | experiments/local_agent_dispatch/run_store.py:1103-1126 | ends a reserved or running generation only for its token and without a tracked backend; as cancelled if requested |
| RunStores.RunStore.FailIfReservedWorker | experiments/local_agent_dispatch/run_store.py:1128-1147 | ends a run only while it is still reserved for that token |
| RunStores.RunStore.Delete | experiments/local_agent_dispatch/run_store.py:1149-1153 | removes one record and nothing else |
| RunStores.ReconciliationOutcome | experiments/local_agent_dispatch/run_store.py:1004-1061 | made of one record, nobody acting meanwhile, in statuses, clock readings and probe answers: a reservation at least 10 seconds old and a running run whose recorded worker is dead with its backend proven stopped are ended, as cancelled if that was requested and else with the stated error; a dead worker's unproven clean-up is noted; any other record stays as it is, and so does every other run |
| RunStores.RunStore.ReconcileOrphanedWorkers | experiments/local_agent_dispatch/run_store.py:1004-1061 | the loop decides by what it listed and acts on the records as they are by then, while others change, create and delete runs between its reads, before each turn and between its two calls; it raises where a record has vanished |
| RunStores.PassBecame | experiments/local_agent_dispatch/run_store.py:1004-1061 | whatever a pass and the others do to a run nobody deletes is one history of run-store transitions, so what is proved of such histories holds with reconcilers among the actors |
| RunStores.PassSettlesOrphans | experiments/local_agent_dispatch/run_store.py:1004-1061 | a pass that runs to its end settles every orphan it listed, whoever acts meanwhile short of deleting the run: no listed expired reservation is still accepted, and a dead worker's run with its backend proven stopped is over, as nobody claims it or binds a backend under its token |
| RunStores.ExpiryEndsOnlyTheReserved | experiments/local_agent_dispatch/run_store.py:1020-1029 | whoever acts meanwhile, an expired reservation is ended exactly if the run is still accepted under the listed token by then; a run claimed in time, or another generation, is not touched |
| RunStores.PassSparesTheLiving | experiments/local_agent_dispatch/run_store.py:1030-1061 | over a whole pass with others acting: a listed run that is over, running under a worker not known dead, or accepted and unreserved or reserved less than 10 seconds ago ends exactly as the others' deeds alone would have left it |
| RunStores.ToldHaveFailed | experiments/local_agent_dispatch/run_store.py:1030-1061 | every run a pass reports has failed for good, unless somebody deletes it |
| RunStores.UndisturbedReconciliation | experiments/local_agent_dispatch/run_store.py:1004-1061 | when nobody acts meanwhile every chosen run becomes what the single-record rule says, and exactly those made to fail are reported |
| RunStores.UndisturbedReport | experiments/local_agent_dispatch/run_store.py:1004-1061 | seen from outside such a pass leaves every run not chosen as it was and reports exactly the runs that had not failed before and have after |
| RunLifecycles.CompletedLife | experiments/local_agent_dispatch/run_store.py:388-875 | a run reserved, claimed, given a backend, cleaned up and reported ends, after five writes, as completed with exactly the reported result and shadow path |
| RunLifecycles.CancelledLife | experiments/local_agent_dispatch/run_store.py:655-722 | a cancellation of a claimed run is written once with its first reason; after it a report of anything but cancelled is refused |
| RunLifecycles.CancelledBeforeClaim | experiments/local_agent_dispatch/run_store.py:692-802 | a cancellation before any claim ends the run, and no claim succeeds |
| RunLifecycles.OriginsAreAcceptedExactlyWhen | experiments/local_agent_dispatch/run_store.py:439-556 | what a create accepts of names, digests, base head and planned profile, in lengths and characters |
| RunLifecycles.CancelWritesExactlyWhen | experiments/local_agent_dispatch/run_store.py:692-722 | a cancellation is refused exactly for a reason of more than 500 characters, and written exactly for a run not over and not yet asked to stop |
| RunLifecycles.ReservesExactlyWhen | experiments/local_agent_dispatch/run_store.py:740-759 | a reservation is written exactly for an accepted run without a token, and writes the token only |
| RunLifecycles.UpdatesExactlyWhen | experiments/local_agent_dispatch/run_store.py:655-690 | an update is refused exactly when it would change how a run ended, or end a running one without its token, past its tracked backend, or against a requested cancellation; otherwise it writes what it carries and nothing else |
| RunLifecycles.ClaimsExactlyWhen | experiments/local_agent_dispatch/run_store.py:761-802 | a claim succeeds exactly on an accepted run, unreserved or reserved for its token, and writes worker, token and slots |
| RunLifecycles.TracksExactlyWhen | experiments/local_agent_dispatch/run_store.py:804-875 | a backend is tracked exactly for the running owner that tracks none, when its probes name this very generation |
| RunLifecycles.CleansUpExactlyWhen | experiments/local_agent_dispatch/run_store.py:959-1002 | what a clean-up writes and answers in every case |
| RunLifecycles.FailsExactlyWhen | experiments/local_agent_dispatch/run_store.py:1063-1147 | the four ways to fail a run: whom each one ends, how, and that it leaves every other record alone |
| Leases.LegacyRunState | experiments/local_agent_dispatch/lease.py:488-538 | an unbound lease is free only if every run file was read, none unfinished names the slot, and the directory did not change |
| Leases.BoundRunState | experiments/local_agent_dispatch/lease.py:441-486 | reclaim may go on exactly when no unfinished run can rely on the lease; unreadable means no |
| Leases.UnfinishedRunKeepsLease | experiments/local_agent_dispatch/lease.py:441-538 | a lease whose run is readable and unfinished is never idle |
| Leases.AttemptTakesLowest | experiments/local_agent_dispatch/lease.py:540-751 | takes the lowest servable slot, installs its one token there only, leaves leases it may not reclaim alone, and reports full only when none could be served |
| Leases.DisplacedHolderIsFenced | experiments/local_agent_dispatch/lease.py:259-338 | once displaced, whatever anyone does later, a holder's bind and renew are rejected, its release fails, and none changes the table |
| Leases.ProtectedLeaseSurvives | experiments/local_agent_dispatch/lease.py:560-672 | over any history a lease that no attempt finds reclaimable stays its holder's until that holder releases it |
| SlotReclaim.ReclaimedExactlyWhen | experiments/local_agent_dispatch/lease.py:560-672 | when an existing slot may be taken over, on numbers: without a lease from 15 seconds on; with one that no run relies on and whose owner is not alive, if the owner is dead or the renewal is unreadable or at least 180 seconds ago |
| SlotReclaim.FreshSlotsStay | experiments/local_agent_dispatch/lease.py:560-672 | a lease renewed less than 180 seconds ago whose owner is not known dead, one whose owner lives or that a run relies on, and a slot waiting less than 15 seconds survive every attempt with any faults |
| SlotReclaim.StaleLeaseIsTaken | experiments/local_agent_dispatch/lease.py:606-751 | the lowest slot nobody may keep is taken, fault-free: at 180 seconds from its last renewal if the owner is of unknown fate, at any age if dead; nothing else in the table changes |
| SlotReclaim.EmptySlotIsTaken | experiments/local_agent_dispatch/lease.py:611-751 | so is a slot that has waited 15 seconds for its lease, or does not exist |
| SlotReclaim.SilentHolderLosesItsSlot | experiments/local_agent_dispatch/lease.py:753-799 | a holder that stops renewing loses its slot to an acquisition from 180 seconds on |
| SlotReclaim.RenewingHolderKeepsItsSlot | experiments/local_agent_dispatch/lease.py:281-306 | over any history a live holder that renews at less than 180 seconds' distance keeps its slot |
| SlotReclaim.FullBackendIsDenied | experiments/local_agent_dispatch/lease.py:753-799 | where every slot of the backend stays with its holder an acquisition says so and changes nothing |
| SlotReclaim.FullGlobalIsDenied | experiments/local_agent_dispatch/lease.py:753-799 | where only the global ones do, the backend slot that was taken is gone again |
| SlotReclaim.FailedInstallationStops | experiments/local_agent_dispatch/lease.py:674-751 | a lease file that cannot be written ends the acquisition without trying a higher slot, and the clean-up it reports is what happened |
| SlotReclaim.ScopesAreNames | experiments/local_agent_dispatch/lease.py:753-771 | a non-empty backend name without path separators has a scope of its own, and the empty one that of `auto` |
| SlotManagers.SlotManager.MayReclaim | experiments/local_agent_dispatch/lease.py:560-672 | the checks, in their order, decide exactly: owner not alive, no run relying on it, and dead or expired |
| SlotManagers.SlotManager.TryAcquireScope | experiments/local_agent_dispatch/lease.py:540-751 | the slot loop does what one attempt on the scope specifies, faults included |
| SlotManagers.SlotManager.Acquire | experiments/local_agent_dispatch/lease.py:753-799 | backend slot, then global slot, with the first given back on failure |
| SlotManagers.AcquireIsTwoPhase | experiments/local_agent_dispatch/lease.py:753-799 | success leaves one fresh token in the lowest servable slot of each scope; proven failure leaves none; protected leases are unchanged; without faults it fails exactly when a scope has no servable slot |
| SlotManagers.SlotManager.BindRun | experiments/local_agent_dispatch/lease.py:259-279 | binds only while the slot carries the holder's token |
| SlotManagers.SlotManager.Renew | experiments/local_agent_dispatch/lease.py:281-306 | renews only while the slot carries the holder's token |
| SlotManagers.SlotManager.Release | experiments/local_agent_dispatch/lease.py:308-338 | frees the slot only for its holder and says so truthfully |
| SlotManagers.SlotManager.ReleaseAll | experiments/local_agent_dispatch/lease.py:801-816 | releases lease after lease, going on after a failure; proven exactly if every release was |
| SlotManagers.ReleaseAllGivesBack | experiments/local_agent_dispatch/lease.py:308-338 | each slot still held is removed, emptied, or left with its token where extra files keep it; no other entry changes; all is proven exactly when all were still held and no release met a fault |
| SlotSafety.StepKeepsInv | experiments/local_agent_dispatch/supervisor.py:521-611 | every step of every process keeps the joint invariant of runs, leases and workers |
| SlotSafety.TrackedRunOwnsBothSlots | experiments/local_agent_dispatch/run_store.py:860-875 | a run with a tracked backend is running and still owns an unreclaimable slot in each scope |
| SlotSafety.TrackedRunsSitApart | experiments/local_agent_dispatch/lease.py:753-799 | two tracked runs never share a slot |
| SlotSafety.SlotLimitsHold | experiments/local_agent_dispatch/lease.py:406-420 | in every reachable state at most `max_global` runs have a tracked backend, and at most `max_per_backend` in one backend's scope |
| SlotSafety.LimitsAreAttained | experiments/local_agent_dispatch/supervisor.py:543-575 | both limits are sharp: a run of the system leads to exactly `max_global` tracked backends, with as many of them in one backend's scope as that scope or the whole admits |
| SlotSafety.WorkerCanTrack | experiments/local_agent_dispatch/supervisor.py:543-575 | from any state with a vacant seat a new worker can acquire, claim, bind and track, leaving everything else as it was |
| Supervisors.Supervisor.Retry | experiments/local_agent_dispatch/supervisor.py:686-704 | a report refused because of a cancellation is retried as cancelled, so the run still ends |
| Supervisors.Supervisor.Conclude | experiments/local_agent_dispatch/supervisor.py:631-734 | whatever lands between its store calls the run is over afterwards, cancelled if that was requested in time; if no one else held its token and no request came it holds exactly the reported status, result, error and shadow path, with release errors appended to the result of a failure and making a success a failure, or the adapter's error as the failure; with a request, the cancelled envelope |
| Supervisors.Supervisor.Finalise | experiments/local_agent_dispatch/supervisor.py:582-734 | the slots are given back exactly with the backend proven stopped, and then the run is over with exactly what the worker reported, or raised, or the cancelled envelope, a release that was not proven spoiling a success; otherwise the slot tables keep the leases, nothing is concluded and the backend stays tracked |
| Supervisors.SettlingStays | experiments/local_agent_dispatch/run_store.py:639-690 | once a worker's backend is stopped no other actor can put the run beyond its reach without ending it |
| Supervisors.ForeignStays | experiments/local_agent_dispatch/run_store.py:639-875 | without the token a running run can be asked to stop but not ended, taken over, or given a backend |
| Supervisors.Supervisor.FailAsyncSupervision | experiments/local_agent_dispatch/supervisor.py:736-787 | ends the run only after worker, backend and profile clean-up succeeded, with reconcilers acting under the same token and, if it could not be stopped, the worker itself |
| Supervisors.Supervisor.ReapAsyncWorker | experiments/local_agent_dispatch/supervisor.py:225-264 | with reconcilers acting under the same token: no run stays reserved behind an exited worker, and one stays running only if its backend was not proven stopped |
| Supervisors.Supervisor.Handshake | experiments/local_agent_dispatch/supervisor.py:902-964 | the parent never returns with the run still reserved; when it kills the worker at the deadline the run has failed and no later claim can succeed |
| Supervisors.Supervisor.SpawnWorker | experiments/local_agent_dispatch/supervisor.py:789-964 | a start is refused exactly when the run is missing, or not accepted, or taken before it could be reserved; a failed set-up or launch ends in supervision; otherwise the worker is killed exactly when no poll before the deadline found its claim or its end, and the start never leaves the run reserved |
| BatchPlans.StripIdempotent | experiments/local_agent_dispatch/task_contract.py:72-129 | stripped text stays as it is when stripped again |
| BatchPlans.ParseAfterPrint | experiments/local_agent_dispatch/task_contract.py:50-129 | parsing a printed contract returns the contract |
| BatchPlans.StrictAfterPrint | experiments/local_agent_dispatch/batch_contract.py:132-153 | so does the strict parse inside plans |
| Refusals.StripCutsOnlyWhiteSpace | experiments/local_agent_dispatch/task_contract.py:63-69 | stripping cuts off all white space at both ends and nothing else |
| Refusals.ContractIsAcceptedExactlyWhen | experiments/local_agent_dispatch/task_contract.py:72-129 | a contract is accepted exactly when each field has its type, range and pattern, and then says what its fields say, with the defaults for missing ones |
| Refusals.StrictContractIsAcceptedExactlyWhen | experiments/local_agent_dispatch/batch_contract.py:132-153 | inside a batch besides exactly with all fields, a whole schema version, no echo backend and no offline run |
| BatchPlans.ReadAll | experiments/local_agent_dispatch/batch_contract.py:508-525 | a list is read item by item, in order, or fails with the first error |
| BatchRequests.ReadMembers | experiments/local_agent_dispatch/batch_contract.py:211-246 | reads every member, and fails only when no list with distinct roles and at most one editor is what the entries say |
| BatchRequests.ParseBatchRequest | experiments/local_agent_dispatch/batch_contract.py:185-257 | accepts exactly the payloads that say a valid request, and returns the request they say |
| BatchRequests.SaysOneRequest | experiments/local_agent_dispatch/batch_contract.py:185-257 | a payload never says two requests |
| Refusals.RequestIsSaidExactlyWhen | experiments/local_agent_dispatch/batch_contract.py:185-257 | what saying a request means on the payload: fields, version, id characters, strategy, two to four members with different roles, at most one editor, at most a mebibyte |
| BatchRequests.RequestRoundTrip | experiments/local_agent_dispatch/batch_contract.py:156-257 | an accepted request prints to a payload that says the same request |
| BatchPlans.MemberRoundTrip | experiments/local_agent_dispatch/batch_contract.py:299-401 | every constructible plan member reads back unchanged |
| BatchPlans.PlanRoundTrip | experiments/local_agent_dispatch/batch_contract.py:444-542 | every constructible plan reads back unchanged, digest check included |
| Refusals.AcceptedPlansArePlain | experiments/local_agent_dispatch/batch_contract.py:444-542 | every accepted plan, round trip or not: its exact fields, different roles, the effects its members imply, and the digest of its own canonical form |
| Refusals.AcceptedPlanMembersArePlain | experiments/local_agent_dispatch/batch_contract.py:299-401 | and its members: plain ids, digests, profile of the backend, base head exactly for an edit, at most one edit |
| Refusals.ForeignDigestsAreRefused | experiments/local_agent_dispatch/batch_contract.py:508-542 | a plan under a digest that is not its own is refused |
| Refusals.AlteredPlansAreRefused | experiments/local_agent_dispatch/batch_contract.py:508-542 | a stored plan altered under its digest is refused, or still says the same plan |
| Manifests.ManifestRoundTrip | experiments/local_agent_dispatch/orchestration_store.py:138-273 | a manifest that repeats its plan reads back unchanged exactly when its times are in order, and is refused otherwise |
| Manifests.StoreWritesRoundTrip | experiments/local_agent_dispatch/orchestration_store.py:697-718 | what the store writes at creation and at cancellation reads back exactly when the clock did not run backwards |
| Refusals.AcceptedManifestsAreDerived | experiments/local_agent_dispatch/orchestration_store.py:153-273 | every accepted manifest: its plan's own digest, the id of request and digest, ordered times, and one member per planned one under its derived run id |
| Refusals.IdsAreAbbreviatedDigests | experiments/local_agent_dispatch/orchestration_store.py:88-106 | ids are a prefix and the first sixteen digits of a digest |
| Orchestrations.OrchestrationStore.FindRequest | experiments/local_agent_dispatch/orchestration_store.py:433-438 | finds a request's manifest, or none, or stops at an unreadable one |
| Orchestrations.OrchestrationStore.BindRequestTombstone | experiments/local_agent_dispatch/orchestration_store.py:485-525 | creates the tombstone once, or verifies it |
| Orchestrations.OrchestrationStore.CreateOrLoad | experiments/local_agent_dispatch/orchestration_store.py:535-621 | create or replay, killed or not, keeps the store's invariant and does exactly one specified effect, whose outcomes are the `OrchestrationStarts` lemmas |
| OrchestrationStarts.StartsExactlyWhen | experiments/local_agent_dispatch/orchestration_store.py:535-621 | a start succeeds exactly when the request has a manifest of this very plan and a matching or no tombstone, or has neither and its derived id is free |
| OrchestrationStarts.FirstStart | experiments/local_agent_dispatch/orchestration_store.py:572-621 | a first start writes the manifest of this plan, revision 0, not cancelled, with the derived members, then the tombstone unless killed, and nothing else |
| OrchestrationStarts.RepeatedStart | experiments/local_agent_dispatch/orchestration_store.py:545-571 | a repeated start answers the stored manifest and at most adds its tombstone |
| OrchestrationStarts.InterruptedStartIsCompleted | experiments/local_agent_dispatch/orchestration_store.py:545-621 | a start killed between manifest and tombstone and then repeated answers the same manifest and leaves the tombstone |
| OrchestrationStarts.RefusedStartsSayWhy | experiments/local_agent_dispatch/orchestration_store.py:535-621 | each refusal, on the two maps, and that it writes nothing |
| OrchestrationStarts.ScansStopAtUnreadable | experiments/local_agent_dispatch/orchestration_store.py:433-438 | a scan for a request passes over no unreadable manifest |
| Orchestrations.CreateEffectKeepsInv | experiments/local_agent_dispatch/orchestration_store.py:535-621 | a success answers the manifest of this plan and, unless killed, leaves its tombstone |
| Orchestrations.CreateEffectIsActions | experiments/local_agent_dispatch/orchestration_store.py:535-621 | the effect of any create or replay, killed or not, is at most a create and a binding of the histories below |
| Orchestrations.CreateKeepsBindings | experiments/local_agent_dispatch/orchestration_store.py:485-621 | so the store's own method unbinds no request and brings no collected one back |
| Orchestrations.OrchestrationStore.RequestCancel | experiments/local_agent_dispatch/orchestration_store.py:670-718 | marks one readable manifest cancelled at the next revision if the expected revision, when given, is its own, answers a cancelled one as it is, and otherwise changes nothing |
| Orchestrations.BoundRequestsAreRefused | experiments/local_agent_dispatch/orchestration_store.py:535-621 | a request bound to another plan, or collected, is refused without a write |
| Orchestrations.OnePlanPerRequest | experiments/local_agent_dispatch/orchestration_store.py:485-621 | over any history, crashes included and with any hash functions, a request is bound to at most one plan digest for ever |
| Orchestrations.CollectedForever | experiments/local_agent_dispatch/gc.py:249-299 | once a manifest is unlinked no later create for its request succeeds or writes |
| GarbageCollection.RemovableRunsFollowTheirBatches | experiments/local_agent_dispatch/gc.py:103-238 | a run marked for removal is finished, its batch was readable, and every batch seen to list it goes first |
| GarbageCollection.Selection.Classify | experiments/local_agent_dispatch/gc.py:108-151 | splits manifests into candidates and protected batches exactly by age and member state |
| GarbageCollection.Selection.CleanBatches | experiments/local_agent_dispatch/gc.py:181-206 | drops exactly the candidates with an edit worktree that cannot be cleaned, and none in a dry run |
| GarbageCollection.Selection.MarkRuns | experiments/local_agent_dispatch/gc.py:152-226 | marks exactly the finished aged runs nothing holds back |
| GarbageCollection.Selection.SpareBatches | experiments/local_agent_dispatch/gc.py:227-242 | spares exactly the batches with a member that stays, and all their members |
| GarbageCollection.Selection.Select | experiments/local_agent_dispatch/gc.py:103-242 | the loops in their order compute exactly the specified selection, for a pass and for a dry run |
| GarbageCollection.DryRunCoversPass | experiments/local_agent_dispatch/gc.py:181-245 | a dry run announces every batch and run that the pass itself would remove |
| CollectionAges.SelectedIsOld | experiments/local_agent_dispatch/gc.py:103-242 | no run and no manifest less than the age limit old, no run that is not over, and no batch with a readable member that is not, is ever selected |
| CollectionAges.UnlistedRunGoesExactlyWhen | experiments/local_agent_dispatch/gc.py:152-226 | a run no manifest lists is removed exactly when it is over, old enough, not of an unreadable batch, and no edit with a stuck worktree |
| CollectionAges.ExclusiveBatchGoesExactlyWhen | experiments/local_agent_dispatch/gc.py:108-242 | a batch whose runs no other lists is selected exactly when its manifest is old enough, its readable members qualify and its worktrees were cleaned, and its runs go with it |
| CollectionAges.RecheckPassesExactlyWhen | experiments/local_agent_dispatch/gc.py:249-295 | the re-check under the locks, on request, plan, ages, member statuses and the tombstone's own fields |
| CollectionAges.UnlinkedManifestsAreOld | experiments/local_agent_dispatch/gc.py:249-299 | over any interleaving a manifest is at least the age limit old when it is unlinked |
| CollectionAges.DeletedRunsWereReadAsOld | experiments/local_agent_dispatch/gc.py:152-360 | and a deleted run was over and at least that old when it was read |
| CollectionAges.DeletedRunsAreOldUnlessRewritten | experiments/local_agent_dispatch/gc.py:314-360 | without a clash it is the very record that was read, and as old, unless it was written since; even then it ended the same way |
| CollectionAges.RewrittenRunsAreDeletedYoung | experiments/local_agent_dispatch/gc.py:314-360 | steps by which a run reported again after it was read is about to be deleted though younger than the limit |
| BatchProtocol.StepKeepsInv | experiments/local_agent_dispatch/gc.py:243-313 | without a clash, every step of starts, cancels, runs and collectors keeps what each collector remembers true |
| BatchProtocol.DoomedIsSafe | experiments/local_agent_dispatch/gc.py:314-360 | without a clash, a run still marked in the deletion loop is finished and its batch was collected |
| BatchProtocol.DoomedIsUnlisted | experiments/local_agent_dispatch/gc.py:314-360 | and no manifest lists it, not even one whose batch never got its tombstone, unless plans share a run id |
| BatchProtocol.CollectorDeletesOnlyFinishedRuns | experiments/local_agent_dispatch/gc.py:314-360 | without a clash, over every interleaving with starts, runs of no batch, cancellations, crashes and other collectors, a collector deletes only finished runs |
| BatchProtocol.CollectorDeletesOnlyUnlistedRuns | experiments/local_agent_dispatch/gc.py:314-360 | and only runs that no manifest on disk lists, if moreover no two plans share a run id and their tombstones' file |
| BatchProtocol.CollectorUnlinksOnlyFinishedBatches | experiments/local_agent_dispatch/gc.py:249-299 | without a clash, over every interleaving a manifest is unlinked only with its tombstone on disk and its readable members finished |
| BatchCollisions.ClashLosesALiveRun | experiments/local_agent_dispatch/gc.py:243-360 | for any clash a schedule of complete starts and collector passes ends with a collector about to delete a run that is both unfinished and listed |
| BatchCollisions.ShadowLosesAListedRun | experiments/local_agent_dispatch/orchestration_store.py:440-483 | plans that share a run id and their tombstones' file: a schedule ends with a collector about to delete a run that the first one's manifest lists |
| BatchCollisions.CollectionIsSafeExactlyWhen | experiments/local_agent_dispatch/gc.py:243-360 | a schedule that deletes an unfinished run exists exactly when plans clash with each other or with drawn ids, and one that deletes a listed run exactly then or when two plans share a run id and their tombstones' file |
| BatchCollisions.StoreCollectionIsSafeExactlyWhen | experiments/local_agent_dispatch/orchestration_store.py:88-106 | both equivalences for the plans the planner can construct, the ids the store derives from them, and any ids drawn for other runs |
| BatchProtocol.EnrolledApart | experiments/local_agent_dispatch/orchestration_store.py:88-106 | without a clash no two batches with tombstones share an orchestration id or a member's run id |
| Allocation.Allocator.SelectBackend | experiments/local_agent_dispatch/orchestration.py:46-91 | takes the least loaded eligible backend, first in registry order, and fails exactly when none is eligible, saying which of not installed, over the limit, not isolating or nothing left it was |
| Allocation.Allocator.PlanBatch | experiments/local_agent_dispatch/orchestration.py:124-149 | allocates members in order, and succeeds exactly when a plan exists: the one balanced allocation, in which every member is isolated, strict or consents to run unconfined; otherwise it fails at the first member with no eligible backend or with an unpermitted best one |
| Allocation.AllocationsHonourNeeds | experiments/local_agent_dispatch/orchestration.py:46-91 | every member gets a ready backend, the one it asked for if it did, isolating if it is strict, supporting its mode, and none is used more than twice |
| Allocation.PlansAreGreedyChoices | experiments/local_agent_dispatch/orchestration.py:46-149 | a plan is exactly one choice after the other: of the ready backends that suit the member and are used less than twice so far, the one used least, then the first registered, which must isolate unless the member consented |
| Allocation.LoadsCountUses | experiments/local_agent_dispatch/orchestration.py:85-86 | the counters are the numbers of uses |
| Allocation.AllocationIsUnique | experiments/local_agent_dispatch/orchestration.py:58-61 | the plan is determined by its request and the registry |
| Allocation.AlikeMembersFit | experiments/local_agent_dispatch/orchestration.py:46-91 | for identical `auto` members loads differ by at most one, and there is no room exactly at two per capable backend |
| Allocation.AlikeMembersSucceedIff | experiments/local_agent_dispatch/orchestration.py:131-139 | they are allocated exactly when there are at most two per capable backend |
| Allocation.AlikeMembersPlannedIff | experiments/local_agent_dispatch/orchestration.py:131-149 | and planned exactly when, besides, the first capable backends in registry order, as many as members, are all isolated, or the members are strict or consent to run unconfined |
| Allocation.AlikeMembersLoseNothing | experiments/local_agent_dispatch/orchestration.py:58-61 | identical `auto` members are allocated exactly when any assignment of at most two per capable backend exists |
| Allocation.OrderCanLose | experiments/local_agent_dispatch/orchestration.py:58-91 | members whose order makes the planner fail although they could be assigned |
| ResultValues.Normalise | experiments/local_agent_dispatch/result_envelope.py:134-207 | the recursive walk with its loops computes the specified normalisation |
| ResultValues.NormalisesExactly | experiments/local_agent_dispatch/result_envelope.py:134-207 | a value becomes a given plain tree exactly when it unfolds to it up to tuples, nothing in it is flagged, only empty values are under credential names, and it is within the depth limit |
| ResultValues.AcceptedExactlyWhen | experiments/local_agent_dispatch/result_envelope.py:134-207 | node by node: a value that unfolds to a tree is accepted exactly when nothing lies more than sixteen containers down, no text or name in it is flagged, and what it has under credential names is empty |
| ResultValues.NormalisingTwiceChangesNothing | experiments/local_agent_dispatch/result_envelope.py:134-207 | normalising a result again returns it |
| ResultValues.CyclicValuesAreRefused | experiments/local_agent_dispatch/result_envelope.py:166-206 | a value from which any cycle of lists, tuples and dictionaries can be reached is refused |
| Capture.Take | experiments/local_agent_dispatch/bounded_process.py:208-229 | one read is appended whole, or cut at the limit |
| Capture.CaptureOutput | experiments/local_agent_dispatch/bounded_process.py:193-232 | the loop stops in the one round and after the one read it has to, cancelled, timed out, cut or complete, with exactly what was read before; both captures are prefixes of their streams, together at most the limit, complete unless cut, and cut exactly when more than the limit was read |
| Capture.CaptureIsUnique | experiments/local_agent_dispatch/bounded_process.py:193-232 | rounds and limit determine where a capture stops and what it holds |
| Capture.CutExactlyWhenTooMuch | experiments/local_agent_dispatch/bounded_process.py:208-232 | a child that nobody cancels and that closes both streams in time is cut exactly when it delivered more than the limit, and captured completely otherwise |
| Capture.ExactFitIsNotCut | experiments/local_agent_dispatch/bounded_process.py:219-227 | a child whose whole output is exactly the limit is captured completely and not reported as cut |
| AuditChain.ComputeChainHead | src/dyro/audit_remote.py:230-239 | the loop folds the first `limit` events into the chain head |
| AuditChain.ExtendSplits | src/dyro/audit_remote.py:133-142 | replaying a suffix from its prefix's head is replaying the whole log |
| AuditChain.HeadsIdentifyHistories | src/dyro/audit_remote.py:133-142 | equally long histories with one head are the same history |
| AuditChain.ValidateLocalHistory | src/dyro/audit_remote.py:242-251 | accepts exactly logs that reach the head at the sequence, and tells rollback from fork |
| AuditChain.OnlyExtensionsAgree | src/dyro/audit_remote.py:230-251 | a log is accepted exactly when it extends the confirmed events |
| AuditChain.EditsAreRefused | src/dyro/audit_remote.py:242-251 | changing one confirmed event is detected whatever follows |
| AuditChain.ValidateAuditBatch | src/dyro/audit_remote.py:145-227 | accepts exactly well-addressed batches that continue the checkpoint, and yields their end |
| AuditChain.BuildBatch | src/dyro/audit_remote.py:254-316 | builds from exactly the logs that agree with the checkpoint |
| AuditChain.BuiltBatchesAreAccepted | src/dyro/audit_remote.py:254-316 | what the producer builds the verifier accepts, reaching the whole log and its head |
| AuditChain.AcceptedBatchesExtend | src/dyro/audit_remote.py:145-227 | a verifier at a true checkpoint accepts only extensions of that history |
| AuditRefusals.HistoryAgreesExactlyWhen | src/dyro/audit_remote.py:230-251 | a log agrees exactly when the links from sixty-four zeros through its first events end at the head |
| AuditRefusals.AcceptsExactlyWhen | src/dyro/audit_remote.py:145-227 | a batch is accepted exactly when it is well-formed, addressed here, starts at the checkpoint, is numbered in order, and claims the head its links end at |
| AuditRefusals.MovedBatchesAreRefused | src/dyro/audit_remote.py:145-227 | a batch accepted for one workspace, witness, sequence and head is refused for any other |
| AuditRefusals.AlteredBatchesAreRefused | src/dyro/audit_remote.py:145-227 | a batch with an event changed, dropped, added or renumbered under the same claims is refused |
| AuditClients.PersistKeepsFit | src/dyro/audit_remote.py:743-774 | persisting a batch leaves the confirmed pair alone and the batch fit to send |
| AuditClients.ConfirmKeepsFit | src/dyro/audit_remote.py:787-812 | confirming moves the pair forward along the log, and the epoch counts key changes |
| AuditClients.PendingStaysReusable | src/dyro/audit_remote.py:598-648 | a client never refuses its own pending batch under the settings that built it |
| AuditClients.AuditClient.Check | src/dyro/audit_remote.py:675-728 | the checks before any write pass exactly for matching settings, trusted state, true history and a reusable pending batch |
| AuditClients.AuditClient.Deliver | src/dyro/audit_remote.py:775-812 | confirms exactly on a trusted receipt by the asked key that repeats workspace, witness, range, head, digest, recovery key and epoch of the batch, with a trusted transition for a changed key; then the state is the batch's end, and otherwise nothing but what was sent changes |
| AuditClients.AuditClient.Sync | src/dyro/audit_remote.py:651-822 | across crashes, lost answers and dry runs the confirmed pair is a log prefix with its head, never moves back, the epoch is one plus confirmed key changes, and at most one distinct batch is sent between confirmations; a success is a trusted receipt for these settings that says the new pair, and without one only the pending batch may change |
| AuditRefusals.ReceiptConfirmsExactlyWhen | src/dyro/audit_remote.py:454-548 | a receipt confirms exactly when trusted and, field by field, the batch's |
| AuditRefusals.FirstBatch | src/dyro/audit_remote.py:651-774 | a first sync needs well-formed key names only, and sends the whole log from one in epoch 1 |
| AuditRefusals.NextSyncStartsExactlyWhen | src/dyro/audit_remote.py:675-728 | when a later sync gets past its checks, on the state's own fields |
| AuditRefusals.NextBatch | src/dyro/audit_remote.py:254-316 | and the batch it builds: the events after the checkpoint, in the epoch of its key |
| AuditRefusals.OnlyItsOwnBatchIsSentAgain | src/dyro/audit_remote.py:598-648 | a pending batch is sent again only for the settings it was made for and along the local log |
| AuditProtocol.StepKeepsInv | src/dyro/witness.py:573-658 | every step of client, witness and network keeps them in step |
| AuditProtocol.PastBatchesAreInert | src/dyro/witness.py:593-636 | a late copy of an earlier batch never moves the witness |
| AuditProtocol.EndsNeverFork | src/dyro/witness.py:573-658 | the witness's checkpoint is always a true log prefix, and the client's confirmed pair or its pending batch's end |
| AuditRefusals.WitnessTakesExactlyWhen | src/dyro/witness.py:407-514 | a witness takes a batch up exactly when it continues its checkpoint, asks for the configured key in its epoch, keeps the recovery key, and a changed key was allowed |
| AuditRefusals.FirstSyncGoesThrough | src/dyro/witness.py:573-658 | at a witness with the client's key and no checkpoint the first sync of a log that has an event, or of a client with a recovery key, records, advances, answers and confirms the whole log |
| AuditProtocol.PendingIsRefusedExactlyWhen | src/dyro/witness.py:312-636 | in any configuration a sent pending batch is refused exactly when the witness does not already stand at it and lacks the batch's key, a needed rotation, or a checkpoint for a later epoch than the first |
| AuditProtocol.StrandedForEver | src/dyro/witness.py:312-327 | a pending batch of a later epoch at a witness without a checkpoint stays pending and refused through every run |
| AuditProtocol.ConfirmableExactlyWhen | src/dyro/witness.py:573-658 | some run confirms a sent batch exactly when a checkpoint exists or it asks for the first epoch; otherwise it is refused for ever |
| AuditProtocol.RotationCanStrandAClient | src/dyro/witness.py:365-372 | for any settings without a recovery key, steps by which a client is stranded after a key rotation: in every later state the same batch is pending and refused |

## Left out

- File locking, atomic rename and link, descriptor checks, symlinks, permissions and file size limits: taken as atomic steps that succeed.
- Process spawning, signals, `ps` parsing, heartbeat threads and lifetime locks: only the soundness of their answers is assumed.
- `RunStore.save` and unreadable run files at store level: `save` is used for creation only; unreadable files appear where reclaim and collection meet them.
- Run records: creation time and panel bookkeeping other than the panel id are not modelled.
- SlotSafety: a deleted run id is not reused, and a worker draws owner tokens never drawn before; deletion is limited to finished runs, which is what the collection theorems show when no plans clash.
- Supervisors.Supervisor.Finalise: `result` texts stand for result envelopes and error texts for exception chains; other processes use the slot tables before the slots are given back, not between two releases.
- The worker's body between claim and finalisation (adapters, context projection, edit workspaces) is an arbitrary reported outcome or error.
- GarbageCollection.Selection.Select: shadows, patches, panels, logs and orphan sweeps (gc.py:324-490) are not selected here; edit-worktree clean-up is an oracle.
- BatchCollisions.CollectionIsSafeExactlyWhen: no id is drawn at random twice (run_store.py:402); what runs are created with is assumed to pass the run store's checks, which is proved for the store's own batches.
- BatchProtocol.CollectorUnlinksOnlyFinishedBatches: members whose run file cannot be read at the re-check count as missing, as in the code.
- Allocation: adapter lookup, authentication, context collection and the plan's other fields; what each backend offers does not change during one planning.
- Refusals.ContractIsAcceptedExactlyWhen: assumes that the letters of `auto` are not white space.
- `_status_projection` and result assembly: a classification of member statuses, which would add easy members.
- Manifest and tombstone byte limits, duplicate JSON keys, and non-string mapping keys.
- AuditChain.ValidateAuditBatch: timestamp and key-name syntax are predicates; field types are given by the model's types; state files with a negative sequence cannot be written by the client.
- AuditClients.AuditClient.Sync: signature verification, trust stores and receipt time windows are three yes-or-no answers; HTTP is an answer or none.
- AuditProtocol: one workspace, and batches of this client only; the witness is modelled by its durable steps on values, not as a class; rotation authority, including that a recovered transition is one the current configuration would sign, is a yes-or-no answer.
- AuditProtocol.PendingIsRefusedExactlyWhen: refusals of a batch's scope (witness name, workspace, endpoint, signer and its workspace binding, witness.py:374-405) come before these steps and are not modelled; only batches of the right scope are sent.
- `blueprint.py`, `changesets.py`, `panel.py`, `cli.py`, adapters and release scripts are not part of this model.

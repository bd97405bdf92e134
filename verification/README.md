# Verified model of the control center's durable state machines

The control center is a set of stores and the protocols on top of them. Every store update copies a snapshot, changes
the copy, checks it, writes it, and only then publishes it; updates queue up on a promise chain. The hard questions are
about what happens when ticks, dispatches, scanners, crashes and stale answers interleave on these stores. This project
models those protocols in Dafny and proves what holds over all their runs.

Each class with mutable fields is a class here, its loops are loops, and each of its methods is proved to do exactly
what a function of the old state says. What such a function must do is stated once more, field by field and as
conditions that hold in both directions, without its body: when an operation is accepted, what it changes, and that it
changes nothing else (`V2Updates`, `WorkItemEffects`, `SelfCommissioningEffects`, `PilotGrants`, `WatchdogActions`). The
theorems are about the same functions: invariants of one step, then induction over traces of any length with any
interleaving. Times are integers in milliseconds, JSON strings that act as nullable are `Option`, exceptions are `Err`
results, and a write that may fail is a boolean input.

| part | files |
|---|---|
| v2 supervisor, its job store, dashboard and history | `V2State`, `V2Supervisor`, `V2Jobs`, `V2Updates`, `V2Protocol`, `V2History` |
| work items: state machine, acceptance criteria, execution, verification, repository, sync, whole runs | `WorkStateMachine`, `Acceptance`, `Execution`, `Verification`, `WorkItemRepository`, `SyncCommutes`, `WorkItemRuns`, `WorkItemTheorems`, `WorkItemLocks`, `WorkItemEffects` |
| self-commissioning runs | `SelfCommissioning`, `SelfCommissioningRuns`, `SelfCommissioningEffects` |
| pilot cycle, its grants and the two scanners | `PilotControl`, `PilotBudget`, `PilotGrants` |
| watchdog | `Watchdog`, `WatchdogRuns`, `WatchdogActions` |
| polling runtime | `PollingRuntime` |
| remote executor | `RemoteExecution` |

`dafny verify dfyconfig.toml` checks all of it.

## Main results

- Safety and termination of the v2 supervisor under stale dispatches and crashes: `V2Protocol.MutualExclusion`,
  `BoundedAttempts`, `IdentityAndEvidence`, `LiveJobsAreHeld`, `Finality`, `StateChangesAreBounded`, `ReconcileInRuns`; a
  renewed lease holds in `V2Updates.RenewedLeaseHolds`, a tick takes a new Issue to QUEUED or BLOCKED in
  `NewIssuesEndQueuedOrBlocked`; paging in `V2History.PagesCoverTheHistory`.
- Work items over every run, whatever happens to the Issues: `SyncCommutes.SyncCommutesWithCommands`,
  `WorkItemTheorems.LogsStayInStep`, `FinishedRecordsAreFinal`, `DoneRestsOnEvidence`, `PilotsStopAtAHuman`,
  `WorkItemLocks.DroppedRunsLockTheirRepository`, `WorkItemEffects.CandidatesNeverLeadToDone`. Over runs that leave
  leased items alone, that is, no sync drops one and no human is called in for one: `NeverBoth`,
  `CompletingARunSucceeds`, `CompletingAVerificationSucceeds`; both conditions are exact by `SyncNeedsToKeepLeased` and
  `HumanRequiredNeedsNoLease`. The parser: `Acceptance.LineIsExact`, `ParseIsExact`, `RoundTrip`, `PlanIsExact`.
- Self-commissioning over whole histories: `SelfCommissioningRuns.DispatchesArePaidFor`, `CheckpointsArePrefixes`,
  `CheckpointsAreFound`; every answer of an executor exactly in `SelfCommissioningEffects.AnswersAreExact`.
- Bounded controllers: `PilotBudget.DispatchesStayWithinBudget`, `GrantsAreWriteOnce`, `GrantsWereRequested`;
  `PilotGrants.RecoveryIsGranted`, `RemediationIsGranted`; `WatchdogRuns.RepairsAreRationed`, `ActionsAreBounded`,
  `BlockedForGood`; `WatchdogActions.OpenIncidentTakes`, `CallsAreCalledFor`; `PollingRuntime.ExactlyOne`,
  `StrandedForGood`, `StartsAreSpaced`, `BackoffIsExact`, `NothingAfterStop`;
  `RemoteExecution.LocalTimeoutMeansNoEnd` with `RemoteCodexExecutor.Execute`.

Everything else in the table below is a step towards one of these, a method that is proved to do what a function says,
or the exact condition of a single decision.

## What the code does not do

Five findings, each stated as a lemma with a concrete input or an exact condition, with the code modelled as it is:

- The polling runtime does not keep every wait. One that is longer than a host timer (2^31-1 ms, 24.8 days) is over
  after one millisecond: with `WORK_ITEM_POLL_INTERVAL_MS=2147483648`, which is accepted, every successful sync is
  followed by the next one after a millisecond, and so is a rate limit with a Retry-After of a month. One that ends
  after the last time with a timestamp (8640000000000000 ms) is never scheduled: rendering its time throws before the
  timer is set, and the repository is left without a sync and without a timer, for good. A poll interval that far out
  makes a success count as a failure. The three ranges and what leads to them are exact in
  `PollingRuntime.WaitIsKeptExactly` after a failure, in `IntervalIsKeptExactly` and `SuccessCountsExactly` after a
  success, and in `ExactlyOne` and `StrandsExactly` for the waits that never end; concrete runs are
  `LongIntervalFiresAtOnce`, `LongWaitFiresAtOnce` and `EndlessWaitIsNeverRetried`.
- Closing an Issue in mid-run locks its repository. A sync lists open Issues only and replaces the stored items whatever
  is leased, so it drops the item of the run, and with it the only way to complete the run. The lease stays held and no
  execution of the repository starts, until the Issue is opened again and the definition of its item completed anew
  (`WorkItemLocks.DroppedRunsLockTheirRepository`, `EmptyListingDrops`, `AbsenceEndsByDefinition`); even then a run of a
  READY item ends only by WORKER_LOST (`CompletionIsExact`).
- "active cycle scope cannot be retargeted" is only an answer: the scanners refresh and dispatch the cycle without
  looking at it (`PilotBudget.RetargetedCycleDispatches`, `PilotBudget.RetargetExample`). The budget holds all the same.
- A run that waits for a human cannot be cancelled: its gate stays and the store refuses the result
  (`SelfCommissioningRuns.CancelNeedsNoGate`).
- A human acceptance ends a run even when later steps are left over (`SelfCommissioningRuns.DecisionKeepsInv`).

## Model

| member | source | states |
|---|---|---|
| V2State.MoveKeepsSound | src/v2/state.ts:16-29 | Along every edge the supervisor takes, a job stays sound (chained history ending in its state, retry count equal to its retry edges, leases and length bounded) and the measure (retries left, stage) strictly drops. |
| V2State.TableHasCycles | src/v2/state.ts:17 | The transition table alone allows histories of any length, so the bounds come from how the supervisor uses it. |
| V2Supervisor.V2Store.Publish | src/v2/store.ts:2 | All or nothing: the new jobs are published when every job passes the check and the write succeeds; otherwise jobs and heartbeat stay. |
| V2Supervisor.ReplaceEach | src/v2/supervisor.ts:13-14 | The in-place pass over the jobs gives the position-wise result, or fails where any position fails. |
| V2Supervisor.Supervisor.ReconcileOnce | src/v2/supervisor.ts:14 | One update of both passes, published entirely or not at all. |
| V2Supervisor.Supervisor.DiscoverOnce | src/v2/supervisor.ts:12 | The loop over a discovery batch has the effect of its Issues one after the other, in one update. |
| V2Supervisor.Supervisor.PromoteOnce | src/v2/supervisor.ts:13 | One update that promotes every discovered job, published entirely or not at all. |
| V2Supervisor.Supervisor.DispatchOnce | src/v2/supervisor.ts:15-17 | Lease, progress, finish and catch change only the job they find, and leave the heartbeat alone; what each makes of it is in V2Updates. |
| V2Supervisor.Supervisor.BeatOnce | src/v2/supervisor.ts:11 | A heartbeat moves nothing else, and it too is refused while a stored job is invalid. |
| V2Supervisor.Supervisor.Pick | src/v2/supervisor.ts:9 | With automation on, the first of the earliest discovered QUEUED jobs whose repository has no live job; none only if there is none. |
| V2Jobs.CompletesExactly | src/v2/supervisor.ts:17 | A reported success completes a job if and only if it is MERGING or DEPLOYING and the evidence, new or earlier, is complete. |
| V2Jobs.AcceptedKeepsPool | src/v2/supervisor.ts:11-17 | Every accepted update keeps all jobs sound and distinct, lets each job only evolve, and makes a job live only by a lease. |
| V2Jobs.DiscoverKeepsPool | src/v2/supervisor.ts:12 | A batch with duplicate or closed Issues creates no second job for an Issue and removes none. |
| V2Jobs.ReconcileTotal | src/v2/supervisor.ts:14 | On a sound pool reconcile never throws and is never refused; stale and retryable jobs are resolved, all others untouched. |
| V2Updates.LeaseIsExact | src/v2/supervisor.ts:15 | A lease is accepted if and only if the job is QUEUED; it sets lease and expiry and keeps every other field, and every other job. |
| V2Updates.UpdateIsExact | src/v2/supervisor.ts:16 | A progress report is accepted if and only if it repeats the state or names the next one (with a process for ACTIVE); it renews the lease and heartbeat, takes each reported field and keeps each unreported one. |
| V2Updates.RenewedLeaseHolds | src/v2/supervisor.ts:14-16 | Until the expiry that a report sets, and while the process of an ACTIVE job lives, reconcile leaves the job as it is. |
| V2Updates.FailureIsExact | src/v2/supervisor.ts:17 | A reported failure frees the job, records its text and deliveries, and is retryable if and only if the worker says so and retries are left; when it is accepted at all, also as the answer of an earlier attempt. |
| V2Updates.SuccessIsExact | src/v2/supervisor.ts:17 | A reported success is accepted if and only if the job is in its final verification with complete evidence; it frees and completes the job. |
| V2Updates.CatchIsExact | src/v2/supervisor.ts:17 | A caught failure leaves finished jobs alone and ends a live attempt, FAILED_RETRYABLE if and only if retries are left. |
| V2Updates.ReconcileIsExact | src/v2/supervisor.ts:14 | Every overdue or processless live job fails with its reason, every failure with retries left is queued again, all else stays, field by field. |
| V2Updates.DiscoveryIsExact | src/v2/supervisor.ts:12 | A batch registers exactly the open Issues that had no job, field by field, BLOCKED with the first reason that applies or DISCOVERED, and changes only the failure text of stored jobs. |
| V2Updates.PromotionIsExact | src/v2/supervisor.ts:13 | Promotion takes every DISCOVERED or ELIGIBLE job to QUEUED with its history lines and leaves the others alone. |
| V2Updates.NewIssuesEndQueuedOrBlocked | src/v2/supervisor.ts:12-13 | Discovered and promoted, a new Issue ends QUEUED if eligible and BLOCKED with the reason if not. |
| V2Protocol.MutualExclusion | src/v2/supervisor.ts:9-17 | In every interleaving of tick phases, in-flight and stale dispatches and crashes, at most one job per repository is live. |
| V2Protocol.BoundedAttempts | src/v2/supervisor.ts:12-17 | On every run history is a chain of allowed edges ending in the state, retryCount equals its retry edges, a job is leased at most retryLimit + 1 times and has at most 2 + 7 (retryLimit + 1) entries. |
| V2Protocol.IdentityAndEvidence | src/v2/supervisor.ts:12-17 | On every run ids and Issues are unique and each COMPLETED job has its PR, CI and main (and healthy deployment) evidence. |
| V2Protocol.LiveJobsAreHeld | src/v2/state.ts:22-29 | On every run a job in a live state has a lease with an expiry, an ACTIVE one a process and a heartbeat, and only a waiting job a question. |
| V2Protocol.Finality | src/v2/supervisor.ts:12-17 | Between any two moments no job disappears, identities stay, histories only grow, and a COMPLETED job keeps every field, even against a stale dispatch. |
| V2Protocol.StateChangesAreBounded | src/v2/supervisor.ts:9-17 | Every step that changes a job's state adds to a total that no run exceeds: the supervisor terminates on each set of jobs. |
| V2Protocol.SpentIsFinal | src/v2/state.ts:16-20 | A job whose measure has reached zero keeps its state and history for the rest of every run. |
| V2Protocol.ReconcileInRuns | src/v2/supervisor.ts:14 | From every reachable snapshot reconcile succeeds and leaves nothing to reconcile. |
| V2History.SortSorts | src/v2/state.ts:36 | The order is newest first and a permutation. |
| V2History.SortIsStable | src/v2/state.ts:36 | Jobs updated at the same time stay in store order. |
| V2History.PagesAreConsecutive | src/v2/state.ts:36 | Pages 1 to n together are the first n page sizes of the sorted matches. |
| V2History.PagesCoverTheHistory | src/v2/state.ts:36 | All pages together are exactly the jobs that agree with every given filter, each as often as stored, in non-increasing order. |
| V2History.PageIsLabelled | src/v2/state.ts:36 | The number and size of a page: at least the first, 25 unless asked otherwise, between 1 and 100. |
| V2History.PageFits | src/v2/state.ts:36 | A page says how many jobs match and has at most its size of them. |
| V2History.DashboardIsComplete | src/v2/state.ts:30-34 | Every job that is not COMPLETED is shown; with the completed total all jobs are accounted for; a completed job is left out only behind three newer ones. |
| V2History.DashboardCounts | src/v2/state.ts:30-34 | Queue depth and completed total are the numbers of QUEUED and COMPLETED jobs. |
| WorkStateMachine.DecisionsAreAllowed | src/domain/work-state-machine.ts:10-65 | The switch and the table agree: the second check rejects nothing the switch accepts, DONE comes only from VERIFICATION_PASSED, evidence is kept, and the next action names the holder of the ball. |
| WorkStateMachine.TransitionTable | src/domain/work-state-machine.ts:43-65 | For each event the states that accept it, and the state, next action, holder, capabilities and blocker that result. |
| Acceptance.ParseCriteria | src/domain/verification.ts:13 | The parser's loop yields what collecting the parsed lines yields, with the same rejections. |
| Acceptance.LineIsExact | src/domain/verification.ts:13 | A line is read as a criterion if and only if it has the format, whichever way the pattern divides it: id, brackets, kind with its list, gaps, and a summary that is trimmed. |
| Acceptance.SplitIsExact | src/domain/verification.ts:13 | The list of checks is read as the only parts without commas that it joins. |
| Acceptance.ParseIsExact | src/domain/verification.ts:13 | A list is accepted if and only if it is not empty, every line is read, no id repeats and every AUTO list is legal; the criteria are those of the lines in order. |
| Acceptance.RoundTrip | src/domain/verification.ts:13 | Every well-formed list of criteria is read back from its canonical rendering. |
| Acceptance.ParseSound | src/domain/verification.ts:13 | Every accepted list has one criterion per line, distinct ids, and for each AUTO entry at least one check, all legal and distinct. |
| Acceptance.PlanNeedsChecks | src/domain/verification.ts:14 | There is a plan if and only if the criteria are accepted and every check they name is available. |
| Acceptance.PlanIsExact | src/domain/verification.ts:14 | The plan runs exactly the named checks, each once, in first-use order, all available. |
| Execution.GateIsExact | src/application/execution.ts:151-245 | ELIGIBLE if and only if all conditions hold, whatever the order in which they are examined. |
| Execution.GateAnswersExactly | src/application/execution.ts:151-245 | Which refusal an ineligible request gets: rejected, already running, or waiting for a worker. |
| Execution.WaitsExactly | src/application/execution.ts:151-245 | Of a waiting request, which of the worker's conditions fails first. |
| Verification.DecisionIsExact | src/application/verification.ts:16 | When exactly each verdict is reached; PASSED means all criteria automatic and every named check passed last. |
| Verification.LastPassedIsExact | src/domain/verification.ts:15 | Of several results for one check the last decides. |
| WorkItemRepository.DurableWorkItemRepository.FindItemLocation | src/infrastructure/durable-work-item-repository.ts:1014-1024 | The nested search finds the first item with the id, or none exists. |
| WorkItemRepository.DurableWorkItemRepository.Execute | src/infrastructure/durable-work-item-repository.ts:199-600 | Each command's whole effect (item, both logs, answer), as WorkItemEffects states it, is published in one step, or an exception or failed write changes nothing. |
| WorkItemRepository.DurableWorkItemRepository.Commit | src/infrastructure/durable-work-item-repository.ts:156-178 | A sync replaces the repository's items by the batch, keeping the execution fields of the stored ones, all or nothing. |
| WorkItemRepository.DurableWorkItemRepository.Fail | src/infrastructure/durable-work-item-repository.ts:180-197 | A failed sync keeps the items and the time of the last success. |
| WorkItemEffects.CompletedRunIsExact | src/infrastructure/durable-work-item-repository.ts:309-362 | Completing an execution records exactly the answer (texts and heads where not empty), ends the lease, ABANDONED if and only if the worker was lost, and moves the item by the event; no other lease, record, item or list changes. |
| WorkItemEffects.AnswersMoveItems | src/application/execution.ts:374-388 | A RUNNING item goes on to verification after a success, waits for a lost worker, and fails otherwise, retryably if the worker said so. |
| WorkItemEffects.CandidatesNeverLeadToDone | src/infrastructure/durable-work-item-repository.ts:347-559 | On every run an execution completed with a candidate head never becomes the source of the evidence behind a DONE item. |
| WorkItemEffects.CompletedVerificationIsExact | src/infrastructure/durable-work-item-repository.ts:512-577 | Completing a verification records answer, verdict and evidence per criterion, ends the lease, ABANDONED if and only if the verdict is ERROR, and otherwise moves the item and adds its lines; nothing else changes. |
| WorkItemEffects.AcquisitionIsExact | src/infrastructure/durable-work-item-repository.ts:238-307 | An acquisition adds a held lease and an open record with the number of the attempt and starts the item if and only if the gate lets it in; otherwise nothing changes. |
| WorkItemEffects.VerificationAcquisitionIsExact | src/infrastructure/durable-work-item-repository.ts:451-510 | When a verification is acquired, and the lease and record it adds. |
| WorkItemEffects.TransitIsExact | src/infrastructure/durable-work-item-repository.ts:199-222 | A transition is accepted if and only if the item is stored and accepts the event, and changes only its execution fields. |
| WorkItemEffects.RecoveryIsExact | src/infrastructure/durable-work-item-repository.ts:363-445 | When the recovery of a verified candidate is accepted, and the lease, record, state and line it leaves. |
| WorkItemEffects.SyncIsExact | src/infrastructure/durable-work-item-repository.ts:1055-1068 | After a sync each item of the repository has every detail of the batch and the execution fields of the stored item; metadata, other repositories and logs. |
| WorkItemEffects.FailureIsExact | src/infrastructure/durable-work-item-repository.ts:180-197 | A recorded failure changes only the metadata of its repository, and not the time of the last success. |
| SyncCommutes.BuildBatch | src/application/issue-sync-service.ts:39-91 | The batch is built if and only if all Issues are acceptable and none repeats; known Issues keep id and execution fields. |
| SyncCommutes.BuiltBatchIsDisciplined | src/application/issue-sync-service.ts:39-91 | What the service builds from a listing meets the conditions under which syncs and commands commute. |
| SyncCommutes.IdsInjective | src/application/issue-sync-service.ts:52-70 | Ids derived from repository and Issue number are unambiguous. |
| SyncCommutes.SyncCommutesWithCommands | src/infrastructure/durable-work-item-repository.ts:156-178 | For every command whose item the batch keeps, sync then command and command then sync succeed together, answer alike and end in the same snapshot. |
| SyncCommutes.DroppedItemsLoseTheirRun | src/infrastructure/durable-work-item-repository.ts:309-362 | The condition is needed: once a batch drops an item, its running execution can no longer be completed. |
| SyncCommutes.DroppedItemsLoseTheirVerdict | src/infrastructure/durable-work-item-repository.ts:512-577 | Likewise a verification of a dropped item can be completed if and only if its answer leads to ERROR. |
| WorkItemRuns.CommandKeepsLogs | src/infrastructure/durable-work-item-repository.ts:238-577 | Every command keeps leases and records one to one, a lease held exactly while its record is open, verifications grounded in successful runs, and changes no finished record. |
| WorkItemRuns.CommandKeepsCoupled | src/infrastructure/durable-work-item-repository.ts:199-577 | Every command but a HUMAN_REQUIRED for a leased item keeps: a held execution lease means RUNNING, a held verification lease VERIFYING. |
| WorkItemTheorems.StepKeepsRecorded | src/infrastructure/durable-work-item-repository.ts:156-600 | Commands, syncs, recorded sync failures and failed writes, whatever is leased, all keep the logs in step and the evidence behind DONE. |
| WorkItemTheorems.StepKeepsInv | src/infrastructure/durable-work-item-repository.ts:156-600 | Steps that leave leased items alone keep on top that leases and states agree. |
| WorkItemTheorems.LogsStayInStep | src/infrastructure/durable-work-item-repository.ts:238-446 | On every run, also when a sync drops a leased item or a human is called in for one, both pairs of logs correspond, ids are unique, and at most one lease of each kind is held per item and per repository. |
| WorkItemTheorems.FinishedRecordsAreFinal | src/infrastructure/durable-work-item-repository.ts:309-577 | Between any two moments of every such run records are only added and a finished one never changes. |
| WorkItemTheorems.NeverBoth | src/infrastructure/durable-work-item-repository.ts:238-577 | On every run that leaves leased items alone no item is executed and verified at once. |
| WorkItemTheorems.CompletingARunSucceeds | src/infrastructure/durable-work-item-repository.ts:309-362 | On every run that leaves leased items alone, completing a held execution succeeds for every worker answer: no invalid transition, no missing item. |
| WorkItemTheorems.CompletingAVerificationSucceeds | src/infrastructure/durable-work-item-repository.ts:512-577 | Likewise for a held verification. |
| WorkItemTheorems.DoneRestsOnEvidence | src/infrastructure/durable-work-item-repository.ts:451-577 | On every run, also when leased items are dropped and come back, a DONE item has a PASSED verification of one of its own successful executions without candidate, with non-empty all-AUTO criteria and every named check passed last. |
| WorkItemTheorems.PilotsStopAtAHuman | src/infrastructure/durable-work-item-repository.ts:512-577 | On every run, with a candidate head, a verdict other than ERROR is about that head, a pass waits for a human, ERROR changes no item, and an item is DONE afterwards only if it was before; where leases and states agree it never is. |
| WorkItemTheorems.HumanRequiredNeedsNoLease | src/application/verification.ts:15 | HUMAN_REQUIRED keeps leases and states coupled if and only if the item has no held lease. |
| WorkItemTheorems.SyncNeedsToKeepLeased | src/infrastructure/durable-work-item-repository.ts:156-178 | A sync keeps leases and states coupled if and only if it keeps every item that has a held lease. |
| WorkItemLocks.CompletionIsExact | src/infrastructure/durable-work-item-repository.ts:309-362 | Completing a held execution succeeds if and only if its item is stored and RUNNING, or READY and the worker lost, or VERIFYING or RETRYING and the run failed. |
| WorkItemLocks.EmptyListingDrops | src/infrastructure/durable-work-item-repository.ts:156-178 | A sync that finds no open Issue is accepted whatever is leased, and drops every item of its repository. |
| WorkItemLocks.DroppedRunsLockTheirRepository | src/infrastructure/durable-work-item-repository.ts:238-362 | On every run, as long as the item of a held execution lease is missing, or back with its definition open, the lease stays held, no result completes its run, no other run is under way in its repository, and no acquisition there changes anything. |
| WorkItemLocks.AbsenceEndsByDefinition | src/infrastructure/durable-work-item-repository.ts:156-236 | No step but the completion of the returned item's definition ends that condition. |
| SelfCommissioning.Store.Publish | src/application/self-commissioning.ts:226-239 | The store's check of every run decides, together with the write, whether an update is published. |
| SelfCommissioning.Store.ReplaceWith | src/application/self-commissioning.ts:152-159 | One run is replaced, the steps and all other runs stay, or nothing changes. |
| SelfCommissioning.Store.RecoverRun | src/application/self-commissioning.ts:192-203 | A recovery is applied to the run with the id, or nothing changes. |
| SelfCommissioning.Store.DecideRun | src/application/self-commissioning.ts:215-225 | A human decision is applied to the run with the id, or nothing changes. |
| SelfCommissioning.Store.Create | src/application/self-commissioning.ts:144-151 | A run is added under an id no stored run has. |
| SelfCommissioning.Store.Open | src/application/self-commissioning.ts:98-126 | The loop over loaded runs queues exactly the interrupted ones, and opens only when every run passes the check. |
| SelfCommissioningRuns.ClaimKeepsInv | src/application/self-commissioning.ts:309-345 | A claim always finds its checkpoint and dispatches a step that is not yet completed; with the switch off it dispatches nothing. |
| SelfCommissioningRuns.FinishKeepsInv | src/application/self-commissioning.ts:366-448 | Whatever the executor answers, the invariant stays; a tick ends SUCCEEDED if and only if the last step succeeded. The whole result is in SelfCommissioningEffects.AnswersAreExact. |
| SelfCommissioningEffects.AnswersAreExact | src/application/self-commissioning.ts:366-448 | Queued again for the same step with one retry consumed if and only if it failed retryably with a retry left; waiting, blocked, failed or succeeded if and only if the answer and the budget say so, with its text; all else stays. |
| SelfCommissioningEffects.AnswersAreStored | src/domain/self-commissioning-run.ts:40-66 | From every reachable state an answer is stored if and only if it says something where it waits or blocks. |
| SelfCommissioningEffects.ClaimIsExact | src/application/self-commissioning.ts:309-345 | A claim names the actor of the step and the execution, or blocks the run while the switch is off. |
| SelfCommissioningRuns.RecoverKeepsInv | src/application/self-commissioning.ts:192-203 | A blocked run's failed checkpoint is always found, and a recovery keeps the invariant. |
| SelfCommissioningRuns.RecoverInterruptedKeepsInv | src/application/self-commissioning.ts:204-214 | So does the recovery of an interrupted run. |
| SelfCommissioningRuns.DecisionKeepsInv | src/application/self-commissioning.ts:215-225 | So does a human decision; accepting ends the run, with steps left over exactly when the gate was not at the last step. |
| SelfCommissioningRuns.CancelNeedsNoGate | src/application/self-commissioning.ts:160-181 | The result of cancelling passes the store's check if and only if the run is not waiting for a human. |
| SelfCommissioningEffects.CreationIsExact | src/application/self-commissioning.ts:247-273 | What is accepted as a new run, and how it begins. |
| SelfCommissioningEffects.RecoveryIsExact | src/application/self-commissioning.ts:192-203 | When a recovery is accepted, and that it queues the failed step at the cost of one recovery. |
| SelfCommissioningEffects.InterruptionIsExact | src/application/self-commissioning.ts:204-214 | When an interrupted run is recovered, and at what cost. |
| SelfCommissioningEffects.DecisionIsExact | src/application/self-commissioning.ts:215-225 | When a human decision is accepted, and what either answer makes of the run. |
| SelfCommissioningEffects.CancellationIsExact | src/application/self-commissioning.ts:160-181 | Cancelling leaves finished runs alone and ends any other. |
| SelfCommissioningEffects.BlockingIsExact | src/application/self-commissioning.ts:292-308 | Blocking keeps the checkpoint and gives the reason. |
| SelfCommissioningEffects.ReopeningIsExact | src/application/self-commissioning.ts:98-122 | Opening queues an interrupted run at no cost and leaves others alone. |
| SelfCommissioningEffects.CheckIsExact | src/domain/self-commissioning-run.ts:40-66 | The store accepts exactly the runs that are consistent with their status. |
| SelfCommissioningRuns.ReopenKeepsInv | src/application/self-commissioning.ts:98-122 | Reopening finds the checkpoint of every interrupted run and keeps the invariant. |
| SelfCommissioningRuns.StepKeepsInv | src/application/self-commissioning.ts:226-364 | Creations, claims, answers, lost answers, outside operations, the switch and crashes keep the invariant of all runs. |
| SelfCommissioningRuns.DispatchesArePaidFor | src/application/self-commissioning.ts:309-449 | On every history an exact balance holds, so dispatches are at most completed steps + retries + recoveries + restarts + rejections (+ 1 unless QUEUED), and both budgets stay within their limits across reopens. |
| SelfCommissioningRuns.CheckpointsArePrefixes | src/application/self-commissioning.ts:98-449 | On every history the completed steps are the first k step ids, an unfinished run stands at step k, and the copy a tick goes on with is the stored run. |
| SelfCommissioningRuns.CheckpointsAreFound | src/application/self-commissioning.ts:98-225 | From every reachable state the store reopens, and "checkpoint unavailable" is unreachable. |
| SelfCommissioningEffects.RunsAreConsistent | src/domain/self-commissioning-run.ts:40-66 | On every history actor, queue, question and reason go with the status. |
| PilotControl.DurablePilotCycleRepository.SavePilotCycle | src/infrastructure/durable-pilot-cycle-repository.ts:13-17 | A save replaces or adds one cycle, or is refused and changes nothing. |
| PilotBudget.StaleSaveIsRefused | src/infrastructure/durable-pilot-cycle-repository.ts:13 | A save over a stored cycle succeeds if and only if the cycle is valid and goes on from the stored one; a copy from before a grant never does. |
| PilotBudget.SaveFollows | src/infrastructure/durable-pilot-cycle-repository.ts:13 | Whoever saves what, every stored cycle goes on from the one before and no other is touched. |
| PilotBudget.DispatchesStayWithinBudget | src/application/pilot-control.ts:19-44 | In every interleaving of the two scanners, with everything else in between, the executions dispatched for the cycle's item stay within maxExecutionAttempts + recoveryCount + remediationCount, and no other item gets any. |
| PilotBudget.GrantsAreWriteOnce | src/infrastructure/durable-pilot-cycle-repository.ts:13 | On every history a cycle keeps its identity, its grants never go down and their dates never change. |
| PilotBudget.GrantsWereRequested | src/application/pilot-control.ts:31-40 | On every history a grant appears only when the configured request names it, a remediation only after the recovery. |
| PilotGrants.RecoveryEligibleExactly | src/application/pilot-control.ts:39 | When exactly a recovery is granted. |
| PilotGrants.RemediationEligibleExactly | src/application/pilot-control.ts:40 | When exactly a remediation is granted. |
| PilotGrants.RecoveryIsGranted | src/application/pilot-control.ts:31-36 | An undisturbed scan with a requested and eligible recovery saves exactly one grant and sends RETRY_STARTED: its item is RETRYING. |
| PilotGrants.RemediationIsGranted | src/application/pilot-control.ts:37 | Likewise a remediation. |
| PilotGrants.NothingElseIsGranted | src/application/pilot-control.ts:31-37 | A scan comes to save a grant only when it is eligible, and then exactly that grant. |
| PilotGrants.ConsumedRequestsRetry | src/application/pilot-control.ts:32 | A consumed request is not granted again, but sends RETRY_STARTED to an item found FAILED. |
| PilotGrants.LookUpIsExact | src/application/pilot-control.ts:19-28 | What a scan goes on with, by stored cycle, item and requests. |
| PilotGrants.CycleIsBegun | src/application/pilot-control.ts:28 | The first scan of a startable item completes its definition and saves a new armed cycle. |
| PilotGrants.RefreshIsExact | src/application/pilot-control.ts:44 | A refreshed cycle has the status, counts and heads of its item and logs, and keeps identity and grants. |
| PilotGrants.DispatchIsDecidedExactly | src/application/pilot-control.ts:42 | When exactly the execution scanner goes on to a dispatch. |
| PilotGrants.DispatchIsExact | src/infrastructure/durable-work-item-repository.ts:238-307 | What a dispatch adds, or that it changes nothing. |
| PilotGrants.CycleCheckIsExact | src/infrastructure/durable-pilot-cycle-repository.ts:17 | Which cycles the store accepts at all. |
| PilotBudget.RetargetedCycleDispatches | src/composition.ts:30 | When exactly a scan comes to dispatch a cycle whose scope was changed: as if it had not been. |
| PilotBudget.RetargetExample | src/application/pilot-control.ts:23 | A concrete armed cycle of another scope that is dispatched. |
| Watchdog.SelfCommissioningWatchdog.RunOnce | src/application/self-commissioning-watchdog.ts:77-110 | A round's calls, answer and new snapshot are those of the escalation levels in order, also when a call throws midway; WatchdogActions states which they are. |
| Watchdog.SelfCommissioningWatchdog.PostReport | src/application/self-commissioning-watchdog.ts:112 | The report is posted once and blocks the incident in the same update. |
| Watchdog.RecoverableRun | src/application/self-commissioning-watchdog.ts:115 | A recoverable run is found if there is one, and it is the one updated last. |
| WatchdogActions.FirstOfTheLatest | src/application/self-commissioning-watchdog.ts:115 | Of several runs updated last the first is recovered. |
| WatchdogActions.ClassificationIsExact | src/application/self-commissioning-watchdog.ts:50-73 | When exactly each failure is seen, the first cause that applies. |
| WatchdogActions.NormalStateIsExact | src/application/self-commissioning-watchdog.ts:68-72 | Which normal state it is. |
| WatchdogActions.NormalRoundIsExact | src/application/self-commissioning-watchdog.ts:80-82 | A normal round only records its decision; an unwritten note does nothing. |
| WatchdogActions.FailingRoundIsExact | src/application/self-commissioning-watchdog.ts:82-84 | What identifies the incident of a failure, how it is noted, and that a closed one causes nothing. |
| WatchdogActions.OpenIncidentTakes | src/application/self-commissioning-watchdog.ts:84-113 | On an open incident exactly the restart, recovery, repair and report that are due are called, in this order, each level only if the one before did not settle it; counters, lines, attempts and deliveries afterwards; no other incident changes. |
| WatchdogActions.FreshFailuresAreRestarted | src/application/self-commissioning-watchdog.ts:84-86 | The first round on a service, watcher or restore failure restarts, the watcher if and only if that is down. |
| WatchdogActions.CallsAreCalledFor | src/application/self-commissioning-watchdog.ts:84-112 | Over every history each call, recorded or not, is one its failure calls for: restarts with their service, recoveries of the run and revision that identify the incident, repairs only of code. |
| WatchdogRuns.RecentIsSuffix | src/application/self-commissioning-watchdog.ts:99 | The attempts of the last day are the last ones of an ascending list, all others are a day old. |
| WatchdogRuns.AttemptKeepsWindow | src/application/self-commissioning-watchdog.ts:99-103 | An attempt that passes both checks keeps all distances, whatever is pruned before and, at a later reading, after them. |
| WatchdogRuns.RepairsAreRationed | src/application/self-commissioning-watchdog.ts:98-105 | Over every history, with separate clock readings for each check: recorded repair attempts are at least 30 minutes apart less what the later one's round took up to its cooldown check, and any four span at least 24 hours less what the last one's round took up to its window check. |
| WatchdogRuns.RepairsAreRationedWithin | src/application/self-commissioning-watchdog.ts:98-105 | If every round reaches its checks within d, the distances are at least 30 minutes and 24 hours less d; one reading per round gives d = 0. |
| WatchdogRuns.ActionsAreBounded | src/application/self-commissioning-watchdog.ts:77-113 | Per incident the recorded restarts have the keys 1, 2, 3 in order and no more, and there is at most one formal recovery, one repair and one report. |
| WatchdogRuns.BlockedForGood | src/application/self-commissioning-watchdog.ts:83 | After its report no later call, recorded or not, concerns the incident. |
| WatchdogRuns.NormalExactly | src/application/self-commissioning-watchdog.ts:50-73 | A normal classification if and only if everything is up and current and no run is lost, stale or long blocked. |
| WatchdogRuns.ActorsAreNeverLost | src/domain/self-commissioning-run.ts:40-66 | Runs that pass the store's check are never classified as having lost their actor. |
| PollingRuntime.IssuePollingRuntime.Start | src/application/issue-polling-runtime.ts:43-48 | Starts every repository once, or refuses and changes nothing. |
| PollingRuntime.IssuePollingRuntime.BeginPoll | src/application/issue-polling-runtime.ts:66-75 | Marks the sync as in flight and the timer as gone, unless stopped or already in flight. |
| PollingRuntime.IssuePollingRuntime.Schedule | src/application/issue-polling-runtime.ts:105-109 | Arms the next poll and says when, or throws with nothing armed where that time has no timestamp. |
| PollingRuntime.IssuePollingRuntime.Succeeded | src/application/issue-polling-runtime.ts:77-92 | Clears the failures and arms the next poll; where that throws, the success is counted as a failure of unknown kind after all. |
| PollingRuntime.IssuePollingRuntime.Failed | src/application/issue-polling-runtime.ts:85-103 | Counts the failure and arms the next poll after its delay; where that throws, the sync is over with nothing armed. |
| PollingRuntime.IssuePollingRuntime.RequestStop | src/application/issue-polling-runtime.ts:50-57 | The loop clears every timer and touches nothing else. |
| PollingRuntime.ExactlyOne | src/application/issue-polling-runtime.ts:43-110 | On every run a repository of an active runtime never has both a sync in flight and an armed timer, and has exactly one of them if and only if every end of a sync so far left its next attempt a timestamp. |
| PollingRuntime.StrandsExactly | src/application/issue-polling-runtime.ts:77-109 | Which ends of a sync do not, by poll interval, hints and clock. |
| PollingRuntime.StrandedForGood | src/application/issue-polling-runtime.ts:66-109 | A repository once left without both is never polled again, whatever happens to the runtime. |
| PollingRuntime.EndlessWaitIsNeverRetried | src/application/issue-polling-runtime.ts:97-109 | A run in which a rate limit with a Retry-After of 10^13 seconds strands a repository, and all its continuations. |
| PollingRuntime.SuccessCountsExactly | src/application/issue-polling-runtime.ts:77-92 | On every run a success counts as one if and only if the time of its next poll has a timestamp; otherwise it is a first failure, retried after 30 s if at all; the timer is set for the next attempt, or for one millisecond when the wait is longer than a host timer. |
| PollingRuntime.IntervalIsKeptExactly | src/application/issue-polling-runtime.ts:17-23 | For every accepted interval: after a success whose next poll has a timestamp it comes at least 10 s later if and only if the interval fits a host timer, and after one millisecond if and only if it does not; it never comes if and only if the first back-off has no timestamp either. |
| PollingRuntime.LongIntervalFiresAtOnce | src/application/issue-polling-runtime.ts:77-82 | For every interval beyond a host timer, such as 2147483648 ms, a run in which the sync after a successful one starts a millisecond later. |
| PollingRuntime.WaitIsKeptExactly | src/application/issue-polling-runtime.ts:95-109 | The three ranges of a wait after a failure: kept for at least 10 s, over after one millisecond, or never armed, each if and only if the delay fits a host timer and the calendar or not, in terms of interval, hints and clock. |
| PollingRuntime.StartsAreSpaced | src/application/issue-polling-runtime.ts:66-109 | On every run whose waits fit, two starts for one repository are at least 10 s apart, and none happens while shutting down. |
| PollingRuntime.LongWaitFiresAtOnce | src/application/issue-polling-runtime.ts:25-29 | A run in which a wait of a month is over after one millisecond. |
| PollingRuntime.BackoffIsExact | src/application/issue-polling-runtime.ts:95-109 | On every run the transient delays are 30, 60, 120, 240, 480 and then 900 s by the failures since the last success, authentication failures wait at least 15 minutes and block, hinted rate limits as long as both hints say; the next attempt and the timer follow from it in each of the three ranges. |
| PollingRuntime.NothingAfterStop | src/application/issue-polling-runtime.ts:50-60 | From the request to stop on no sync starts and no timer is armed; once stopped nothing is in flight, for good. |
| RemoteExecution.RemoteCodexExecutor.Execute | src/infrastructure/remote-execution.ts:16 | Ends within timeout and grace plus five times the longest request, so exactly within timeout and grace when only sleeping moves the clock; keeps the rules and waits of a dialogue; the result is what the last exchange decides. |
| RemoteExecution.RemoteCodexExecutor.Abandon | src/infrastructure/remote-execution.ts:16 | The cancel, the grace and the last status. |
| RemoteExecution.RemoteCodexExecutor.Conclude | src/infrastructure/remote-execution.ts:16 | The part after the deadline: a boundary status, and only if that is still active the cancel and what follows. |
| RemoteExecution.AtMostOneCancel | src/infrastructure/remote-execution.ts:16 | One cancel at most, and only after a status at or past the deadline said the execution was still active. |
| RemoteExecution.LocalTimeoutMeansNoEnd | src/infrastructure/remote-execution.ts:16-17 | A timeout is made up only if no exchange reported an end; if any did, the result is that report. |
| RemoteExecution.RetryableExactly | src/infrastructure/remote-execution.ts:18-19 | Which reported statuses are retryable; an unknown status is a failure that is not. |
| RemoteExecution.ResultIsExact | src/infrastructure/remote-execution.ts:18-19 | Each reported status, text and head as it results; empty ones are left out. |
| RemoteExecution.LocalTimeoutIsExact | src/infrastructure/remote-execution.ts:16 | What a made-up timeout says. |
| RemoteExecution.AsksWhileActive | src/infrastructure/remote-execution.ts:16-17 | The controller asks on exactly while the worker says QUEUED or RUNNING. |

## Left out

- V2Protocol.MutualExclusion: says nothing about lease ownership; an update never compares lease ids, so a stale dispatch may move a newer attempt of the same job.
- WorkItemTheorems.StepKeepsRecorded: assumes what production sends: fresh ids, events that follow from results, planned criteria, batches as the sync service builds them.
- WorkItemTheorems.StepKeepsInv: assumes on top that no sync drops a leased item and no HUMAN_REQUIRED hits one; without either, leases and states no longer agree (SyncNeedsToKeepLeased, HumanRequiredNeedsNoLease).
- SyncCommutes.SyncCommutesWithCommands: for one sync in flight per repository, provider "github", repository names without a colon.
- SelfCommissioningRuns.DispatchesArePaidFor: no cancel, recovery or block lands between a tick's claim and its finish, which would be overwritten; a run is blocked only while QUEUED; reading and claiming a run is one step.
- WatchdogRuns.RepairsAreRationed: one round at a time, and one clock reading for all elements of a filter; a call that threw before it was recorded is not counted.
- PilotBudget.DispatchesStayWithinBudget: executions that a candidate recovery records are not dispatches; one execution scanner per process.
- RemoteExecution.RemoteCodexExecutor.Execute: the poll interval is positive, and the clock moves only by sleeping and by requests, each no longer than a given time.
- PollingRuntime.ExactlyOne: the clock itself shows times that have a timestamp, a Retry-After is a whole number of seconds, and a sync's end is one step with one clock reading.
- RUNNING does not imply a held lease: VERIFICATION_FAILED returns an item to RUNNING without one.
- The re-validation that transitionExecutionState makes of the one item it changed; schema migrations, JSON, fsync, file modes: a committed snapshot reopens as itself.
- Hashes (execution ids, failure revisions, incident and scope fingerprints) are tuples of what is hashed, so collisions do not exist; redaction, eligibility regexes, label and scope matching are given as booleans or as already redacted text.
- Several clock readings inside one store closure are one reading; processStartedAt, workspace and profile ids and display-only dashboard fields are omitted.
- The v2 deployment path is any sequence of progress updates and results; what GitHub, workers and processes answer is arbitrary input.
- The wiring of ExecutionService and VerificationService, the verification gate, extractAcceptanceCriteria, and the remote verification executor's fixed 360 polls: they add easier members of the same kinds.
- HTTP servers, `gh`, git and systemd calls, process spawning, file watching, front ends, telemetry, the commission inbox, maintenance stores, the evidence outbox, repair and manifest managers, the worker agent and the production composition with its fixed ids.

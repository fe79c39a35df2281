# A Dafny model of the creator platform's protocols and editor

The platform turns ideas into videos with a pipeline of workers, lets users
upload media into budgeted workspaces, and lets them edit timelines whose
assets a retention sweep may retire.  This project models the parts of it in
which several processes race over the same rows, and the timeline algebra of
its editor, and proves what they promise.  `dafny verify dfyconfig.toml` checks
all of it.

Every protocol has the same three layers:

* what each storage operation does to the tables, as a function on values
  (`TaskRows`, `TaskTracking`, `UploadIntents`, `RetentionTables`);
* the storage classes and the services, whose methods update their fields in
  place and are proved to do exactly that (`TaskStorage`, `TaskRunner`,
  `DispatchReconciler`, `BrokerRecoveryPass`, `DispatchCas`, `UploadProcesses`,
  the classes of `RetentionTables`, `RetentionPaging`, `EditorHistory`);
* the system as a machine whose steps are those operations, taken by any number
  of processes in any order, with crashes and failing external calls, and the
  theorems about all of its runs (`TaskTheorems`, `BrokerRecovery`,
  `UploadMachine`, `UploadTheorems`, `UploadAccounting`, `RetentionMachine`,
  `RetentionTheorems`, `GpuLock`).

Each storage operation is one atomic step, as the source makes it with a lock,
a single statement or an advisory lock.  Where the worker, the reconciler, the
broker recovery, a dispatch, an upload, a sweep or a finalization awaits between
two operations, its model lets the other processes act: a parameter says what
they did, and the contract holds for every such parameter.  Times, tokens,
listings, and how an external call ends are parameters too; a call that writes
may also raise after it has committed.

**Tasks** (`RunStorage`, `TaskRows`, `TaskTracking`, `TaskTheorems`,
`TaskStorage`, `TaskRunner`). Deliveries are at least once; a row runs under a
claim token and is cleaned up under a lease. Claims and leases are fenced over
whole runs, success is absorbing, a compensation once owed is kept until it is
discharged once, and a retry is never clobbered by the cleanup of an older task.

**Reconciliation, broker recovery and dispatch** (`DispatchReconciler`,
`ReconcileSchedule`, `ReconcileOutcome`, `RunRollbacks`, `BrokerRecovery`,
`BrokerRecoveryPass`, `BrokerRecoveryRefinement`, `BrokerRecoveryOutcome`,
`DispatchCas`). A pass leaves no row leased under its tokens however its
external calls fail, and discharges a task only after its rollback and its
cancel. Serialized recovery spares the present generation of a broker that may
be replaced at any moment; that overlapping passes do not is shown by an
example. The recovery call is proved to be a run of the machine, and which runs
it fails is told exactly. A dispatch gives back what it knows it has taken,
once.

**Uploads** (`UploadIntents`, `UploadMachine`, `UploadTheorems`, `UploadLeases`,
`UploadAccounting`, `UploadProcesses`). Uploaders, sweepers and retention race
over the same object keys: saved objects survive, uploads within their lease are
spared, lapsed intents yield nothing, an object is lost from view by exactly one
kind of step, and the budgets hold.

**Retention, timelines and approvals** (`RetentionTables`, `RetentionMachine`,
`RetentionTheorems`, `RetentionPaging`, `RetentionSweep`). No saved timeline and
no approval ever dangles, deletion is fenced through crashes and takeovers, a
revision is written once, an approval keeps mapping what it approved, and the
paged scan finds what one filter over the sorted table would.

**Editor** (`EditorTimeline`, `EditorCommands`, `EditorEffects`,
`EditorSources`, `EditorContiguity`, `EditorHistory`, `EditorPacing`,
`EditorPacingTheorems`). Source bounds are inductive over commands, batches,
undo and redo; the rippling commands keep a timeline contiguous; history is a
list with a cursor; a pacing proposal applies to the timeline it was built from.

**GPU lock** (`GpuLock`). Two context uses that end normally never overlap, and
the wait for the lock is bounded.

`Options`, `Traces` and `Sums` hold what several of these share.

## Where the code keeps less than its documentation

* Splitting a segment without an explicit trim start makes the right half start
  its source over (`EditorSources.SplitKeepsEveryFrameIff`).
* A pacing proposal can be refused by the applier when segments overlap by the
  tolerated nanosecond and one becomes shorter than that overlap; the exact
  condition is `EditorPacingTheorems.ProposalAcceptedIff`.
* A sweep that failed to delete makes the next one take the upload for ended.  An
  object is lost from view exactly when that next sweep records its delete while
  the object is there again or may still appear (`UploadTheorems.ForgottenIff`,
  with a run in `UploadTheorems.FailedSweepThenLateUploadLeaks`).
* A stage update that commits and then raises is taken for a failed one: the
  quota is given back but the run stays at the target stage
  (`DispatchCas.LostAnswerStrandsTheRun`; exactly when a run is left there is
  `DispatchCas.StrandedIff`).  A reservation whose answer is lost stays in the
  ledger (`DispatchCas.LedgerSettledIff`).
* In memory, an asset whose object cannot be deleted stays claimed for good, as
  these claims have no lease (`RetentionSweep.FailedDeleteKeepsTheClaim` and
  `ClaimedForGood`).
* The unguarded status update can overwrite an owed compensation
  (`TaskRows.ObligationSurvivesIff`); the recovery of a lost broker uses it.
* Phase two of the reconciler does not look at what finalization returned: a
  refused finalization is not followed by a release
  (`DispatchReconciler.Settled`).

## Model

| member | source | states |
|---|---|---|
| `RunStorage.Storage.ConditionalUpdateRun` | packages/creator-service/creator_service/postgres_run_storage.py:106-149 | the run changes exactly when its stage is expected, its status is not rejected and the workspace matches; the answer says which, and the row read back is the visible one |
| `RunStorage.StageCasIsExclusive` | packages/creator-service/creator_service/postgres_run_storage.py:127-149 | of two updates that expect a stage which the first one removes, only the first is accepted, and the version goes up by one |
| `RunStorage.UpdatedColumns` | packages/creator-service/creator_service/postgres_run_storage.py:106-149 | which columns an accepted update assigns, when it is accepted, and that no other run changes |
| `TaskRows.EffectKeepsRowOk` | packages/creator-service/creator_service/memory_task_tracking_storage.py:348-403 | every guarded change keeps a leased row failed, with token, lease time and original marker |
| `TaskRows.ClaimEntry` | packages/creator-service/creator_service/memory_task_tracking_storage.py:47-99 | a row comes under a claim only by the start that installs that claim, and only when it was not running |
| `TaskRows.LeaseEntry` | packages/creator-service/creator_service/memory_task_tracking_storage.py:348-372 | a row comes under a cleanup lease only by the claim that draws that token |
| `TaskRows.ObligationSurvivesIff` | packages/creator-service/creator_service/memory_task_tracking_storage.py:374-403 | an owed compensation survives a step exactly unless the lease holder finishes it or the unguarded status update overwrites it |
| `TaskRows.OwedRowCannotStart` | packages/creator-service/creator_service/memory_task_tracking_storage.py:246-262 | neither start gets past an owed compensation |
| `TaskRows.SuccessIsFinal` | packages/creator-service/creator_service/memory_task_tracking_storage.py:101-122 | no change applies to a successful row |
| `TaskRows.ReleaseUndoesLease` | packages/creator-service/creator_service/memory_task_tracking_storage.py:386-403 | releasing a lease puts back the marker the row had when it was leased |
| `TaskRows.StartsIff` | packages/creator-service/creator_service/memory_task_tracking_storage.py:246-273 | exactly which rows a claim starts, and what it leaves of them |
| `TaskRows.LeasesIff` | packages/creator-service/creator_service/memory_task_tracking_storage.py:348-372 | exactly which rows are leased for cleanup, and where the marker goes |
| `TaskRows.GivesBackIff` | packages/creator-service/creator_service/memory_task_tracking_storage.py:386-403 | exactly which leases are given back, and that the marker returns |
| `TaskRows.RecreatesIff` | packages/creator-service/creator_service/memory_task_tracking_storage.py:47-99 | exactly which existing rows a new dispatch is refused for |
| `TaskRows.FailsActiveIff` | packages/creator-service/creator_service/memory_task_tracking_storage.py:157-173 | exactly which rows are failed for a lost broker, and that they lose their claim |
| `TaskRows.StatusSetExactly` | packages/creator-service/creator_service/memory_task_tracking_storage.py:101-155 | what the status updates write, and which rows refuse them |
| `TaskStorage.InMemoryTaskTrackingStorage.CreateTask` | packages/creator-service/creator_service/memory_task_tracking_storage.py:47-99 | a fresh row, or the re-creation of an idle one; refused for running, successful and blocked rows |
| `TaskStorage.InMemoryTaskTrackingStorage.TransitionRunAndCreatePending` | packages/creator-service/creator_service/memory_task_tracking_storage.py:24-45 | run and row change together or not at all; a refused row puts the run back |
| `TaskStorage.InMemoryTaskTrackingStorage.UpdateTaskStatus` | packages/creator-service/creator_service/memory_task_tracking_storage.py:101-122 | the status update that only success and a repeated start refuse |
| `TaskStorage.InMemoryTaskTrackingStorage.UpdateTaskStatusIfRunning` | packages/creator-service/creator_service/memory_task_tracking_storage.py:124-143 | the update that needs a running row |
| `TaskStorage.InMemoryTaskTrackingStorage.UpdateTaskStatusIfPending` | packages/creator-service/creator_service/memory_task_tracking_storage.py:145-155 | the update that needs a pending row |
| `TaskStorage.InMemoryTaskTrackingStorage.UpdateTaskStatusIfActive` | packages/creator-service/creator_service/memory_task_tracking_storage.py:157-173 | the update that needs an active row and takes its claim away |
| `TaskStorage.InMemoryTaskTrackingStorage.FinishIfClaimed` | packages/creator-service/creator_service/memory_task_tracking_storage.py:175-187 | the completion that needs the token of the running claim |
| `TaskStorage.InMemoryTaskTrackingStorage.FinishClaimedRun` | packages/creator-service/creator_service/memory_task_tracking_storage.py:189-205 | row and run finish under one claim; the answer is whether the run moved |
| `TaskStorage.InMemoryTaskTrackingStorage.FailClaimedAndCancelQuota` | packages/creator-service/creator_service/memory_task_tracking_storage.py:207-244 | run, ledger and row fail in that order; a billing error leaves the row running |
| `TaskStorage.InMemoryTaskTrackingStorage.ClaimRunning` | packages/creator-service/creator_service/memory_task_tracking_storage.py:246-273 | the start that compares the expected token |
| `TaskStorage.InMemoryTaskTrackingStorage.ClaimReconciliation` | packages/creator-service/creator_service/memory_task_tracking_storage.py:348-372 | the lease on a row that owes compensation, or on one whose lease ran out |
| `TaskStorage.InMemoryTaskTrackingStorage.FinishReconciliation` | packages/creator-service/creator_service/memory_task_tracking_storage.py:374-384 | the lease holder discharges the row |
| `TaskStorage.InMemoryTaskTrackingStorage.ReleaseReconciliation` | packages/creator-service/creator_service/memory_task_tracking_storage.py:386-403 | the lease holder puts the marker back |
| `TaskStorage.InMemoryTaskTrackingStorage.RollbackRunIfTaskOwner` | packages/creator-service/creator_service/memory_task_tracking_storage.py:405-427 | the run fails only if no newer row of its type is active or successful |
| `TaskStorage.InMemoryTaskTrackingStorage.SetObservedBrokerEpoch` | packages/creator-service/creator_service/memory_task_tracking_storage.py:441-466 | the epoch compare-and-set, with the backfill of the first epoch and the backlog of the replaced ones |
| `TaskStorage.InMemoryTaskTrackingStorage.CompleteBrokerCleanup` | packages/creator-service/creator_service/memory_task_tracking_storage.py:471-481 | a generation leaves the backlog when it has no active row |
| `TaskStorage.InMemoryTaskTrackingStorage.PromotePendingToQueued` | packages/creator-service/creator_service/memory_task_tracking_storage.py:483-499 | a pending row becomes queued |
| `TaskTracking.NextKeepsStoreOk` | packages/creator-service/creator_service/memory_task_tracking_storage.py:24-427 | every step of every process keeps rows indexed by task id and leased rows well formed |
| `TaskTracking.OwnsRunIff` | packages/creator-service/creator_service/memory_task_tracking_storage.py:405-427 | whose task owns its run, with the states of newer rows that forbid it |
| `TaskTracking.EpochSetExactly` | packages/creator-service/creator_service/memory_task_tracking_storage.py:441-466 | what a compare-and-set of the epoch does to the rows, the observed epoch and the cleanup list |
| `TaskTracking.CompletedIff` | packages/creator-service/creator_service/memory_task_tracking_storage.py:471-481 | when a generation leaves the cleanup list |
| `TaskTracking.FailedClaimBills` | packages/creator-service/creator_service/memory_task_tracking_storage.py:207-244 | which ledger call each billing outcome of a failed claim makes, and that without it the row stays |
| `TaskTheorems.RowAfter` | packages/creator-service/creator_service/memory_task_tracking_storage.py:47-499 | the exact effect of any step on any existing row |
| `TaskTheorems.ClaimFenced` | packages/creator-service/creator_service/memory_task_tracking_storage.py:175-244 | over whole runs, a completion by token changes row, run or ledger only while the row has run without a gap under that token since a start installed it |
| `TaskTheorems.EpochEndsOnce` | packages/creator-service/creator_service/memory_task_tracking_storage.py:175-273 | a second completion by a token needs a second start with it |
| `TaskTheorems.SuccessAbsorbing` | packages/creator-service/creator_service/memory_task_tracking_storage.py:101-122 | a successful row never changes again, in any run |
| `TaskTheorems.LeaseFenced` | packages/creator-service/creator_service/memory_task_tracking_storage.py:348-403 | only the latest lease holder finishes or releases a row, in any run |
| `TaskTheorems.ObligationKept` | packages/creator-service/creator_service/memory_task_tracking_storage.py:348-403 | through takeovers, releases and crashes a compensation stays owed under its original marker until it is discharged or overwritten |
| `TaskTheorems.OwedRowIsParked` | packages/creator-service/creator_service/memory_task_tracking_storage.py:246-262 | a row that owes compensation is failed, remembers its marker and is started by nobody |
| `TaskTheorems.DischargedOnce` | packages/creator-service/creator_service/memory_task_tracking_storage.py:374-384 | between two discharges of a row it incurs a new obligation |
| `TaskTheorems.RetryNotClobbered` | packages/creator-service/creator_service/memory_task_tracking_storage.py:405-427 | once a retry is recorded and while its row is pending, queued, running or successful, rolling back an older task of that type changes nothing |
| `TaskTheorems.TransitionAllOrNothing` | packages/creator-service/creator_service/memory_task_tracking_storage.py:24-45 | the transition moves the stage and records the row, or changes neither table |
| `TaskRunner.StartIsExclusive` | packages/creator-service/creator_service/memory_task_tracking_storage.py:246-262 | no start of a row succeeds while it runs under a claim |
| `TaskRunner.LaterClaimFencesEarlier` | apps/worker-orchestrator/tasks/task_runner.py:193-310 | once another token runs the row, the earlier delivery's completion changes nothing, in any run |
| `TaskRunner.StartedRunsUnder` | packages/creator-service/creator_service/task_tracking_service.py:87-135 | a started row runs under the token of its delivery, new or claimed, with its earlier end erased |
| `TaskRunner.DeliveryEnds` | apps/worker-orchestrator/tasks/task_runner.py:295-320 | what the end of a delivery leaves of row and run, for a success and for a failure |
| `TaskRunner.Worker.RecordTaskStart` | packages/creator-service/creator_service/task_tracking_service.py:87-135 | a start leaves the row running under the token, or changes nothing, whatever happens between its lookup and its claim |
| `TaskRunner.Worker.StageGuard` | apps/worker-orchestrator/tasks/task_runner.py:246-266 | the work may begin exactly when the run is there, in an allowed stage and not cancelled |
| `TaskRunner.Worker.Finish` | apps/worker-orchestrator/tasks/task_runner.py:295-320 | row and run end together if the claim still holds, and nothing changes otherwise |
| `TaskRunner.Worker.RunTask` | apps/worker-orchestrator/tasks/task_runner.py:148-320 | exactly when a delivery is skipped, refused or works, whatever happens in between; it works only after a claim, a skipped one changes nothing, and a finished one ends row and run exactly if it still holds its claim |
| `DispatchReconciler.HandleLeavesNoLease` | packages/creator-service/creator_service/dispatch_reconciler.py:80-210 | however enqueue, promotion, rollback, cancel and finalization fail, and whoever interferes, handling one listed row leaves none leased under the pass's token |
| `DispatchReconciler.PhaseKeepsStanding` | packages/creator-service/creator_service/dispatch_reconciler.py:80-300 | the same for every prefix of a phase |
| `DispatchReconciler.AbandonedLeaseIsTakenOver` | packages/creator-service/creator_service/memory_task_tracking_storage.py:348-372 | a pass that dies holding a lease leaves the row leased; another takes it over exactly once the lease has run out, and finds the marker |
| `DispatchReconciler.ObligationSettledIff` | packages/creator-service/creator_service/dispatch_reconciler.py:134-210 | a leased obligation is discharged under the final code exactly when the lease is still the pass's, compensation went through and the finalization committed; otherwise it is still owed under its marker |
| `DispatchReconciler.SettledLeavesNoLease` | packages/creator-service/creator_service/dispatch_reconciler.py:175-204 | finalize-or-release ends the pass's lease on every path |
| `DispatchReconciler.Reconciler.TakeAndCompensate` | packages/creator-service/creator_service/dispatch_reconciler.py:129-171 | lease the row, roll back the run and cancel the quota, in the order of the phase, with failures skipped |
| `DispatchReconciler.Reconciler.Settle` | packages/creator-service/creator_service/dispatch_reconciler.py:173-204 | finalize when compensation went through, release when it or the finalization failed |
| `DispatchReconciler.Reconciler.StartStale` | packages/creator-service/creator_service/dispatch_reconciler.py:80-133 | re-enqueue and promote a stale pending row, or fail it and compensate |
| `DispatchReconciler.Reconciler.StartStuck` | packages/creator-service/creator_service/dispatch_reconciler.py:217-300 | fail a stuck row before its compensation |
| `DispatchReconciler.Reconciler.Reconcile` | packages/creator-service/creator_service/dispatch_reconciler.py:71-308 | a pass leaves no row leased under its tokens, also of rows first listed after phase one, and its counters are those of the two phases: confirmed finalizations of phase one, promotions, stuck rows failed |
| `ReconcileSchedule.LeasedTaskIsCalls` | packages/creator-service/creator_service/dispatch_reconciler.py:80-204 | a leased task is handled by exactly these calls, with others in between: mark, lease, rollback and cancel in the order of the phase, finalization if both were made, release unless that was confirmed |
| `ReconcileSchedule.DischargeIsCompensated` | packages/creator-service/creator_service/dispatch_reconciler.py:134-204 | whatever discharges an obligation comes after the rollback and the cancel of the same task, and these after its lease; phase one rolls back first, phase two cancels first |
| `ReconcileSchedule.ConfirmedIff` | packages/creator-service/creator_service/dispatch_reconciler.py:173-204 | a task counts as discharged exactly if rollback and cancel were made, the finalization answered, and the row was still leased under its token |
| `ReconcileOutcome.UndisturbedPhase` | packages/creator-service/creator_service/dispatch_reconciler.py:80-300 | undisturbed: every row, exactly the runs that fail, one cancel for each leased task whose cancel was made, in listing order, and the three counts |
| `ReconcileOutcome.UndisturbedPass` | packages/creator-service/creator_service/dispatch_reconciler.py:71-308 | the same for both phases of a pass, and the ledger it leaves |
| `ReconcileOutcome.LeasedTaskIsDischargedIff` | packages/creator-service/creator_service/dispatch_reconciler.py:134-204 | a leased task is discharged exactly if rollback, cancel and finalization were made, and otherwise owes what it owed |
| `ReconcileOutcome.CalmTaskLeaves` | packages/creator-service/creator_service/dispatch_reconciler.py:80-204 | which tasks are leased, enqueued again or passed over, and what is left of each |
| `RunRollbacks.OwnsIff` | packages/creator-service/creator_service/memory_task_tracking_storage.py:405-427 | when its turn comes a task owns its run exactly unless a newer row of the run and type stands that is still active or successful then |
| `RunRollbacks.RunsFailedMore` | apps/worker-orchestrator/tasks/reconcile_stale_dispatches.py:63-97 | of the runs, exactly those fail, and once, whose working run a task rolls back that no standing newer row shields |
| `BrokerRecovery.EpochCasKeepsOrderIff` | packages/creator-service/creator_service/memory_task_tracking_storage.py:441-466 | the epoch compare-and-set keeps the backlog older than the observed epoch exactly when the epoch does not move back and no listed generation is newer |
| `BrokerRecovery.AfterKeepsSystemOk` | apps/worker-orchestrator/tasks/reconcile_stale_dispatches.py:132-190 | every event, of the pass, of another process or of the broker, keeps the order of epochs |
| `BrokerRecovery.RecoverySparesCurrentGeneration` | apps/worker-orchestrator/tasks/reconcile_stale_dispatches.py:132-169 | a serialized recovery never fails a row of the broker's present generation, however often the broker is replaced meanwhile; every dispatch draws a fresh task id |
| `BrokerRecovery.BacklogIsOlder` | packages/creator-service/creator_service/memory_task_tracking_storage.py:441-481 | in every reachable state every generation awaiting cleanup is strictly older than the observed epoch |
| `BrokerRecovery.SnapshotIsTaken` | apps/worker-orchestrator/tasks/reconcile_stale_dispatches.py:132-160 | what a pass snapshots when undisturbed, and that a broker replaced meanwhile ends it |
| `BrokerRecovery.PassEnds` | apps/worker-orchestrator/tasks/reconcile_stale_dispatches.py:169-190 | a finished pass writes the epoch file, a crashed one changes nothing |
| `BrokerRecovery.OverlappingPassesFailCurrent` | packages/creator-service/creator_service/broker_recovery.py:164-214 | two overlapping passes can move the epoch back and put the present generation on the cleanup list |
| `BrokerRecoveryPass.CompensateTask` | packages/creator-service/creator_service/broker_recovery.py:130-152 | whatever others do between its calls: an active row is marked, its run rolled back if it still owns it, its reservation cancelled after an answered rollback only, and the row recorded as compensated after an answered cancel only; a row no longer active is skipped |
| `BrokerRecoveryPass.RecoverLostTasks` | packages/creator-service/creator_service/broker_recovery.py:101-161 | without evidence nothing changes; with it the listed rows of lost generations are handled one after the other, whatever others do between the calls, and every generation without an active row leaves the backlog |
| `BrokerRecoveryPass.RecoverBrokerSnapshot` | packages/creator-service/creator_service/broker_recovery.py:164-214 | exactly when the epoch is persisted, whoever races for it: a consistent snapshot, no lost race for the initial epoch, no replaced broker without evidence, and a durable epoch unchanged since it was read; otherwise the pass leaves at most the initial epoch |
| `BrokerRecoveryRefinement.CallIsRun` | packages/creator-service/creator_service/broker_recovery.py:101-214 | whatever fails and whoever interferes, the call leaves the world of a run of the recovery machine made of its own events and the steps of the others, and the epoch file is due exactly when it says so |
| `BrokerRecoveryRefinement.CallExtendsRun` | apps/worker-orchestrator/tasks/reconcile_stale_dispatches.py:132-190 | a run whose pass has confirmed its snapshot goes on through the call to a run that ends in what the call leaves |
| `BrokerRecoveryRefinement.CallSparesCurrentGeneration` | packages/creator-service/creator_service/broker_recovery.py:127-135 | every row that the call marks is older than the snapshot's epoch, which is no newer than the broker |
| `BrokerRecoveryOutcome.UndisturbedSnapshot` | packages/creator-service/creator_service/broker_recovery.py:164-205 | undisturbed, the epoch is persisted exactly for a consistent snapshot that need not wait, and what the observed epoch, the backlog and the generations of the rows then are |
| `BrokerRecoveryOutcome.UndisturbedRecovery` | packages/creator-service/creator_service/broker_recovery.py:119-161 | for every listing order and every placement of failing calls: each row, each run, the ledger and both counters as the pass leaves them, no lost row active, and an empty backlog |
| `BrokerRecoveryOutcome.UndisturbedStages` | packages/creator-service/creator_service/broker_recovery.py:127-152 | the same after every prefix of the listing |
| `BrokerRecoveryOutcome.CompensationOwesOrSettles` | packages/creator-service/creator_service/broker_recovery.py:130-152 | a lost task ends owing its compensation, so that a reconciler can lease it, exactly unless rollback and cancel answered and the record was made; then it is settled, and started by nobody |
| `BrokerRecoveryOutcome.LostTasksOweOrAreSettled` | packages/creator-service/creator_service/broker_recovery.py:127-152 | the same of every lost task of a whole recovery; every other row is untouched |
| `BrokerRecoveryPass.MarkOwes` | packages/creator-service/creator_service/broker_recovery.py:130-134 | from its mark on, whatever fails, a lost row owes its compensation and can be leased |
| `BrokerRecoveryOutcome.NoEvidenceNoRecovery` | packages/creator-service/creator_service/broker_recovery.py:105-117 | without empty queues and an answering worker nothing is recovered |
| `BrokerRecoveryOutcome.InconsistentChangesNothing` | packages/creator-service/creator_service/broker_recovery.py:164-176 | a snapshot over which the broker changed leaves everything as it was |
| `BrokerRecoveryOutcome.FailedRunsExactly` | packages/creator-service/creator_service/broker_recovery.py:136-138 | when every rollback is made, the runs that fail are, in any listing order, those that still work and have a lost attempt that no newer successful or living attempt shields |
| `BrokerRecoveryOutcome.OrderDecidesWhenARollbackFails` | packages/creator-service/creator_service/broker_recovery.py:136-144 | when a rollback fails, two orders of one listing can differ in whether the run fails |
| `DispatchCas.Dispatcher.ApplyRollback` | packages/creator-service/creator_service/dispatch_cas.py:49-56 | the conditional stage rollback acts only while the run is where the dispatch put it |
| `DispatchCas.Dispatcher.Prepare` | packages/creator-service/creator_service/dispatch_cas.py:107-136 | a failed preparation cancels a preowned reservation and rolls the stage back, and a reservation whose answer was lost stays |
| `DispatchCas.Dispatcher.CancelQuota` | packages/creator-service/creator_service/dispatch_quota.py:63-81 | one attempt to give the reservation back, none without an operation type |
| `DispatchCas.Dispatcher.Finish` | packages/creator-service/creator_service/dispatch_cas.py:187-242 | which exit each failure after an answered stage move takes, and what it gives back |
| `DispatchCas.Dispatcher.CasDispatchWithRollback` | packages/creator-service/creator_service/dispatch_cas.py:91-242 | for every placement of failures, lost answers included, and every interference of others, which exit is taken and what runs, ledger and attempts then are |
| `DispatchCas.DispatchedIff` | packages/creator-service/creator_service/dispatch_cas.py:91-242 | over the inputs: exactly when a dispatch succeeds |
| `DispatchCas.CancelledOnceIff` | packages/creator-service/creator_service/dispatch_cas.py:91-242 | the reservation's cancel is attempted exactly once on a failing exit that knows of one, otherwise never |
| `DispatchCas.LedgerSettledIff` | packages/creator-service/creator_service/dispatch_cas.py:91-242 | a failing exit leaves the ledger settled exactly unless the answer to the reservation was lost or a due cancel failed |
| `DispatchCas.SuccessKeepsReservation` | packages/creator-service/creator_service/dispatch_cas.py:238-242 | a success keeps the one reservation it made and rolls nothing back |
| `DispatchCas.RollbackAttemptedIff` | packages/creator-service/creator_service/dispatch_cas.py:91-242 | over the inputs: after preparation the rollback is attempted exactly once if the stage update moved the run and answered and then anything but a synchronous task failed; after a failed preparation, if the reservation was preowned; otherwise never |
| `DispatchCas.StrandedIff` | packages/creator-service/creator_service/dispatch_cas.py:156-242 | over the inputs: undisturbed, a failing exit leaves the run at the target stage exactly when the update moved it and its answer was lost, a synchronous task failed, or the rollback failed |
| `DispatchCas.LostAnswerStrandsTheRun` | packages/creator-service/creator_service/dispatch_cas.py:156-180 | a stage update that commits and then raises: quota given back, run moved, no rollback |
| `DispatchCas.DispatchMovesTheRun` | packages/creator-service/creator_service/dispatch_cas.py:136-180 | what a success leaves of the run: target stage, one version on, and which restart point |
| `DispatchCas.RollbackUndoesMove` | packages/creator-service/creator_service/dispatch_cas.py:49-56 | undoing a stage move with nobody in between restores stage and restart point, and only those |
| `DispatchCas.RollbackSparesOthers` | packages/creator-service/creator_service/dispatch_cas.py:49-56 | a run that others moved on is left alone |
| `UploadIntents.InMemoryMediaAssetStorage.CreateUploadIntent` | packages/creator-service/creator_service/media_asset_storage.py:141-199 | an upload is admitted exactly within the byte, slot and reservation budgets summed over assets and open intents |
| `UploadIntents.InMemoryMediaAssetStorage.MarkUploadIntentUploaded` | packages/creator-service/creator_service/media_asset_storage.py:207-211 | only a pending intent becomes uploaded |
| `UploadIntents.InMemoryMediaAssetStorage.SaveUploadedAsset` | packages/creator-service/creator_service/media_asset_storage.py:98-114 | the asset is saved and the intent completed together, only from an uploaded intent of that owner, workspace and key |
| `UploadIntents.InMemoryMediaAssetStorage.CompleteUploadIntent` | packages/creator-service/creator_service/media_asset_storage.py:213-222 | the uploader completes an uploaded intent, the reconciler one it holds |
| `UploadIntents.InMemoryMediaAssetStorage.CompensateUpload` | packages/creator-service/creator_service/media_asset_storage.py:224-230 | compensation checks the owner and nothing else |
| `UploadIntents.InMemoryMediaAssetStorage.AssetExistsForKey` | packages/creator-service/creator_service/media_asset_storage.py:232-237 | whether an asset of the workspace has the key |
| `UploadIntents.InMemoryMediaAssetStorage.ClaimExpiredUploadIntents` | packages/creator-service/creator_service/media_asset_storage.py:239-269 | exactly the first `limit` intents with an expired lease, in id order, each under a fresh token |
| `UploadIntents.InMemoryMediaAssetStorage.RecordUploadReclaimed` | packages/creator-service/creator_service/media_asset_storage.py:271-278 | the claim holder closes the intent and frees its reservation |
| `UploadIntents.InMemoryMediaAssetStorage.WatchForLateUpload` | packages/creator-service/creator_service/media_asset_storage.py:280-292 | the claim holder puts the intent under watch |
| `UploadIntents.InMemoryMediaAssetStorage.RecordUploadCleanupFailure` | packages/creator-service/creator_service/media_asset_storage.py:294-310 | the claim holder counts a failure, and gives up at the limit |
| `UploadIntents.AdmittedIff` | packages/creator-service/creator_service/media_asset_storage.py:141-199 | exactly when an upload is admitted, and what is recorded then |
| `UploadIntents.UsageCounts` | packages/creator-service/creator_service/media_asset_storage.py:141-162 | what counts toward the budgets: stored assets, and reservations until they are completed or reclaimed |
| `UploadIntents.HasKeyIff` | packages/creator-service/creator_service/media_asset_storage.py:232-237 | when a key counts as saved |
| `UploadIntents.SavesIff` | packages/creator-service/creator_service/media_asset_storage.py:98-114 | exactly from which intent an asset is saved, and what is written together |
| `UploadIntents.CompletesIff` | packages/creator-service/creator_service/media_asset_storage.py:213-222 | exactly who completes an intent, and when |
| `UploadIntents.CompensatesIff` | packages/creator-service/creator_service/media_asset_storage.py:224-230 | that compensation asks for the owner only, and where it leaves the intent |
| `UploadIntents.RecordsIff` | packages/creator-service/creator_service/media_asset_storage.py:271-310 | that a sweeper records an outcome exactly while it holds the intent, and what each outcome writes |
| `UploadMachine.NextKeepsOk` | packages/creator-service/creator_service/media_asset_service.py:162-240 | the invariant of uploaders, sweepers, retention and crashes is kept by every step |
| `UploadMachine.SaveKeepsOk` | packages/creator-service/creator_service/media_asset_storage.py:98-114 | a commit yields an asset whose object is there and whose upload has ended |
| `UploadMachine.RecordKeepsOk` | packages/creator-service/creator_service/media_upload_reconciliation.py:114-143 | recording a swept intent keeps the invariant, for a sweeper whose claim was lost as well |
| `UploadTheorems.SavedObjectsSurvive` | packages/creator-service/creator_service/media_upload_reconciliation.py:106-124 | neither compensation nor a sweep ever deletes the object of a saved asset |
| `UploadTheorems.EveryAssetHasItsObject` | packages/creator-service/creator_service/media_asset_service.py:196-232 | every asset row of every reachable state has its object, unless retention has marked it for deletion |
| `UploadTheorems.LapsedNeverYields` | packages/creator-service/creator_service/media_asset_storage.py:98-114 | an intent that left pending and uploaded for cleanup never yields an asset |
| `UploadTheorems.NoUnobservedLeak` | packages/creator-service/creator_service/media_upload_reconciliation.py:106-143 | unless a sweep of this very intent failed to delete while its upload could still store, an object that is there or may still appear without an asset belongs to an open intent, which an expired lease brings back to a sweeper unless its cleanup was exhausted |
| `UploadTheorems.ForgottenIff` | packages/creator-service/creator_service/media_upload_reconciliation.py:125-143 | exactly one kind of step closes an intent whose object is there or may still appear: recording a delete, under a held claim, after seeing a state in which the upload was taken to have ended |
| `UploadTheorems.FailuresSoFar` | packages/creator-service/creator_service/media_upload_reconciliation.py:114-124 | the failures these theorems speak of are exactly those of the run so far |
| `UploadTheorems.RevisitedWhileDeletesSucceed` | packages/creator-service/creator_service/media_upload_reconciliation.py:106-143 | while no delete of its own object has failed, such an intent is pending, uploaded, claimed or watched |
| `UploadTheorems.ForgottenHasItsCauses` | packages/creator-service/creator_service/media_upload_reconciliation.py:114-143 | an object out of view was lost by such a step, and a sweep of the same intent had failed while its upload could still store |
| `UploadTheorems.FailedSweepThenLateUploadLeaks` | packages/creator-service/creator_service/media_upload_reconciliation.py:125-143 | a run with one failed delete in which a late object is never looked at again |
| `UploadLeases.BatchIsExpired` | packages/creator-service/creator_service/media_asset_storage.py:239-253 | a sweep claims open intents whose lease has run out and no others; one that it leaves out comes behind a full batch |
| `UploadLeases.UploadIsSpared` | packages/creator-service/creator_service/media_asset_storage.py:239-269 | while sweeps come before the lease of an upload has run out, no sweeper takes its intent, in any run |
| `UploadLeases.SparedObjectIsNotSwept` | packages/creator-service/creator_service/media_upload_reconciliation.py:106-124 | and none deletes its object |
| `UploadLeases.AnsweringUploadCompletes` | packages/creator-service/creator_service/media_asset_service.py:190-232 | an upload whose calls answer is then never thrown off its way: it ends with a completed intent and its asset |
| `UploadLeases.CallsGoThrough` | packages/creator-service/creator_service/media_asset_service.py:190-232 | each of its four calls takes it one further, and the last leaves asset and object |
| `UploadLeases.FailedCallsAreCompensated` | packages/creator-service/creator_service/media_asset_service.py:190-232 | which failing calls send the uploader to compensate, and which leave everything to the sweepers |
| `UploadLeases.CompensationGoesThrough` | packages/creator-service/creator_service/media_asset_service.py:234-240 | compensation deletes the object and closes the intent, or leaves it to cleanup if the delete fails |
| `UploadLeases.TakenOverIff` | packages/creator-service/creator_service/media_asset_storage.py:239-269 | a claimed intent passes to another sweeper exactly when its lease has run out |
| `UploadLeases.ClaimStandsThroughLease` | packages/creator-service/creator_service/media_asset_storage.py:239-269 | until then, in any run, it stays with its sweeper |
| `UploadLeases.SavedIntentIsCompleted` | packages/creator-service/creator_service/media_upload_reconciliation.py:106-112 | undisturbed, a sweep completes an intent whose key has an asset |
| `UploadLeases.UnsavedIntentIsChecked` | packages/creator-service/creator_service/media_upload_reconciliation.py:98-106 | and otherwise comes to delete the object |
| `UploadLeases.CheckedIntentIsSwept` | packages/creator-service/creator_service/media_upload_reconciliation.py:113-143 | and to record what became of it |
| `UploadLeases.RetentionGoesThrough` | packages/creator-service/creator_service/postgres_media_retention_storage.py:173-229 | retention marks an asset and deletes its object and then its row |
| `UploadAccounting.AccountingStep` | packages/creator-service/creator_service/media_asset_storage.py:141-199 | stored plus reserved bytes, reservations and slots grow only by an admitted upload, by exactly its size and by exactly one slot |
| `UploadAccounting.BudgetsHold` | packages/creator-service/creator_service/media_asset_storage.py:141-162 | the byte, slot and reservation budgets are never exceeded, at any moment of any run |
| `UploadProcesses.MediaUploadReconciler.Look` | packages/creator-service/creator_service/media_upload_reconciliation.py:106-114 | the asset is looked up and, if there is none, the object deleted, with others in between |
| `UploadProcesses.MediaUploadReconciler.Record` | packages/creator-service/creator_service/media_upload_reconciliation.py:107-143 | which outcome is recorded, and that a lost claim is refused |
| `UploadProcesses.MediaUploadReconciler.SweepOne` | packages/creator-service/creator_service/media_upload_reconciliation.py:106-143 | what one claimed intent becomes, whether its object is deleted and which counter it moves, whatever others do between the calls |
| `UploadProcesses.MediaUploadReconciler.Sweep` | packages/creator-service/creator_service/media_upload_reconciliation.py:98-144 | a sweep claims exactly the first batch of expired intents and handles each, whatever others do meanwhile, until it finds a claim lost |
| `UploadProcesses.UndisturbedSweep` | packages/creator-service/creator_service/media_upload_reconciliation.py:98-144 | undisturbed, it leaves each intent as its case demands and every other as it was, deletes exactly the unsaved objects whose delete succeeds, counts each once and raises nothing |
| `UploadProcesses.SweptIntentEnds` | packages/creator-service/creator_service/media_upload_reconciliation.py:106-143 | what each case leaves of an intent: completed, one retry further or given up, watched for an hour, or reclaimed |
| `UploadProcesses.SweptIntentCounts` | packages/creator-service/creator_service/media_upload_reconciliation.py:106-144 | which counter each case moves |
| `UploadProcesses.SweptOneMore` | packages/creator-service/creator_service/media_upload_reconciliation.py:106-143 | sweeping one more intent of the batch extends the result of the sweep so far |
| `UploadProcesses.LostClaimEndsTheSweep` | packages/creator-service/creator_service/media_asset_storage.py:271-310 | a sweep ends with an error exactly when an intent it is to record was taken over or settled by another |
| `UploadProcesses.MediaAssetService.CompensateUpload` | packages/creator-service/creator_service/media_asset_service.py:234-240 | delete, then close the intent or hand it to cleanup |
| `UploadProcesses.MediaAssetService.Save` | packages/creator-service/creator_service/media_asset_service.py:225-231 | save, compensate a refusal, and leave a lost acknowledgement alone, committed or not |
| `UploadProcesses.MediaAssetService.StoreAsset` | packages/creator-service/creator_service/media_asset_service.py:162-232 | the whole upload for every placement of failures and every interference of others between its calls |
| `UploadProcesses.UploadEnds` | packages/creator-service/creator_service/media_asset_service.py:190-240 | whatever sweepers do meanwhile, it ends completed with its asset, closed without asset and object, or handed to cleanup without asset; only a lost acknowledgement leaves open which |
| `UploadProcesses.TakenIntentIsNotSaved` | packages/creator-service/creator_service/media_asset_storage.py:98-114 | an upload whose intent a sweeper took first yields no asset |
| `UploadProcesses.RefusedCallIsCompensated` | packages/creator-service/creator_service/media_asset_service.py:207-231 | a mark or a save that is refused is compensated |
| `UploadProcesses.UndisturbedUpload` | packages/creator-service/creator_service/media_asset_service.py:190-240 | which result each placement of failures gives when nobody interferes, and the intent, assets and objects it leaves |
| `RetentionTables.CountChecksEverySegment` | packages/creator-service/creator_service/postgres_timeline_storage.py:41-53 | the joined row count equals the segment count exactly when every segment's asset is available |
| `RetentionTables.PostgresMediaRetentionStorage.ClaimRetainedAsset` | packages/creator-service/creator_service/postgres_media_retention_storage.py:141-171 | an unreferenced, unapproved asset is claimed, or its expired claim taken over with the deletion mark kept |
| `RetentionTables.PostgresMediaRetentionStorage.MarkDeleting` | packages/creator-service/creator_service/postgres_media_retention_storage.py:179-213 | the first transaction marks a valid claim, and lets go of an invalid one that is not yet deleting |
| `RetentionTables.PostgresMediaRetentionStorage.DeleteRow` | packages/creator-service/creator_service/postgres_media_retention_storage.py:215-229 | the second transaction deletes the row only under the token that is deleting |
| `RetentionTables.PostgresMediaRetentionStorage.FinalizeRetainedAsset` | packages/creator-service/creator_service/postgres_media_retention_storage.py:173-229 | mark, delete the object, delete the row, with any transactions of others in between |
| `RetentionTables.PostgresMediaRetentionStorage.ReleaseRetainedAsset` | packages/creator-service/creator_service/postgres_media_retention_storage.py:231-239 | a claim is given back only before deletion began |
| `RetentionTables.PostgresTimelineStorage.SaveTimeline` | packages/creator-service/creator_service/postgres_timeline_storage.py:18-82 | the locked statement, with its count of available assets |
| `RetentionTables.PostgresStageReviewStorage.CreateReview` | packages/creator-service/creator_service/postgres_stage_review_storage.py:10-71 | the approval of an exact revision, with its mapping and its all-or-nothing check of blocked assets |
| `RetentionTables.ClaimedIff` | packages/creator-service/creator_service/postgres_media_retention_storage.py:141-171 | exactly when an asset is claimed or a claim taken over, for how long, and that a begun deletion stays begun |
| `RetentionTables.BegunIff` | packages/creator-service/creator_service/postgres_media_retention_storage.py:179-213 | exactly when deletion begins, and which claims are given up instead |
| `RetentionTables.ReleasedIff` | packages/creator-service/creator_service/postgres_media_retention_storage.py:231-239 | exactly which claims can be given back |
| `RetentionTables.RowDeletedIff` | packages/creator-service/creator_service/postgres_media_retention_storage.py:215-229 | exactly when the row goes, with its claim and its approvals |
| `RetentionTables.ReviewedIff` | packages/creator-service/creator_service/postgres_stage_review_storage.py:29-70 | exactly when an approval is accepted, and that it maps every asset of the timeline and nothing else |
| `RetentionTables.SavedIff` | packages/creator-service/creator_service/postgres_timeline_storage.py:32-72 | exactly when a save is accepted, in any tables, and what it writes |
| `RetentionMachine.NextKeepsOk` | packages/creator-service/creator_service/postgres_media_retention_storage.py:141-239 | the invariant of saves, approvals and deletions is kept by every step, crashes included |
| `RetentionTheorems.ProtectedStands` | packages/creator-service/creator_service/postgres_media_retention_storage.py:141-229 | in every reachable state every asset of a saved timeline or an approval has its row and its object and no deletion claim |
| `RetentionTheorems.CondemnedStays` | packages/creator-service/creator_service/postgres_media_retention_storage.py:173-229 | once an asset is being deleted no timeline or approval ever shows it again |
| `RetentionTheorems.DeletedOnce` | packages/creator-service/creator_service/postgres_media_retention_storage.py:215-229 | at most one finalization of an asset succeeds, however many sweepers take its claim over |
| `RetentionTheorems.DeletionHeldThroughout` | packages/creator-service/creator_service/postgres_media_retention_storage.py:141-229 | the finalization that deletes a row has held its claim without a gap since it claimed |
| `RetentionTheorems.AddedIsThere` | packages/creator-service/creator_service/media_asset_storage.py:98-114 | a saved upload is a new row over its object |
| `RetentionTheorems.ClaimGoesThrough` | packages/creator-service/creator_service/postgres_media_retention_storage.py:141-171 | nothing in the way, the sweeper claims, also after another that stopped |
| `RetentionTheorems.BeginGoesThrough` | packages/creator-service/creator_service/postgres_media_retention_storage.py:179-213 | and marks within its lease |
| `RetentionTheorems.DeleteGoesThrough` | packages/creator-service/creator_service/postgres_media_retention_storage.py:205-229 | and deletes the object and then the row, and nothing else |
| `RetentionTheorems.GivingUpDeletesNothing` | packages/creator-service/creator_service/postgres_media_retention_storage.py:231-239 | a claim given back and a sweeper that stops delete nothing |
| `RetentionTheorems.AcceptedExactlyWhen` | packages/creator-service/creator_service/postgres_timeline_storage.py:32-72 | a save is accepted exactly when the project is the workspace's, the revision is current (or the first) and every asset is available; it then writes that timeline and nothing else |
| `RetentionTheorems.RevisionIsWrittenOnce` | packages/creator-service/creator_service/postgres_timeline_storage.py:54-72 | of all saves of a project that expect one revision at most one is ever accepted |
| `RetentionTheorems.RevisionGrows` | packages/creator-service/creator_service/postgres_timeline_storage.py:54-72 | the revision of a project never goes down |
| `RetentionTheorems.ApprovedExactlyWhen` | packages/creator-service/creator_service/postgres_stage_review_storage.py:29-70 | in a reachable state an approval is refused only for a wrong revision, never for a claim |
| `RetentionTheorems.ApprovalMapsTheTimeline` | packages/creator-service/creator_service/postgres_stage_review_storage.py:38-70 | a resolved approval maps exactly the assets of the timeline it approved |
| `RetentionTheorems.MappingStays` | packages/creator-service/creator_service/postgres_stage_review_storage.py:38-54 | no later step adds to that mapping or takes from it |
| `RetentionTheorems.ApprovedTimelineStaysWhole` | packages/creator-service/creator_service/postgres_stage_review_storage.py:29-70 | what was approved keeps all its rows and objects for ever |
| `RetentionPaging.CandidateIff` | packages/creator-service/creator_service/media_retention.py:43-66 | which assets are selected: under their own workspace, unprotected, and as old as the period of their kind, which must be positive |
| `RetentionPaging.DigitsSpell` | packages/creator-service/creator_service/media_retention.py:60-62 | how the workspace number is spelled in the prefix |
| `RetentionPaging.ByAgeSorts` | packages/creator-service/creator_service/media_asset_storage.py:325-334 | the rows are listed strictly by age and id |
| `RetentionPaging.BehindTheCursor` | packages/creator-service/creator_service/media_asset_storage.py:335-340 | the cursor keeps exactly the rows behind it |
| `RetentionPaging.PageIsNext` | packages/creator-service/creator_service/media_asset_storage.py:321-346 | a page is the next stretch of the sorted rows, and a short page is the last |
| `RetentionPaging.SelectRetentionCandidates` | packages/creator-service/creator_service/media_retention.py:51-66 | the selection of a page is the filter of its rows |
| `RetentionPaging.MediaRetentionService.ScanPage` | packages/creator-service/creator_service/media_retention.py:117-133 | one page more extends the candidates to those of the longer prefix |
| `RetentionPaging.MediaRetentionService.ScanCandidates` | packages/creator-service/creator_service/media_retention.py:116-135 | the cursor loop ends, and yields exactly the first `limit` elements of the filtered, sorted table |
| `RetentionPaging.InMemoryMediaAssetStorage.ListRetentionAssets` | packages/creator-service/creator_service/media_asset_storage.py:321-346 | a page is an ordered list of stored assets behind the cursor, and one that it leaves out comes after a full page |
| `RetentionPaging.InMemoryMediaAssetStorage.ClaimRetainedAsset` | packages/creator-service/creator_service/media_asset_storage.py:372-382 | a present asset that nobody deletes is claimed |
| `RetentionPaging.InMemoryMediaAssetStorage.FinalizeRetainedAsset` | packages/creator-service/creator_service/media_asset_storage.py:357-370 | row and claim go exactly under the claim's token and after the object is gone; a failed delete keeps both |
| `RetentionPaging.ClaimedIff` | packages/creator-service/creator_service/media_asset_storage.py:372-382 | exactly when an asset is claimed in memory |
| `RetentionPaging.FinalizedIff` | packages/creator-service/creator_service/media_asset_storage.py:357-370 | only the claiming token finalizes, and only if the object can be deleted |
| `RetentionPaging.MediaRetentionService.Retire` | packages/creator-service/creator_service/media_retention.py:138-151 | claim and finalization of one candidate, with others in between |
| `RetentionPaging.MediaRetentionService.SweepWorkspace` | packages/creator-service/creator_service/media_retention.py:108-152 | disabled, dry-run, unresolved and deleting sweeps, with their counts; the first object that cannot be deleted ends the sweep |
| `RetentionSweep.WantedIsListed` | packages/creator-service/creator_service/media_retention.py:116-135 | every candidate is a distinct, expired, unprotected asset of the workspace |
| `RetentionSweep.WantedIsFirst` | packages/creator-service/creator_service/media_retention.py:116-135 | the candidates are the oldest ones: one left out comes after as many as were asked for |
| `RetentionSweep.KeptAssetStays` | packages/creator-service/creator_service/media_retention.py:43-66 | a sweep neither claims nor deletes an asset of a kind that is kept, or whose period has not passed, or that is protected |
| `RetentionSweep.UndisturbedSweep` | packages/creator-service/creator_service/media_retention.py:138-152 | undisturbed, exactly the candidates that nobody was deleting are retired and counted, and all other assets stay |
| `RetentionSweep.FailedDeleteKeepsTheClaim` | packages/creator-service/creator_service/media_asset_storage.py:357-370 | an object that cannot be deleted ends the sweep and leaves its asset claimed, with the claims before it settled |
| `RetentionSweep.ForeignClaimStands` | packages/creator-service/creator_service/media_asset_storage.py:357-382 | a sweep neither claims nor removes an asset that another token holds, whatever others do that respect the claim |
| `RetentionSweep.ClaimedForGood` | packages/creator-service/creator_service/media_asset_storage.py:372-382 | however many sweeps follow, whatever they find, such an asset stays claimed |
| `EditorTimeline.ByStartSorts` | packages/creator-domain/creator_domain/models/timeline.py:34-34 | the order by start is a sorted permutation |
| `EditorTimeline.CheckSegments` | packages/creator-domain/creator_domain/models/timeline.py:26-40 | the validator's two loops decide unique ids and the absence of overlaps |
| `EditorTimeline.ValidIsApart` | packages/creator-domain/creator_domain/models/timeline.py:34-39 | in a valid timeline any two segments are apart, up to the slack |
| `EditorCommands.Find` | packages/creator-service/creator_service/editor_command_applier.py:67-71 | the first segment with the id, or none has it |
| `EditorCommands.FindSegment` | packages/creator-service/creator_service/editor_command_applier.py:67-71 | the search loop answers as that function |
| `EditorCommands.Resequence` | packages/creator-service/creator_service/editor_command_applier.py:74-80 | the cursor loop lays the segments end to end |
| `EditorCommands.ApplySplit` | packages/creator-service/creator_service/editor_command_applier.py:119-158 | the loop puts the two halves in the place of the target and keeps the rest |
| `EditorEffects.UnknownIsRefused` | packages/creator-service/creator_service/editor_command_applier.py:67-71 | a command for a segment that is not there is refused, and so is one that is not for the timeline |
| `EditorEffects.LowerIsAscii` | packages/creator-service/creator_service/editor_command_applier.py:63-64 | how media kinds are compared: ASCII letters in lower case |
| `EditorEffects.TrimEffect` | packages/creator-service/creator_service/editor_command_applier.py:94-116 | when a trim is accepted, and what it sets |
| `EditorEffects.SplitEffect` | packages/creator-service/creator_service/editor_command_applier.py:119-158 | when a split is accepted, and the two halves it puts in place of the segment |
| `EditorEffects.DeleteEffect` | packages/creator-service/creator_service/editor_command_applier.py:161-175 | what a delete takes out and, rippling, pulls back |
| `EditorEffects.ReplaceEffect` | packages/creator-service/creator_service/editor_command_applier.py:178-209 | which assets may replace another, and when the window of the segment changes |
| `EditorEffects.ResizeEffect` | packages/creator-service/creator_service/editor_command_applier.py:231-258 | when a resize is accepted, and what moves along |
| `EditorEffects.TransitionEffect` | packages/creator-service/creator_service/editor_command_applier.py:261-274 | a transition is set unless it has a length of its own |
| `EditorEffects.ValidIff` | packages/creator-domain/creator_domain/models/timeline.py:26-40 | what exactly every accepted timeline satisfies |
| `EditorEffects.CommandOutcome` | packages/creator-service/creator_service/editor_command_applier.py:277-317 | a stale command is refused as such, and an accepted one changes the segments only, to valid ones |
| `EditorSources.RefittedIsBounded` | packages/creator-service/creator_service/editor_command_applier.py:190-206 | replacing an asset leaves the segment within the new source, with no tolerance |
| `EditorSources.CommandKeepsBounds` | packages/creator-service/creator_service/editor_command_applier.py:94-274 | every command keeps every segment within its source up to one tolerance, which never adds up |
| `EditorSources.SplitKeepsEveryFrameIff` | packages/creator-service/creator_service/editor_command_applier.py:125-157 | a split leaves the frame shown at every moment as it was exactly when the segment has an explicit trim start |
| `EditorSources.ShownOfHalves` | packages/creator-service/creator_service/editor_command_applier.py:127-157 | what the two halves show at every moment |
| `EditorContiguity.PlacedIsResequenced` | packages/creator-service/creator_service/editor_command_applier.py:74-80 | laying out what already lies end to end changes nothing |
| `EditorContiguity.ResequencedIsPlaced` | packages/creator-service/creator_service/editor_command_applier.py:74-80 | laying out gives a contiguous list and changes starts only |
| `EditorContiguity.TidyIsValid` | packages/creator-domain/creator_domain/models/timeline.py:26-40 | a contiguous list with prefix-free ids passes validation, in time order |
| `EditorContiguity.LengthIsLatestEnd` | packages/creator-domain/creator_domain/models/timeline.py:48-53 | the last segment's end is the total duration |
| `EditorContiguity.SplitIds` | packages/creator-service/creator_service/editor_command_applier.py:139-157 | the derived ids of a split stay prefix-free, hence unique |
| `EditorContiguity.SplitKeepsTidy` | packages/creator-service/creator_service/editor_command_applier.py:119-158 | when a split of a contiguous timeline is accepted, and that it stays contiguous with its total |
| `EditorContiguity.DeleteKeepsTidy` | packages/creator-service/creator_service/editor_command_applier.py:161-175 | a ripple delete of a present segment is always accepted, closes the gap and takes its duration off the total |
| `EditorContiguity.MoveKeepsTidy` | packages/creator-service/creator_service/editor_command_applier.py:212-228 | a move is accepted exactly when segment and position exist, reorders the segments as told and keeps the total |
| `EditorContiguity.ResizeKeepsTidy` | packages/creator-service/creator_service/editor_command_applier.py:231-258 | a resize is accepted exactly when the source has room, and moves everything behind by the change |
| `EditorContiguity.GapDeleteIsContiguousIffLast` | packages/creator-service/creator_service/editor_command_applier.py:164-167 | a gap delete leaves a contiguous timeline exactly when it takes the last segment |
| `EditorContiguity.TrimIsContiguousIff` | packages/creator-service/creator_service/editor_command_applier.py:94-116 | a trim does so exactly when it keeps the duration or cuts the last segment |
| `EditorContiguity.EditsKeepTidy` | packages/creator-service/creator_service/editor_command_applier.py:119-258 | any sequence of split, ripple delete, move and resize stays contiguous, in time order, with the total its commands add up to |
| `EditorHistory.RefinesTape` | packages/creator-service/creator_service/editor_history.py:123-179 | past, present and reversed future are one list: undo and redo move its cursor, an accepted edit writes behind it, a refused one does nothing |
| `EditorHistory.UndoRedo` | packages/creator-service/creator_service/editor_history.py:123-143 | undo and redo undo each other exactly |
| `EditorHistory.RunIsOk` | packages/creator-service/creator_service/editor_history.py:55-60 | entry i of the list has generation loaded revision + i, and every entry is an edit of the loaded timeline |
| `EditorHistory.EveryStateIsBounded` | packages/creator-service/creator_service/editor_history.py:87-179 | source bounds hold of every entry after any sequence of edits, batches, undos and redos |
| `EditorHistory.BothAcceptedOnlyAfterUndo` | packages/creator-service/creator_service/editor_history.py:97-113 | two proposals of one generation are both accepted only with an undo in between |
| `EditorHistory.GenerationsRepeat` | packages/creator-service/creator_service/editor_history.py:123-157 | an undo and a new edit reuse a generation for another timeline |
| `EditorHistory.BatchIsChain` | packages/creator-service/creator_service/editor_history.py:159-179 | a batch is its commands one after the other |
| `EditorHistory.EditAcceptedIff` | packages/creator-service/creator_service/editor_history.py:97-113 | what an edit needs to be accepted, and what the history is then |
| `EditorHistory.FailureStays` | packages/creator-service/creator_service/editor_history.py:159-179 | a batch whose prefix fails fails |
| `EditorHistory.EditorHistory.Apply` | packages/creator-service/creator_service/editor_history.py:145-157 | one command is recorded, or nothing changes |
| `EditorHistory.EditorHistory.ApplyBatch` | packages/creator-service/creator_service/editor_history.py:159-179 | a batch is recorded as one step, or nothing changes |
| `EditorHistory.EditorHistory.ApplyBatchIfGeneration` | packages/creator-service/creator_service/editor_history.py:97-113 | a stale generation is refused before anything else |
| `EditorHistory.EditorHistory.Undo` | packages/creator-service/creator_service/editor_history.py:123-132 | the prior snapshot comes back with its generation |
| `EditorHistory.EditorHistory.Redo` | packages/creator-service/creator_service/editor_history.py:134-143 | the last undone change comes back with its generation |
| `EditorPacing.SelectScope` | packages/creator-service/creator_service/pacing_proposal.py:79-92 | the scope is refused for an unknown scene or no match, and is otherwise the matching segments in order |
| `EditorPacing.SegmentCommands` | packages/creator-service/creator_service/pacing_proposal.py:64-71 | the resize and the transition of one segment |
| `EditorPacing.BuildPacingProposal` | packages/creator-service/creator_service/pacing_proposal.py:47-76 | the builder computes the proposal that the theorems are about |
| `EditorPacing.BuiltIff` | packages/creator-service/creator_service/pacing_proposal.py:47-92 | exactly when a proposal is built, and on which generation |
| `EditorPacing.ResizeIsProportional` | packages/creator-service/creator_service/pacing_proposal.py:95-110 | the resize that is proposed: the factor times the duration, cut off at the source unless it is an image, if it is positive and a change |
| `EditorPacing.RestyleIsOffered` | packages/creator-service/creator_service/pacing_proposal.py:64-71 | the transition that is proposed, and which are refused |
| `EditorPacingTheorems.RippledIsValid` | packages/creator-domain/creator_domain/models/timeline.py:26-40 | changing durations and moving what follows keeps a timeline valid where there is room |
| `EditorPacingTheorems.ResizeStep` | packages/creator-service/creator_service/editor_command_applier.py:231-258 | one resize of an untouched segment is one step of the ripple |
| `EditorPacingTheorems.PrefixApplies` | packages/creator-service/creator_service/editor_history.py:159-179 | after the commands of the first m segments exactly those are paced and the rest moved |
| `EditorPacingTheorems.ProposalApplies` | packages/creator-service/creator_service/pacing_proposal.py:47-76 | a proposal applies as one batch to the timeline it was built from |
| `EditorPacingTheorems.ApartIsRoomy` | packages/creator-service/creator_service/pacing_proposal.py:95-110 | a timeline without tolerated overlaps always has room, so its proposals always apply |
| `EditorPacingTheorems.PacedEffect` | packages/creator-service/creator_service/pacing_proposal.py:95-110 | the result, field by field: in scope the duration times the factor, within the source, unless that is nothing or no change, a trim end that follows it, and the transition; out of scope only the place changes; the place by exactly the sum of the earlier changes |
| `EditorPacingTheorems.ProposalAcceptedIff` | packages/creator-service/creator_service/editor_command_applier.py:231-258 | with segments longer than twice the slack a proposal is accepted exactly when every new duration covers the overlap tolerated behind it |
| `EditorPacingTheorems.TooFastIsRefused` | packages/creator-service/creator_service/pacing_proposal.py:95-110 | a proposal that the applier refuses |
| `GpuLock.FreeIff` | packages/creator-provider/creator_provider/gpu_lock.py:44-64 | the key can be taken exactly when there is none or its time has run out |
| `GpuLock.OwnedIff` | packages/creator-provider/creator_provider/gpu_lock.py:26-41 | only the owner whose time has not run out renews or releases |
| `GpuLock.ReleasedMeansHeld` | packages/creator-provider/creator_provider/gpu_lock.py:26-41 | a release that answers true means an unbroken hold since the acquire, across expiries, renewals and rivals |
| `GpuLock.NormalUsesAreDisjoint` | packages/creator-provider/creator_provider/gpu_lock.py:96-147 | two context uses that both end normally never overlap |
| `GpuLock.RenewedInTimeIsHeld` | packages/creator-provider/creator_provider/gpu_lock.py:82-93 | an owner that renews before the timeout runs out holds the lock throughout |
| `GpuLock.TakesOnce` | packages/creator-provider/creator_provider/gpu_lock.py:57-64 | a token takes the key at most once |
| `GpuLock.ExitContext` | packages/creator-provider/creator_provider/gpu_lock.py:110-147 | the context ends normally exactly when the body did not fail, every renewal was granted and the release answered true |
| `GpuLock.BackoffDoubles` | packages/creator-provider/creator_provider/gpu_lock.py:58-73 | the pauses double up to thirty seconds |
| `GpuLock.AcquireGpuLock` | packages/creator-provider/creator_provider/gpu_lock.py:44-73 | the wait ends, takes the key exactly if an attempt found it free, and pauses for the backoff or the time left, for no more than the maximum wait in all |

## Left out

Not modelled, in each part:

* Provider adapters, media commands, the queue and database clients, HTTP, telemetry, logging and error texts: each external call only succeeds or fails.
* The listing queries of the task table (which rows are stale, stuck or owing, and in which order): the listings are parameters.
* The Postgres versions of the task and upload storages, which differ in details: for instance, reclaiming an intent does not clear its reserved bytes there.
* `mark_running` and the other writers that start a row without a claim: rows start through `create_task` and `claim_running`.
* Worker deliveries with a synthetic task id, without a claim token or without a success stage, the shutdown check, and the failure handlers around a delivery.
* The reconciler without a rollback function, its list of error texts and the check of its stuck threshold.
* Dispatch tables, revoking queued messages and recording the queued row: only the stage, the reservation and the rollback of a dispatch are modelled.
* Other media kinds' validation and probing; the upload call ends before its compensation begins, as the source does not abandon a running call.
* Intent ids: an intent is its position in the list, one less than its id.
* Legacy approvals recorded without a mapping, reviews of other stages, deletion of projects and workspaces, and the one-time migrations.
* The page query of the Postgres storage: the paged scan is modelled on the in-memory one, the deletion races on the Postgres one.
* Retention paging over a table that changes between two pages, and other processes between two completions of the cleanup backlog.
* Non-ASCII letters in media types, rounding of floating point seconds, JSON encoding, and the scene grouping of a timeline.
* Output, style and audio commands, which the applier refuses, are one command here.
* Editor operations interleaving inside one history: the source serializes them with a lock.

Contracts stated for less than the name suggests:

- DispatchReconciler.HandleLeavesNoLease: the calls that claim, mark in phase one, or release a row do not raise; one that does ends the pass, and one that raises after claiming leaves the row leased until the lease runs out (`AbandonedLeaseIsTakenOver`).
- DispatchReconciler.PhaseKeepsStanding: the same.
- DispatchReconciler.Reconciler.Reconcile: the same.
- BrokerRecoveryRefinement.CallIsRun: assumes that the steps of others are fair, as the runs of the machine do; the call's own steps always are (`OwnStepsAreFair`).
- BrokerRecovery.RecoverySparesCurrentGeneration: assumes that passes do not overlap, that epochs advance, and that a dispatch draws a fresh task id; an example shows what overlapping passes do.
- UploadTheorems.NoUnobservedLeak: assumes fresh keys, and says nothing of an intent whose sweep failed to delete while its upload could still store; `ForgottenIff` says when such an intent is lost.
- UploadAccounting.AccountingStep: assumes that uploads are not empty, as their validators see to, and that a saved asset is no larger than its reservation.
- UploadProcesses.UploadEnds: assumes that nobody else stores or saves under the key, which the upload has just drawn.
- BrokerRecoveryPass.RecoverBrokerSnapshot: the calls that read or set the epoch, list, mark or complete do not raise; one that does ends the pass, which the machine has as a crash.
- BrokerRecoveryOutcome.UndisturbedRecovery: is stated without other processes in between; `BrokerRecoveryPass.RecoverLostTasks` and `BrokerRecoveryRefinement.CallIsRun` have them.
- RetentionSweep.UndisturbedSweep: is stated without other processes in between; `RetentionPaging.MediaRetentionService.SweepWorkspace` has them from the first claim on.
- RetentionTheorems.ProtectedStands: assumes distinct storage keys.
- EditorPacingTheorems.ProposalApplies: assumes a segment list in time order and assets that do not change between proposal and application.
- EditorPacingTheorems.ProposalAcceptedIff: assumes segments longer than two nanoseconds; below that, segments may change places without overlapping.
- GpuLock.AcquireGpuLock: assumes a clock that eventually passes the maximum wait.
- TaskTheorems.EpochEndsOnce: a token that a caller draws twice begins a second epoch.

# BoundFlow control plane: a verified model

BoundFlow runs workflows for its clients. Its control plane is a distributed protocol over
Postgres: worker sessions, schedulers, sweeps and operators act on shared rows only through
single guarded SQL statements, each with its own, possibly stale, memory of what it read.
This project models those statements, the processes that issue them, and the loops that fold
metrics and evaluate policies, and proves what every interleaving keeps.

There are two state machines and the imperative code around them.

* **The job row** (`JobRow`, `WorkerSession`, `JobProtocol`): one jobs row from insertion to
  deletion, under any number of sessions, lost leases, late releases, lost replies, sweeps,
  operators and schedulers. `JobInvariant` holds the inductive invariant, `JobTheorems`,
  `JobOrders`, `SessionOutcomes` and `JobFinality` the results over whole runs. `Jobs` and `Worker` are the same statements and the
  same session as objects that update their fields, proved to refine the machine.
* **The control plane** (`WorkflowTables`, `ControlPlane`): one workflow row, an unbounded set of
  requests and the job slot, under any number of concurrent and repeated `CompleteRequest`,
  `FailRequest` and `ScheduleRequest` calls, crashes, suspension and deletion tails and operators.
  `GateOrder`, `Holding`, `Removing`, `NoLostUpdate`, `GateChain`, `OwnRuns`, `Orphans` and `RequestLife`
  each prove what runs keep, or exactly when they do; `PlaneRuns` and `LostMetrics` build the runs that show which conditions are
  needed. `Completion`, `Teardown` and `ControlStore` treat one call at a time, cut short anywhere
  and repeated. `Spend` composes both machines: from the sessions' reports to the version totals.
* **Sequential code**: `AgentMetrics` (merging reports), `RunFolding` (folding a run into snapshots
  and totals), `WorkflowBook` (totals by epoch, rolling and agent histories), `RollingHistory` and
  `LifecyclePolicy` (windows and the policy engine), `Resume` (policy at resume, cooldowns),
  `RequestVersions` (the two create statements).

Every statement is taken as one atomic step. The definitions come from the SQL itself
(`internal/storage/postgres`), including `UpsertJobAndSchedule`, `ResolveInterruptedWorkflow`,
`RestoreFromSuspension` and `startNewMetricsEpoch`.

## What the model shows the code does not do

Each of these is a lemma with a concrete run, beside the condition under which the property holds.

* A suspension id the client reuses lets a tail of the earlier hold finalize the later one while a
  run is in progress (`Holding.ReusedIdFinalizesTooEarly`; sound for ids that are not reused).
* The same reuse lets the resume resolve a version that was never emitted
  (`GateChain.ReusedIdResolvesTooEarly`); `GateChain.ChainedExactly` says in which runs that happens.
* The comment at `internal/rpcworker/rpcworker.go:678` says a request in progress keeps its job. A
  failed send's reset lets a newer request take its slot, and nothing ever finishes it
  (`Orphans.FailedSendLeavesARequestBehind`); such a request holds up every later suspension and deletion.
* Acknowledging an interruption after deletion was requested reactivates the workflow, and the
  deletion is finalized over a running request (`Removing.AcknowledgedDeletionLeavesARun`).
* `EmitMetrics` is gated on the version its caller read. A stale `CompleteRequest` call emits its
  run again as a newer request's, whose own metrics are then refused
  (`LostMetrics.StaleCompletionCountsTwice`).
* Two emissions overlap, and one is lost from the totals, if an interruption is acknowledged before
  its metrics are emitted, or a stale owner makes one run both completed and failed, or a stale owner
  resets an ended row that a newer request then replaces. `LostMetrics.EachConditionIsNeeded` gives a
  run for each that keeps the other two; without all three no emission is ever lost.
* The comment at `internal/scheduler/scheduler.go:430` calls `CompleteRequest` idempotent. It is,
  except after a crash between emission and resolution: the repeated call evaluates the policy on
  metrics that count the run twice, and ends elsewhere exactly when that decision differs
  (`Completion.RetryConvergesExactly`, `Completion.RetryPausesAnInnocentWorkflow`).
* A `CompleteRequest` or `FailRequest` call that dies between deleting the job row and marking its
  request leaves the request open with nothing left for a sweep to find
  (`Completion.StrandsExactly`, `Teardown.RepeatConverges`).
* A cooldown ordered while the workflow is suspended is dropped, and the resume serves none of it
  unless one was already running (`Resume.DroppedCooldownIsNotServed`).
* A repeated settlement of an older request moves its completion time past the creation of the next
  periodic request (`RequestVersions.RepeatedSettlementBreaksSpacing`).
* A completed job is launched again by a session whose lease ran out
  (`JobFinality.StaleOwnerLaunchesACompletedRun`).

## Model

| member | source | states |
|---|---|---|
| `JobTheorems.OwnerFencing` | internal/storage/postgres/job.go:48-180 | in every run, behind each owner-guarded write that succeeded lies the same session's acquisition, with no acquisition by anyone in between |
| `JobTheorems.LaunchesAreGranted` | internal/storage/postgres/job.go:507-536 | between two successful dispatches the row was requeued, advanced, had a gate decided, or was reset after a failed send |
| `JobTheorems.LaunchAccounting` | internal/rpcworker/rpcworker.go:656-709 | launches never exceed one plus the number of such hand-backs |
| `JobTheorems.MetricsConserved` | internal/rpcworker/rpcworker.go:153-194 | for every agent and metric, the row holds the sum over acquisitions of the last report each one persisted: none twice, none overwritten |
| `JobTheorems.WriteKeepsOthersSpend` | internal/rpcworker/rpcworker.go:169-194 | a write that succeeds leaves all earlier acquisitions' spend plus exactly the writer's newest report |
| `JobTheorems.CountersConserved` | internal/rpcworker/rpcworker.go:523-533 | persisted failures are the sum of those settled; rejections are present exactly when a gate was consumed, and count the ones consumed as rejected |
| `JobTheorems.OutcomesAreTheDecisions` | internal/rpcworker/rpcworker.go:612-624 | a gate is consumed as rejected exactly when the latest decision before it rejected or timed out |
| `JobTheorems.GatesAreSpentOnce` | internal/storage/postgres/job.go:209-260 | each parking is decided at most once (approve, reject or timeout) and each decision consumed at most once |
| `JobTheorems.AlwaysRunnable` | internal/rpcworker/rpcworker.go:601-636 | every acquirable row names its operation or carries its gate, and no session can dereference a missing gate |
| `JobTheorems.RequeueSettlesAFailure` | internal/storage/postgres/job.go:575-607 | after a requeue of attempt n, every later requeue or claim that succeeds names a larger attempt |
| `JobTheorems.AttemptsBounded` | internal/scheduler/scheduler.go:48-50 | attempts counts the requeues and never exceeds 20 |
| `JobOrders.RowLifeIsLegal` | internal/storage/postgres/job.go:48-655 | in every run, each statement that matched was due and legal after the statements before it: its times, leases, ids and deadlines, the failures it retries, the operation it launches |
| `JobOrders.OutsideActsExactly` | internal/storage/postgres/job.go:209-609 | an operator's, sweep's or scheduler's statement matches exactly when the row's history makes it due, and a requeue or claim names the number of requeues so far |
| `JobOrders.AcquiresExactly` | internal/storage/postgres/job.go:48-60 | an idle session gets the row exactly when it is runnable, free of a live lease, and past the delay of its latest advance |
| `JobOrders.ApprovalTakesItsBranch` | internal/rpcworker/rpcworker.go:612-620 | a consumed approval launches or finishes exactly as its latest parking set for that outcome: onApprove if approved, onReject if rejected or timed out |
| `JobOrders.InputTakesItsBranch` | internal/rpcworker/rpcworker.go:621-624 | a consumed input takes onAnswer after an answer and onTimeout after a timeout, of its latest parking |
| `JobOrders.DelayIsKept` | internal/storage/postgres/job.go:640-646 | no acquisition before the delay of the latest advance is over |
| `JobOrders.LeasesAreKept` | internal/storage/postgres/job.go:488-503 | while a lease stands nobody acquires the row and the abandon sweep leaves it; the orphan sweep waits its grace period besides |
| `SessionOutcomes.ReportIsTheNewest` | internal/rpcworker/rpcworker.go:160-168 | over every run, what a session is about to write is the newest non-empty report it took since it acquired the row |
| `SessionOutcomes.BusyWrites` | internal/rpcworker/rpcworker.go:772-804 | for every update while busy, the statement then issued: what a completed operation asked for, a failed run, an interim report, or none |
| `SessionOutcomes.CancellingWrites` | internal/rpcworker/rpcworker.go:844-880 | for every answer to a cancel: a suspended run completes, a timed-out one completes with one failure, any other fails |
| `SessionOutcomes.WaitingWrites` | internal/rpcworker/rpcworker.go:717-760 | a launched operation is marked running once acknowledged, anything else said fails the run, silence is cancelled first |
| `SessionOutcomes.LosingTheClientFails` | internal/rpcworker/rpcworker.go:762-845 | a lost client, a broken protocol or an unanswered cancel fails the run |
| `SessionOutcomes.OnlyFailedSendsReset` | internal/rpcworker/rpcworker.go:701-709 | the row is handed back exactly after a launch that could not be sent |
| `SessionOutcomes.AbandonedIsCompleted` | internal/rpcworker/rpcworker.go:604-610 | a job acquired with the abandon flag is completed with what it has and never launched |
| `JobFinality.CompletedIsFinalExactly` | internal/storage/postgres/job.go:122-180 | a completed row stays completed or is deleted in every run exactly when nobody owns it or its owner's session is idle, ended, completing, or holding it without launching |
| `JobFinality.NotFinalIsUndone` | internal/rpcworker/rpcworker.go:717-885 | in every other phase of its owner, two steps take it out of completion |
| `JobFinality.StaleOwnerLaunchesACompletedRun` | internal/storage/postgres/job.go:440-465 | such a row is reached: a run completed by the abandon sweep is dispatched by the session whose lease ran out |
| `JobHistory.GrantBetweenUses` | internal/storage/postgres/job.go:507-536 | two uses of the row in a spaced history have a grant between them |
| `JobHistory.UsesWithinGrants` | internal/storage/postgres/job.go:507-536 | uses never outnumber grants |
| `JobHistory.FoldedIsTheSum` | internal/metrics/metricshandler.go:202-241 | folding a list of reports adds each metric of each agent |
| `JobInvariant.RunKeeps` | internal/rpcworker/rpcworker.go:415-885 | every step of every session, sweep, operator and scheduler keeps the protocol's invariant |
| `Worker.WriteIsIssued` | internal/rpcworker/rpcworker.go:523-709 | the protocol's write step is the session object's statement: same row, same next phase |
| `Worker.TryAcquireIsTaken` | internal/rpcworker/rpcworker.go:467-483 | the protocol's acquisition is the session object's: same row, same memory |
| `Worker.WorkerLoop.TakeJob` | internal/rpcworker/rpcworker.go:467-483 | an idle session holds the row as acquired, with nothing reported yet, or stays idle |
| `Worker.WorkerLoop.KeepLease` | internal/rpcworker/rpcworker.go:498-520 | a tick renews the session's own lease only, and reports a requested abandon |
| `Worker.WorkerLoop.DropLease` | internal/rpcworker/rpcworker.go:494-497 | a release, however late, clears the session's own lease only |
| `Worker.Outside` | internal/scheduler/scheduler.go:176-245 | an operator's, sweep's or scheduler's statement goes through the repository as the protocol's own step |
| `Worker.OutsideIsItsStatement` | internal/storage/postgres/job.go:209-503 | that step is its statement on the row, and touches no session |
| `Worker.WorkerLoop.Receive` | internal/rpcworker/rpcworker.go:717-885 | a message, timeout or disconnect moves phase, job and report as the session machine says |
| `Worker.WorkerLoop.ReceiveBusy` | internal/rpcworker/rpcworker.go:762-828 | a busy session takes the report, checks the operation id, and settles, reports or waits |
| `Worker.WorkerLoop.ReceiveCancelling` | internal/rpcworker/rpcworker.go:829-885 | an answer to a cancel settles by its reason: suspension, timeout (one failure) or failure |
| `Worker.WorkerLoop.RecordSnapshot` | internal/rpcworker/rpcworker.go:160-168 | a report replaces its predecessor, an empty one is ignored |
| `Worker.WorkerLoop.CompleteOperation` | internal/rpcworker/rpcworker.go:196-360 | a completed operation advances, parks or completes the run |
| `Worker.WorkerLoop.AgentTotals` | internal/rpcworker/rpcworker.go:169-178 | what a write persists is the row as acquired plus the newest report |
| `Worker.WorkerLoop.Settle` | internal/rpcworker/rpcworker.go:362-413 | each settlement is one owner-guarded write of the merged metrics and counters; the session moves on whatever its outcome |
| `Worker.WorkerLoop.Proceed` | internal/rpcworker/rpcworker.go:523-709 | the acquired job is dispatched with its gate resolved, or completed where its branch or abandon flag says so |
| `Worker.WorkerLoop.Issue` | internal/rpcworker/rpcworker.go:656-760 | the phase's pending statement is issued, and its reply decides the next phase |
| `Jobs.JobRepo.AcquireJob` | internal/storage/postgres/job.go:48-103 | takes an acquirable, unheld, due row and returns it as written |
| `Jobs.JobRepo.RenewJobLease` | internal/storage/postgres/job.go:105-120 | extends the owner's lease and reports a requested abandon |
| `Jobs.JobRepo.ReleaseJob` | internal/storage/postgres/job.go:538-549 | clears owner and lease of the owner's row only |
| `Jobs.JobRepo.UpdateJobStatus` | internal/storage/postgres/job.go:122-134 | sets the status of the owner's row, whatever it was |
| `Jobs.JobRepo.UpdateJobMetrics` | internal/storage/postgres/job.go:611-625 | overwrites the agent metrics of the owner's row |
| `Jobs.JobRepo.FailJobWithMetrics` | internal/storage/postgres/job.go:136-155 | fails the owner's row with its metrics and counters |
| `Jobs.JobRepo.CompleteJobWithMetrics` | internal/storage/postgres/job.go:157-183 | completes the owner's row with its metrics and counters |
| `Jobs.JobRepo.DispatchJob` | internal/storage/postgres/job.go:507-536 | dispatches the owner's row unless already dispatched, and clears its gates |
| `Jobs.JobRepo.UpdateJobWithMetrics` | internal/storage/postgres/job.go:627-655 | advances the owner's row to its next operation, with its delay, and clears its gates |
| `Jobs.JobRepo.ParkForApproval` | internal/storage/postgres/job.go:281-317 | parks the owner's row on an approval gate with a deadline and no operation |
| `Jobs.JobRepo.ParkForInput` | internal/storage/postgres/job.go:398-438 | parks the owner's row on an input gate with a deadline and no operation |
| `Jobs.JobRepo.DecideApproval` | internal/storage/postgres/job.go:209-242 | decides the approval that is open under this id, and no other |
| `Jobs.JobRepo.SweepExpiredApprovals` | internal/storage/postgres/job.go:244-279 | rejects an open approval past its deadline |
| `Jobs.JobRepo.AnswerInput` | internal/storage/postgres/job.go:319-359 | answers the input that is open under this id |
| `Jobs.JobRepo.SweepExpiredInputs` | internal/storage/postgres/job.go:361-396 | times out an open input past its deadline |
| `Jobs.JobRepo.MarkAbandonRequested` | internal/storage/postgres/job.go:470-486 | flags a job that has not completed or failed, for the hold in force only |
| `Jobs.JobRepo.ClearAbandonRequested` | internal/storage/postgres/workflow.go:310-313 | clears the flag of the row in the slot |
| `Jobs.JobRepo.SweepAbandonedJobs` | internal/storage/postgres/job.go:440-468 | completes a flagged job that no live session runs |
| `Jobs.JobRepo.MarkOrphanedJobsFailed` | internal/storage/postgres/job.go:488-503 | fails a dispatched or running job whose lease is gone beyond the grace period, keeping its owner |
| `Jobs.JobRepo.RequeueJob` | internal/storage/postgres/job.go:575-589 | returns the failed job of this attempt to pending, unowned, one attempt up |
| `Jobs.JobRepo.ClaimFailedJob` | internal/storage/postgres/job.go:594-609 | marks the failed job of this attempt terminally failed, again if need be |
| `Jobs.JobRepo.DeleteTerminalJob` | internal/storage/postgres/scheduler.go:232-244 | deletes a terminal row only |
| `AgentMetrics.MergeAgentMetrics` | internal/metrics/metricshandler.go:202-241 | the loops over agents and tools, in any order, merge pointwise and skip nil entries |
| `AgentMetrics.SumAgent` | internal/metrics/metricshandler.go:216-241 | an agent already in the job has each emitted metric added, or carried over where absent |
| `AgentMetrics.AddToolCounts` | internal/metrics/metricshandler.go:222-241 | per-tool counts are summed, whatever the map's order |
| `AgentMetrics.MergeAdds` | internal/metrics/metricshandler.go:202-277 | a merged metric is the sum, absent counting as zero |
| `AgentMetrics.MergeNothing` | internal/metrics/metricshandler.go:202-241 | merging nothing changes nothing |
| `AgentMetrics.MergeAssociative` | internal/metrics/metricshandler.go:202-277 | merging in two steps or in one gives the same metrics, run times aside |
| `RunFolding.HandleAgentMetrics` | internal/metrics/metricshandler.go:32-145 | the snapshot is the sum over agents and the run's own counters, a metric is emitted exactly when someone emitted it, every total rises by the snapshot, histories and rolling window are appended and trimmed |
| `RunFolding.OneSummary` | internal/metrics/metricshandler.go:62-120 | a run has one snapshot, whatever order its agents are visited in |
| `RunFolding.SnapOfSummarizes` | internal/metrics/metricshandler.go:62-120 | and every run has one |
| `RunFolding.FoldAgents` | internal/metrics/metricshandler.go:59-120 | the agent loop in any order yields that sum, and totals that follow it |
| `RunFolding.CollectHistories` | internal/metrics/metricshandler.go:66-126 | exactly the touched agents' histories are written; the lookup fails only for a nil entry without history |
| `RunFolding.RowMetricsNeverPanic` | internal/metrics/metricshandler.go:122-126 | metrics read from a job row never hold such an entry |
| `RunFolding.AddRunAdds` | internal/metrics/metricshandler.go:59-120 | adding a run raises each total by what it reported and the run count by one |
| `RunFolding.ShareSplits` | internal/metrics/metricshandler.go:62-104 | the agents' sum does not depend on which agent is visited first |
| `RollingHistory.TrimmingKeepsTheTail` | internal/metrics/metricshandler.go:128-131 | append-and-trim keeps exactly the last runs of the untrimmed history |
| `RollingHistory.TrimmedKeepsAHundred` | internal/domain/workflow_policy.go:28-29 | a hundred of them, or all while there are fewer |
| `LifecyclePolicy.ResolvePolicy` | internal/lifecyclepolicy/engine.go:35-171 | a fired pause pauses; else the earliest fired cooldown is entered; else the earliest fired change of version is made; else nothing changes. The value returned is the winner's and reaches its threshold |
| `LifecyclePolicy.EvaluateRule` | internal/lifecyclepolicy/engine.go:47-150 | a rule fires exactly when its metric was emitted in the latest run and its window's or version's total is at least its threshold |
| `LifecyclePolicy.RollingTotal` | internal/lifecyclepolicy/engine.go:98-132 | the loop totals the last window runs that measured the metric, never reading an absent one |
| `LifecyclePolicy.FilterObserved` | internal/lifecyclepolicy/engine.go:98-104 | exactly the runs that measured the metric, in order |
| `LifecyclePolicy.OrderKeepsPriority` | internal/lifecyclepolicy/engine.go:152-178 | reordering or repeating rules keeps the winning priority |
| `LifecyclePolicy.WindowAgreesExactly` | internal/lifecyclepolicy/engine.go:98-132 | a window over the kept 100 runs sees the same runs as over all exactly when the kept ones fill it or no forgotten run measured the metric |
| `LifecyclePolicy.SteadyMetricAgrees` | internal/server/handlers/lifecycle.go:426-438 | for a validated window, a metric measured in each of the last window runs totals as if nothing was trimmed |
| `LifecyclePolicy.FailuresAgree` | internal/metrics/metricshandler.go:107-112 | failures, reported by every run, always do |
| `LifecyclePolicy.TrimmingNeverRaises` | internal/domain/workflow_policy.go:28-29 | for non-negative values trimming never raises a window's total |
| `WorkflowBook.StartEpochKeepsTotals` | internal/storage/postgres/workflow.go:249-260 | a new epoch leaves every epoch's totals, the rolling history and agent histories as they were |
| `WorkflowBook.PostBalances` | internal/storage/postgres/metrics.go:54-105 | posting a run on what is stored keeps the books equal to the emissions |
| `WorkflowBook.RunsCounted` | internal/metrics/metricshandler.go:57-60 | an epoch's run count is its number of emissions |
| `WorkflowBook.TotalsAreSums` | internal/metrics/metricshandler.go:59-120 | an epoch's total of a metric is the sum of what its emissions reported |
| `GateOrder.RunKeeps` | internal/scheduler/scheduler.go:331-495 | every step of every run keeps resolved and emitted at or below current, and every caller's memory in step |
| `GateOrder.TerminalLast` | internal/scheduler/scheduler.go:442-495 | a completed request's version is at most metrics_emitted_at, which is at most current_version, between any steps |
| `GateOrder.EmittedOnce` | internal/storage/postgres/metrics.go:54-66 | emitted versions strictly increase and never pass current_version: none twice |
| `GateOrder.ResolvedOnce` | internal/storage/postgres/lifecycle_resolver.go:110-152 | versions resolved by the policy strictly increase: none yields two actions |
| `GateOrder.ResolvedBeforeScheduled` | internal/scheduler/scheduler.go:526-600 | a new job appears only by scheduling, and only while lifecycle_last_resolved equals current_version |
| `RequestLife.WrittenJobsWereValidated` | internal/scheduler/scheduler.go:526-539 | in every run, the call that writes a job had found the workflow active and resolved at the version still current, for that request |
| `RequestLife.SlotTakenExactly` | internal/storage/postgres/scheduler.go:118-174 | a call's write takes the slot exactly when its request is unscheduled, nothing was applied since, and the slot is empty or, outside queue mode, holds an older pending unattempted job |
| `RequestLife.SlotEmptiedExactly` | internal/storage/postgres/scheduler.go:232-244 | the slot is emptied exactly by a call for the request in it that finds its job completed or failed |
| `RequestLife.SlotChangesByItsJob` | internal/storage/postgres/scheduler.go:118-174 | otherwise its job changes only by its own moves, or for a newer one |
| `RequestLife.RequestLifeIsLegal` | internal/storage/postgres/customer_request.go:48-258 | in every run a request's status changes only by the step that may give it that status from the one it had |
| `RequestLife.TerminalStays` | internal/storage/postgres/scheduler.go:393-458 | a terminal request stays terminal |
| `RequestLife.CallsBeginOnTheirJob` | internal/storage/postgres/scheduler.go:176-230 | a completing call begins on a completed job, a failing one on a failed job, of the request in the slot |
| `RequestLife.WorkflowStateIsLegal` | internal/storage/postgres/workflow.go:267-750 | the workflow's state changes only by the step that may bring it there from where it was |
| `RequestLife.ActivatesExactly` | internal/storage/postgres/workflow.go:515-533 | activation, by hand or at a cooldown's end, works from a pause and from a cooldown, and changes nothing else |
| `RequestLife.CreatesExactly` | internal/storage/postgres/customer_request.go:48-77 | a request is created exactly in an active workflow, as the next version |
| `RequestLife.VersionChangesStartFresh` | internal/storage/postgres/workflow.go:210-260 | a change of workflow version by configuration or policy starts its totals at nothing |
| `RequestLife.ResumeStartsFresh` | internal/storage/postgres/workflow.go:677-727 | so does a resume that changes it; one that does not leaves the books alone |
| `Holding.RunHolds` | internal/storage/postgres/workflow.go:287-324 | in every run a suspended workflow has a hold and nothing schedulable, and an interruption has no hold |
| `Holding.SuspendedOnlyDrains` | internal/scheduler/suspensionresolver.go:67-105 | while a workflow stays suspended, whatever runs was running when the stretch began |
| `Holding.NothingStaysFrozen` | internal/storage/postgres/workflow.go:638-672 | a frozen request always has a hold in force: every way a hold ends releases its requests |
| `Holding.ResolutionLeavesHoldsAlone` | internal/storage/postgres/lifecycle_resolver.go:140-160 | a policy resolution, however stale, neither suspends, disables nor releases a workflow |
| `Holding.FinalizedMeansDrained` | internal/storage/postgres/workflow.go:328-344 | when suspension ids are not reused, a finalized suspension has nothing running until released |
| `Holding.FinalizesSoundlyExactly` | internal/scheduler/suspensionresolver.go:67-105 | from any state of any run, every continuation that reuses no id finalizes soundly exactly when the state is sound and no tail that saw the hold in force idle would now find a request running |
| `Holding.ReusedIdFinalizesTooEarly` | internal/storage/postgres/workflow.go:328-344 | for every id, reusing it reaches a finalized suspension over a running request |
| `Removing.DeletedMeansTerminal` | internal/scheduler/deletionreconciler.go:67-87 | unless an interruption is acknowledged while deleting, a deleted workflow has only terminal requests, for good |
| `Removing.AcknowledgedDeletionLeavesARun` | internal/storage/postgres/workflow.go:733-750 | with such an acknowledgement a deleted workflow with a running request is reached |
| `Removing.AcknowledgementOutlivesDeletion` | internal/scheduler/deletionreconciler.go:67-87 | from every state in which an interrupted workflow is being deleted with nothing running, an acknowledgement before the tail's last step lets a new request outlive the deletion |
| `NoLostUpdate.RunKeepsBooks` | internal/scheduler/scheduler.go:331-495 | every step of an orderly run (one verdict per version, interruptions acknowledged over closed books, no ended row reset) keeps each caller's reads equal to what is stored until its version is emitted, and the slot of an open version taken or its workflow stopped |
| `NoLostUpdate.BooksBalance` | internal/storage/postgres/metrics.go:54-105 | in every orderly run, completions and teardowns alike, the stored totals, rolling history and agent histories are exactly what was emitted |
| `NoLostUpdate.WritesOverClosedBooks` | internal/storage/postgres/scheduler.go:118-174 | in it a job is written only when the version before it has been emitted |
| `NoLostUpdate.CompletionRunsAreOrderly` | internal/scheduler/scheduler.go:431-495 | with no teardown and no reset row, every run is orderly, whatever stale owners and operators do |
| `NoLostUpdate.EmissionsBuildOnStored` | internal/metrics/metricshandler.go:36-56 | a call about to emit through an open gate holds the totals and histories stored at that moment |
| `NoLostUpdate.TotalsCountEveryEmission` | internal/storage/postgres/metrics.go:68-90 | every epoch's run count is its number of emissions and every total the sum of what they reported |
| `Spend.RunCarriesItsReports` | internal/metrics/metricshandler.go:59-120 | the run a job row folds to carries, metric by metric, the last report of each acquisition of the row and the failures and rejections it counted |
| `Spend.RunKnows` | internal/storage/postgres/job.go:185-207 | in every run, each emission's run is empty or one the job row was moved to |
| `Spend.TotalsAreWhatSessionsReported` | internal/storage/postgres/metrics.go:68-90 | hence, where job rows move only through what sessions did to them, a version total is what the sessions behind its emissions reported |
| `GateChain.ChainedExactly` | internal/scheduler/lifecycleresolver.go:58-67 | in every run, resolved is at most emitted and emitted at most current after every step exactly when every acknowledgement and resume that takes effect finds emitted equal to current |
| `GateChain.GatesInOrder` | internal/scheduler/scheduler.go:526-539 | so it is in orderly runs whose suspension ids are not reused |
| `GateChain.OrderlyHonestCatchesUpClosed` | internal/storage/postgres/workflow.go:677-750 | in those every acknowledgement and resume finds the books closed |
| `GateChain.ReusedIdResolvesTooEarly` | internal/storage/postgres/workflow.go:677-705 | for every reused id, a run that resolves a version before it is emitted |
| `OwnRuns.EmissionsAreOwnExactlyWhenNotStale` | internal/scheduler/scheduler.go:442-468 | in orderly runs where no stale owner writes a completed row, an open gate is passed with the emitted request's own final metrics when the caller completes that request; any other caller is stale, its request already emitted |
| `LostMetrics.StaleCompletionCountsTwice` | internal/scheduler/scheduler.go:442-468 | a stale call emits its run again in place of the newer one, which can then never be emitted |
| `LostMetrics.StaleWriteOutdatesTheRun` | internal/storage/postgres/job.go:157-183 | a stale owner's write between reading the job and emitting leaves the call with metrics that are not the row's |
| `LostMetrics.EachConditionIsNeeded` | internal/scheduler/scheduler.go:331-495 | for each of the three conditions of an orderly run, a run that keeps the other two and loses an emission |
| `LostMetrics.AcknowledgedInterruptionLosesAnEmission` | internal/storage/postgres/workflow.go:730-750 | an interruption acknowledged over open books: two emissions succeed in one epoch and one is counted |
| `LostMetrics.TwoVerdictsLoseAnEmission` | internal/scheduler/scheduler.go:366-399 | a completed run that a stale owner fails, torn down, held and resumed: the same |
| `LostMetrics.ResetRowLosesAnEmission` | internal/storage/postgres/scheduler.go:149-157 | a completed row that a stale owner resets, replaced by a newer request: the same |
| `Completion.SettlerRunsTheCall` | internal/scheduler/scheduler.go:431-495 | the call taken alone, stopped anywhere, is the control plane's settler stage by stage |
| `Completion.CompletionSettles` | internal/scheduler/scheduler.go:431-495 | a call that gets through applies the version, closes the emission gate, resolves unless ruled out, clears the job and marks the request |
| `Completion.CompletionIdempotent` | internal/scheduler/scheduler.go:430-431 | repeating it changes nothing, whatever the policy would then decide |
| `Completion.CutBeforeEmission` | internal/scheduler/scheduler.go:442-465 | cut short before emission, the repeated call ends as an uninterrupted one |
| `Completion.CutAfterResolution` | internal/scheduler/scheduler.go:474-495 | cut short after resolution, so does it, with the decision already taken |
| `Completion.CallsConverge` | internal/scheduler/scheduler.go:402-495 | any number of calls cut short anywhere but between emission and resolution, then one that gets through, end as one uninterrupted call |
| `Completion.StrandsExactly` | internal/scheduler/scheduler.go:484-491 | a call leaves no job row for a sweep and an unmarked request exactly when it dies between deleting the row and marking the request |
| `Orphans.FinishableExactly` | internal/rpcworker/rpcworker.go:677-683 | in every run, a request in progress can still become terminal exactly when its job is in the slot or a call is settling it |
| `Orphans.LeftBehindExactly` | internal/storage/postgres/scheduler.go:118-174 | a step leaves it behind exactly when a newer request takes its slot before any call settles it, or its last call dies once the job is gone |
| `Orphans.FailedSendLeavesARequestBehind` | internal/rpcworker/rpcworker.go:701-709 | a failed send's reset reaches such a state |
| `Completion.CutBeforeResolution` | internal/scheduler/scheduler.go:462-479 | cut short in between, it decides on histories and totals that count the run twice |
| `Completion.RetryConvergesExactly` | internal/scheduler/scheduler.go:462-479 | and ends as an uninterrupted call exactly when that decision leaves the state and version the first one would have |
| `Completion.RetryPausesAnInnocentWorkflow` | internal/metrics/metricshandler.go:133-142 | and so can pause a workflow that an uninterrupted call leaves active |
| `ControlStore.WorkflowStore.CompleteRequest` | internal/scheduler/scheduler.go:431-495 | the calls in order, stopped anywhere, leave exactly that state; applied is reported only by a call that got through |
| `ControlStore.WorkflowStore.RecordRun` | internal/metrics/metricshandler.go:32-145 | reads the job row's metrics, runs the handler's loops over them, and emits against the state it read |
| `ControlStore.FoldRun` | internal/metrics/metricshandler.go:59-131 | the loops over a job row's metrics yield the row's one run, the raised totals, the touched histories and the trimmed window |
| `ControlStore.WorkflowStore.ReadJobMetrics` | internal/storage/postgres/job.go:185-207 | this request's row, or nothing |
| `ControlStore.WorkflowStore.Resolve` | internal/scheduler/lifecycleresolver.go:68-108 | the winning rule's goal, on the caller's own metrics, is applied against the caller's own read |
| `ControlStore.WorkflowStore.ApplyCompletedJob` | internal/storage/postgres/workflow.go:618-636 | advances current_version only upward, and the lifecycle only at the target |
| `ControlStore.WorkflowStore.EmitMetrics` | internal/storage/postgres/metrics.go:29-110 | behind the gate: totals row, rolling history and each touched agent's history; otherwise nothing |
| `ControlStore.WorkflowStore.UpsertHistories` | internal/storage/postgres/metrics.go:92-105 | the loop over agents writes exactly the touched histories |
| `ControlStore.WorkflowStore.TryApplyVersionResolution` | internal/storage/postgres/lifecycle_resolver.go:102-138 | once per version, on the expected workflow version, with a new epoch when it changes |
| `ControlStore.WorkflowStore.TryApplyStateResolution` | internal/storage/postgres/lifecycle_resolver.go:140-160 | once per version, never on a disabled or suspended workflow |
| `ControlStore.WorkflowStore.StartNewMetricsEpoch` | internal/storage/postgres/workflow.go:249-260 | an empty row numbered one past the version's last |
| `ControlStore.WorkflowStore.DeleteTerminalJob` | internal/storage/postgres/scheduler.go:232-244 | clears the slot of this request's terminal job only |
| `ControlStore.WorkflowStore.UpsertJobAndSchedule` | internal/storage/postgres/scheduler.go:118-174 | writes the job, over a pending unattempted one if need be, and marks the request scheduled together, exactly when every guard holds |
| `ControlStore.WorkflowStore.HasRunningRequest` | internal/storage/postgres/customer_request.go:161-171 | true exactly when a request is scheduled or in progress |
| `ControlStore.WorkflowStore.ScheduleRequest` | internal/scheduler/scheduler.go:541-622 | leaves a workflow that is not active, or not resolved, as it is; else writes, supercedes outside queue mode and marks the lifecycle |
| `ControlStore.SchedulingSettlesTheQueue` | internal/storage/postgres/scheduler.go:118-174 | a written schedule puts its request in the slot, with a replaced row's metrics kept; outside queue mode every older waiting request gives way, and no other request changes |
| `ControlStore.WorkflowStore.ReconcileSuspension` | internal/scheduler/suspensionresolver.go:69-105 | drops a hold taken over and releases its requests, else flags the job where asked, and finalizes this hold exactly when nothing runs |
| `ControlStore.WorkflowStore.AbortSuspension` | internal/storage/postgres/workflow.go:348-388 | drops this hold of a workflow no longer suspended and releases its requests |
| `ControlStore.WorkflowStore.FinalizeSuspended` | internal/storage/postgres/workflow.go:328-344 | finalizes this hold once, while the workflow is suspended |
| `ControlStore.WorkflowStore.ReconcileDeletion` | internal/scheduler/deletionreconciler.go:67-87 | abandons exactly the queue, and finalizes exactly when nothing runs, so with every request terminal |
| `Teardown.RepeatConverges` | internal/scheduler/scheduler.go:366-399 | repeating a failure's teardown reaches the uninterrupted outcome exactly when the first call did not die between deleting the job and marking the request |
| `Teardown.CrashesConverge` | internal/scheduler/scheduler.go:331-400 | any number of calls cut short elsewhere, then one that gets through, end where one call ends, metrics aside |
| `Teardown.InterruptsOnce` | internal/storage/postgres/workflow.go:642-672 | however often it is repeated, the workflow is interrupted at most once |
| `Teardown.ResumableIsRetried` | internal/scheduler/scheduler.go:349-364 | a resumable run failed with attempts below 20 goes back to pending, unowned, one attempt up, and nothing else changes |
| `Teardown.OthersAreInterrupted` | internal/scheduler/scheduler.go:366-399 | any other failed run leaves no job and its request failed; its workflow is interrupted, disabled and its metrics recorded, or left as it is if it had moved past it |
| `Teardown.MovedOnIsLeftAlone` | internal/scheduler/scheduler.go:366-374 | a row that is another's, gone, or no longer failed at that attempt is left alone |
| `Teardown.NotResumableKeepsAttempts` | internal/scheduler/scheduler.go:349-364 | over any calls, a run that is not resumable is never retried |
| `Teardown.ThroughReaches` | internal/scheduler/scheduler.go:349-399 | a call that gets through requeues, or interrupts the workflow, clears the job and fails the request, or leaves all alone |
| `Teardown.FailingScheduler.FailRequest` | internal/scheduler/scheduler.go:331-400 | the call in order, stopped anywhere, leaves exactly that state; applied exactly when it interrupted and got through |
| `Teardown.FailingScheduler.ApplyFailed` | internal/storage/postgres/workflow.go:642-672 | interrupts, disables, drops the hold and releases frozen requests together, only upward |
| `Teardown.FailingScheduler.RecordInterruptedMetrics` | internal/scheduler/scheduler.go:307-329 | emits behind the gate, or not at all |
| `Resume.Decide` | internal/lifecyclepolicy/engine.go:35-171 | the engine returns the one winning rule's goal |
| `Resume.SameStatements` | internal/storage/postgres/workflow.go:677-727 | on the columns both models keep, suspending, finalizing, resolving and resuming are the control plane's own statements |
| `Resume.ResumeAgreesExactly` | internal/service/lifecycle.go:357-391 | resume picks the state and version a resolution would have picked exactly when the workflow was active or the policy enters a state |
| `Resume.CooldownLastsAsOrdered` | internal/storage/postgres/lifecycle_resolver.go:76-100 | a cooldown a resolution orders ends exactly when its seconds are over |
| `Resume.OtherGoalsKeepTheCooldown` | internal/scheduler/lifecycleresolver.go:84-108 | a resolution that orders none keeps the end of a cooldown its caller read, or, changing the version, the one in place |
| `Resume.CooldownConserved` | internal/service/lifecycle.go:383-390 | over any sequence of holds and resumes the cooldown runs down by exactly the time served outside holds |
| `Resume.ResumeKeepsRemaining` | internal/service/lifecycle.go:383-390 | each resume leaves the cooldown the matching suspension found |
| `Resume.DroppedCooldownIsNotServed` | internal/storage/postgres/lifecycle_resolver.go:140-160 | a cooldown ordered during a hold is dropped; the resumed one is over at once exactly when none was running when the hold began |
| `Resume.WorkflowHolder.ResolveLifecyclePolicy` | internal/scheduler/lifecycleresolver.go:68-131 | applies the goal once per version; audits exactly an applied goal that moved what was read |
| `Resume.WorkflowHolder.SuspendWorkflow` | internal/storage/postgres/workflow.go:287-324 | holds an enabled workflow once, keeping the first request's time on a retarget |
| `Resume.WorkflowHolder.ResumeWorkflow` | internal/service/lifecycle.go:325-391 | restores the goal decided on an earlier read, on the matching finalized hold only, and resolves the current version |
| `Resume.ResolveResumeState` | internal/service/lifecycle.go:357-391 | the state, version and remaining cooldown the policy's goal asks for |
| `Resume.WorkflowHolder.RestoreFromSuspension` | internal/storage/postgres/workflow.go:677-705 | its guard, and the columns it restores, clears and catches up |
| `Resume.WorkflowHolder.TryApplyVersionResolution` | internal/storage/postgres/lifecycle_resolver.go:102-138 | its guard, and the columns it sets |
| `Resume.WorkflowHolder.TryApplyStateResolution` | internal/storage/postgres/lifecycle_resolver.go:140-160 | its guard, and the columns it sets |
| `RequestVersions.VersionsNameRequests` | internal/storage/postgres/customer_request.go:48-122 | over any interleaving of both create statements, every version from one to target_version names exactly one request |
| `RequestVersions.CreatesAgree` | internal/storage/postgres/customer_request.go:48-77 | creating a request by id is the control plane's creation by version |
| `RequestVersions.SettlementsAgree` | internal/storage/postgres/customer_request.go:210-258 | so is settling one |
| `RequestVersions.PeriodicKeepsOneOpen` | internal/storage/postgres/customer_request.go:84-122 | with only the periodic path creating, at most one request is open, the newest |
| `RequestVersions.PeriodicRequestsAreSpaced` | internal/storage/postgres/customer_request.go:84-122 | and each was created more than the gap after every earlier completion exactly when no settlement hits a request that is not the newest |
| `RequestVersions.RepeatedSettlementBreaksSpacing` | internal/storage/postgres/customer_request.go:210-258 | a repeated settlement breaks that spacing |
| `RequestVersions.CustomerRequests.CreateInvocationRequest` | internal/storage/postgres/customer_request.go:48-77 | allocates the next version and inserts, exactly when the workflow is active |
| `RequestVersions.CustomerRequests.CreateDuePeriodicRequest` | internal/storage/postgres/customer_request.go:84-122 | the same, exactly when also nothing is open and the last completion lies beyond the gap |
| `RequestVersions.CustomerRequests.LastCompletion` | internal/storage/postgres/customer_request.go:102-105 | the latest completion time, or none |
| `RequestVersions.CustomerRequests.AbandonQueuedRequests` | internal/storage/postgres/customer_request.go:134-157 | abandons exactly the named queued requests and no other |
| `RequestVersions.CustomerRequests.SettleRequest` | internal/storage/postgres/customer_request.go:210-258 | stamps status and completion, guarded by the id only |

## Left out

- Statements are atomic: how READ COMMITTED re-evaluates a guard after waiting for a row lock is not modelled.
- gRPC streams, channels, goroutines, tickers and logging: a session is a sequence of steps that chooses its events.
- Encoding, auth, tenants, pricing, audit reads, purge reconcilers and agent policies: straight-line plumbing, with no property across operations.
- Floating-point rounding and int32 overflow: costs and latencies are `real`, counts are `int`.
- Job contexts, results, failure reasons, run times: carried along, decide nothing.
- The sort of the rolling history by run time when it is read: taken as the order in which runs were appended.
- Unknown metric and action types in a policy: rules are of the known ones.
- Partition leases: the results hold for any number of schedulers.
- The strict queue-depth cap: the code counts and then inserts, so it is not promised.
- The choice of the next request to schedule: any request may be tried at any time.
- UpdateJob: no caller uses it.
- DeleteAgent: an agent's history is only ever appended to here.
- The control plane sees the job row as its phase, whether it ever ended, and its metrics, and lets it move in any way; pending and unattempted is the phase Waiting.
- NoLostUpdate.BooksBalance: stated for orderly runs; each of the three conditions is needed (LostMetrics.EachConditionIsNeeded), but a run may break one and come to no harm, as when an interrupted run had no metrics to emit.
- OwnRuns.EmissionsAreOwnExactlyWhenNotStale: stated for completing calls in orderly runs where no stale owner writes a completed row; a teardown's metrics are best-effort, since a second teardown may delete the row before the first has read it.
- GateChain.GatesInOrder: a sufficient condition; GateChain.ChainedExactly is the exact one.
- Holding.FinalizedMeansDrained: a condition on runs; Holding.FinalizesSoundlyExactly is the exact one on states.
- Removing.DeletedMeansTerminal: one direction only, since an acknowledgement does no harm where the deletion's tail looks again; Removing.AcknowledgementOutlivesDeletion gives the states from which it does.
- Spend.TotalsAreWhatSessionsReported: a row that a newer request replaces keeps the replaced run's metrics, so its own run does not start from an inserted row and is outside the hypothesis on the moves.
- Completion.RetryConvergesExactly: compares state and workflow version; the end of a cooldown is kept in Resume alone.
- ControlStore.WorkflowStore.Resolve: keeps no cooldown_until, which Resume.WorkflowHolder.ResolveLifecyclePolicy does.
- ControlStore.WorkflowStore.TryApplyStateResolution: keeps no cooldown_until, which Resume.WorkflowHolder.TryApplyStateResolution does.
- Resume.WorkflowHolder.RestoreFromSuspension: releases no frozen requests and starts no epoch, which WorkflowTables.RestoreFromSuspension does; Resume.SameStatements ties the two.
- Resume.WorkflowHolder.TryApplyVersionResolution: starts no metrics epoch, which ControlStore.WorkflowStore.TryApplyVersionResolution does.
- Worker.WorkerLoop.ReceiveBusy: an update with a wrong operation id still has its report recorded while busy, as in the code; an update with an unspecified status leaves the job running, as in the code.
- Teardown.CrashesConverge: excludes stale owners and operators acting between the calls, and the interrupted run's metrics, which are best-effort.

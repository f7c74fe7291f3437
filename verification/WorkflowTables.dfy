/**
  One workflow's rows (its workflows row, its requests, its job slot) and the single
  statements that change them (internal/storage/postgres/workflow.go, scheduler.go,
  metrics.go, lifecycle_resolver.go, customer_request.go). A statement whose guard fails
  changes nothing. A request is named by its version, unique within the workflow
  (module RequestVersions).
*/
module WorkflowTables {
  import opened Options
  import opened WorkflowBook
  import RunFolding
  import AgentMetrics

  datatype WorkflowState = Active | Paused | Cooldown | Disabled | Suspended

  /** The lifecycle states that guard something; every running or idle one is Ready. */
  datatype Lifecycle = Ready | Interrupted | Halted | Deleted

  datatype RequestStatus = Unscheduled | Frozen | Scheduled | InProgress | Completed | Failed | Superceded | Abandoned

  type Requests = map<nat, RequestStatus>

  predicate IsRunning(s: RequestStatus) { s in {Scheduled, InProgress} }

  predicate IsQueued(s: RequestStatus) { s in {Unscheduled, Frozen} }

  predicate IsTerminal(s: RequestStatus) { !IsRunning(s) && !IsQueued(s) }

  /** Waiting is pending and unattempted; Finished and Broken are the terminal job statuses. */
  datatype JobPhase = Waiting | Working | Finished | Broken

  predicate IsOver(p: JobPhase) { p in {Finished, Broken} }

  /** ended: the job has been terminal at least once. */
  datatype Job = Job(version: nat, phase: JobPhase, ended: bool, run: Run)

  datatype Workflow = Workflow(
    state: WorkflowState,
    lifecycle: Lifecycle,
    suspension: Option<nat>,     // suspension_id, set while suspension_requested_at is
    finalized: bool,             // suspension_finalized_at
    deleting: bool,              // deletion_requested_at
    target: nat,                 // target_version
    current: nat,                // current_version
    emitted: nat,                // metrics_emitted_at
    resolved: nat,               // lifecycle_last_resolved
    version: int,                // current_workflow_version
    book: Book)

  datatype Tables = Tables(wf: Workflow, requests: Requests, job: Option<Job>)

  /** A workflow as created: paused, nothing requested, nothing resolved. */
  function CreatedTables(version: int): Tables {
    Tables(Workflow(Paused, Ready, None, false, false, 0, 0, 0, 0, version, EMPTY_BOOK), map[], None)
  }

  predicate RuledOut(s: WorkflowState) { s in {Disabled, Suspended} }

  predicate NothingRunning(requests: Requests) {
    forall v :: v in requests ==> !IsRunning(requests[v])
  }

  predicate AllTerminal(requests: Requests) {
    forall v :: v in requests ==> IsTerminal(requests[v])
  }

  /** Every request in one status moves to another. */
  function Moved(requests: Requests, from: RequestStatus, to: RequestStatus): Requests {
    map v | v in requests :: if requests[v] == from then to else requests[v]
  }

  lemma NothingMoves(requests: Requests, from: RequestStatus, to: RequestStatus)
    requires forall v :: v in requests ==> requests[v] != from
    ensures Moved(requests, from, to) == requests
  {
  }

  // ----- requests and scheduling

  /** CreateInvocationRequest and CreateDuePeriodicRequest: only an active workflow takes new work. */
  function CreateRequest(t: Tables): Tables {
    if t.wf.state != Active then t
    else t.(wf := t.wf.(target := t.wf.target + 1), requests := t.requests[t.wf.target + 1 := Unscheduled])
  }

  /** validateWorkflowState. */
  predicate MaySchedule(wf: Workflow) {
    wf.state == Active && wf.resolved == wf.current
  }

  /**
    UpsertJobAndSchedule's guards: an unscheduled request, the validated version, a slot that is free or
    replaceable.
  */
  predicate MayWriteJob(t: Tables, v: nat, expected: nat, queueMode: bool) {
    && v in t.requests && t.requests[v] == Unscheduled
    && t.wf.current == expected
    && (t.job.None? || (!queueMode && t.job.value.version < v && t.job.value.phase == Waiting))
  }

  /** A replaced row keeps its metrics columns. */
  function WriteJob(t: Tables, v: nat, expected: nat, queueMode: bool): Tables {
    if MayWriteJob(t, v, expected, queueMode) then
      t.(job := Some(Job(v, Waiting, false, if t.job.Some? then t.job.value.run else EMPTY_RUN)),
         requests := t.requests[v := Scheduled])
    else t
  }

  function SupercedeOlder(t: Tables, v: nat): Tables {
    t.(requests := map r | r in t.requests ::
         if t.requests[r] in {Unscheduled, Scheduled} && r < v then Superceded else t.requests[r])
  }

  function MarkInProgress(t: Tables, v: nat): Tables {
    if v in t.requests && t.requests[v] == Scheduled then t.(requests := t.requests[v := InProgress]) else t
  }

  /** Whatever sessions and sweeps do to the job row, seen from here (module JobProtocol). */
  function MoveJob(t: Tables, phase: JobPhase, run: Run): Tables {
    if t.job.None? then t
    else t.(job := Some(t.job.value.(phase := phase, run := run, ended := t.job.value.ended || IsOver(phase))))
  }

  // ----- settling a request

  function ApplyCompletedJob(t: Tables, v: nat): Tables {
    if t.wf.current >= v then t else
    t.(wf := t.wf.(current := v, lifecycle := if t.wf.target == v then Ready else t.wf.lifecycle))
  }

  /** An interruption outranks a suspension, and releases its frozen requests. */
  function ApplyFailedJob(t: Tables, v: nat): Tables {
    if t.wf.current < v then
      t.(wf := t.wf.(current := v, lifecycle := Interrupted, state := Disabled, suspension := None, finalized := false),
         requests := Moved(t.requests, Frozen, Unscheduled))
    else t
  }

  function GetJobMetrics(t: Tables, v: nat): Run {
    if t.job.Some? && t.job.value.version == v then t.job.value.run else EMPTY_RUN
  }

  /** Gated on metrics_emitted_at, then everything the caller had computed. */
  function EmitMetrics(t: Tables, at: nat, k: Epoch, totals: RunFolding.Totals, rolling: seq<RunFolding.Snap>,
                       histories: map<string, seq<AgentMetrics.Agent>>, run: Run): Tables {
    if t.wf.emitted >= at then t
    else t.(wf := t.wf.(emitted := at, book := Post(t.wf.book, k, totals, rolling, histories, run)))
  }

  /** What the policy decided: keep the state the caller read, enter one, or change the workflow version. */
  datatype Decision = Keep | EnterPaused | EnterCooldown | ChangeVersion(version: int)

  predicate MayResolve(wf: Workflow, at: nat, expectedVersion: int, d: Decision) {
    wf.resolved < at && !RuledOut(wf.state) && (d.ChangeVersion? ==> wf.version == expectedVersion)
  }

  /** TryApplyVersionResolution and TryApplyStateResolution. */
  function Resolve(t: Tables, at: nat, readState: WorkflowState, expectedVersion: int, d: Decision): Tables {
    if !MayResolve(t.wf, at, expectedVersion, d) then t else
    match d
    case ChangeVersion(v) =>
      var book := if v != expectedVersion then StartEpoch(t.wf.book, v) else t.wf.book;
      t.(wf := t.wf.(resolved := at, version := v, book := book))
    case EnterPaused => t.(wf := t.wf.(resolved := at, state := Paused))
    case EnterCooldown => t.(wf := t.wf.(resolved := at, state := Cooldown))
    case Keep => t.(wf := t.wf.(resolved := at, state := readState))
  }

  function DeleteTerminalJob(t: Tables, v: nat): Tables {
    if t.job.Some? && t.job.value.version == v && IsOver(t.job.value.phase) then t.(job := None) else t
  }

  /** CompleteRequest and FailRequest of the request repository: no guard but the id. */
  function MarkRequest(t: Tables, v: nat, status: RequestStatus): Tables {
    if v in t.requests then t.(requests := t.requests[v := status]) else t
  }

  // ----- suspension, interruption, deletion, configuration

  predicate MaySuspend(wf: Workflow, id: nat) {
    wf.state != Disabled && !wf.finalized && (wf.suspension.None? || wf.suspension == Some(id))
  }

  /** MarkSuspensionRequested: hold the workflow and freeze its queue in one statement. */
  function MarkSuspension(t: Tables, id: nat): Tables {
    if MaySuspend(t.wf, id) then
      t.(wf := t.wf.(state := Suspended, suspension := Some(id)), requests := Moved(t.requests, Unscheduled, Frozen))
    else t
  }

  function FinalizeSuspended(t: Tables, id: nat): Tables {
    if t.wf.suspension == Some(id) && t.wf.state == Suspended && !t.wf.finalized
    then t.(wf := t.wf.(finalized := true, lifecycle := Halted)) else t
  }

  function AbortSuspension(t: Tables, id: nat): Tables {
    if t.wf.suspension == Some(id) && t.wf.state != Suspended then
      t.(wf := t.wf.(suspension := None, finalized := false), requests := Moved(t.requests, Frozen, Unscheduled))
    else t
  }

  /** What a resume may restore. */
  datatype ResumeState = ToActive | ToPaused | ToCooldown

  function StateOf(r: ResumeState): WorkflowState {
    match r case ToActive => Active case ToPaused => Paused case ToCooldown => Cooldown
  }

  /** RestoreFromSuspension: state and version are the caller's, recomputed from its own read. */
  function RestoreFromSuspension(t: Tables, id: nat, st: ResumeState, version: int, newEpoch: bool): Tables {
    if t.wf.suspension == Some(id) && t.wf.state == Suspended && t.wf.finalized then
      t.(wf := t.wf.(state := StateOf(st), version := version, lifecycle := Ready, resolved := t.wf.current,
                     suspension := None, finalized := false,
                     book := if newEpoch then StartEpoch(t.wf.book, version) else t.wf.book),
         requests := Moved(t.requests, Frozen, Unscheduled))
    else t
  }

  /** ResolveInterruptedWorkflow. */
  function Acknowledge(t: Tables): Tables {
    if t.wf.lifecycle != Interrupted then t
    else t.(wf := t.wf.(lifecycle := Ready, state := Active, resolved := t.wf.current))
  }

  function AbandonQueued(t: Tables, only: set<nat>): Tables {
    t.(requests := map v | v in t.requests :: if v in only && IsQueued(t.requests[v]) then Abandoned else t.requests[v])
  }

  function MarkDeletion(t: Tables): Tables {
    if t.wf.deleting then t else t.(wf := t.wf.(deleting := true, state := Disabled))
  }

  function FinalizeDeleted(t: Tables): Tables {
    t.(wf := t.wf.(lifecycle := Deleted))
  }

  function UpdateConfig(t: Tables, version: int): Tables {
    if version == t.wf.version then t else t.(wf := t.wf.(version := version, book := StartEpoch(t.wf.book, version)))
  }

  /** TryActivateWorkflow and ExpireCooldowns. */
  function Activate(t: Tables): Tables {
    if t.wf.state in {Paused, Cooldown} then t.(wf := t.wf.(state := Active)) else t
  }

  /** Lifecycle marks of running work, guarded or not: none of them sets a guarding state. */
  function MarkLifecycle(t: Tables): Tables {
    t.(wf := t.wf.(lifecycle := Ready))
  }
}

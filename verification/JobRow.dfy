/**
  The jobs row and the guarded statements that act on it
  (internal/storage/postgres/job.go, internal/storage/postgres/scheduler.go,
  internal/storage/postgres/workflow.go).

  Every statement is one SQL UPDATE or DELETE: Matches is its WHERE clause, Apply
  its SET clause. A statement whose guard fails changes nothing and reports that
  no row was affected.
*/
module JobRow {
  import opened Options
  import opened AgentMetrics

  /** The id a worker session draws for itself; it is the owner column's fencing value. */
  type SessionId = nat

  /** An operation name as a client supplies it. */
  type OpName = s: string | s != "" witness "invoke_entry"

  datatype Status =
    | Pending | Dispatched | Running | AwaitingNext
    | AwaitingApproval | Approved | Rejected
    | AwaitingInput | Answered | InputTimedOut
    | Completed | Failed | TerminalFailed

  /** What a resolved gate does: launch an operation, or finish the run. */
  datatype Branch = Launch(op: OpName, timeout: int) | Finish

  datatype ApprovalGate = ApprovalGate(onApprove: Branch, onReject: Branch)

  datatype InputGate = InputGate(onAnswer: Branch, onTimeout: Branch)

  /** The gate columns: the branches stored in job_metadata, and each gate's id and deadline. */
  datatype Gates = Gates(
    approval: Option<ApprovalGate>,
    input: Option<InputGate>,
    approvalId: Option<nat>,
    approvalDeadline: Option<int>,
    inputId: Option<nat>,
    inputDeadline: Option<int>)

  const NO_GATES := Gates(None, None, None, None, None, None)

  /** Workflow-level metrics of the run; rejections is None until an approval gate is consumed. */
  datatype RunCounters = RunCounters(failures: int, rejections: Option<int>)

  datatype Row = Row(
    status: Status,
    owner: Option<SessionId>,
    leaseUntil: Option<int>,
    attempts: nat,
    operation: string,
    timeout: int,
    dispatchAt: Option<int>,
    gates: Gates,
    agents: JobMetrics,
    counters: RunCounters,
    abandonRequested: bool)

  datatype Statement =
    // by a session, on the row it means to hold
    | Acquire(sid: SessionId, lease: int)
    | Renew(sid: SessionId, lease: int)
    | Release(sid: SessionId)
    | SetStatus(sid: SessionId, status: Status)
    | SaveMetrics(sid: SessionId, agents: JobMetrics)
    | FailRun(sid: SessionId, agents: JobMetrics, counters: RunCounters)
    | CompleteRun(sid: SessionId, agents: JobMetrics, counters: RunCounters)
    | Dispatch(sid: SessionId, op: string, timeout: int, agents: JobMetrics, counters: RunCounters)
    | Advance(sid: SessionId, op: string, timeout: int, delay: int, agents: JobMetrics, counters: RunCounters)
    | ParkApproval(sid: SessionId, gateId: nat, wait: int, approval: ApprovalGate, agents: JobMetrics,
        counters: RunCounters)
    | ParkInput(sid: SessionId, gateId: nat, wait: int, input: InputGate, agents: JobMetrics, counters: RunCounters)
    // by operators and sweeps
    | ResolveApproval(gateId: nat, approve: bool)
    | SweepApprovals
    | ResolveInput(gateId: nat)
    | SweepInputs
    | MarkAbandon
    | ClearAbandon
    | SweepAbandoned
    | SweepOrphans(grace: int)
    // by schedulers failing or finishing the request
    | Requeue(expected: nat)
    | Claim(expected: nat)
    | DeleteTerminal

  predicate Acquirable(s: Status) {
    s in {Pending, AwaitingNext, Approved, Rejected, Answered, InputTimedOut}
  }

  predicate Terminal(s: Status) {
    s in {Completed, Failed, TerminalFailed}
  }

  /** Nobody's, or a holder's whose lease has run out. */
  predicate Unheld(row: Row, now: int) {
    row.owner.None? || (row.leaseUntil.Some? && row.leaseUntil.value < now)
  }

  /** Statements whose guard is the owner column. */
  predicate OwnerGuarded(s: Statement) {
    s.Renew? || s.Release? || s.SetStatus? || s.SaveMetrics? || s.FailRun? || s.CompleteRun?
    || s.Dispatch? || s.Advance? || s.ParkApproval? || s.ParkInput?
  }

  /** Owner-guarded statements that overwrite the row's agent metrics. */
  predicate CarriesMetrics(s: Statement) {
    s.SaveMetrics? || s.FailRun? || s.CompleteRun? || s.Dispatch? || s.Advance? || s.ParkApproval? || s.ParkInput?
  }

  /** The WHERE clause. */
  predicate Matches(row: Row, s: Statement, now: int) {
    match s
    case Acquire(_, _) =>
      && Acquirable(row.status) && Unheld(row, now)
      && (row.dispatchAt.None? || row.dispatchAt.value <= now)
    case Dispatch(sid, _, _, _, _) => row.owner == Some(sid) && row.status != Dispatched
    case ResolveApproval(id, _) => row.status == AwaitingApproval && row.gates.approvalId == Some(id)
    case SweepApprovals => row.status == AwaitingApproval && row.gates.approvalDeadline.Some?
        && row.gates.approvalDeadline.value <= now
    case ResolveInput(id) => row.status == AwaitingInput && row.gates.inputId == Some(id)
    case SweepInputs => row.status == AwaitingInput && row.gates.inputDeadline.Some?
        && row.gates.inputDeadline.value <= now
    case MarkAbandon => !row.abandonRequested && row.status !in {Completed, Failed}
    case ClearAbandon => true
    case SweepAbandoned => row.abandonRequested && row.status !in {Completed, Failed, Dispatched, Running}
        && Unheld(row, now)
    case SweepOrphans(grace) =>
      && row.status in {Dispatched, Running}
      && (row.owner.None? || (row.leaseUntil.Some? && row.leaseUntil.value < now - grace))
    case Requeue(n) => row.status == Failed && row.attempts == n
    case Claim(n) => row.status in {Failed, TerminalFailed} && row.attempts == n
    case DeleteTerminal => Terminal(row.status)
    case _ => row.owner == Some(s.sid)
  }

  /** The SET clause; DeleteTerminal sets nothing, its row is dropped by the caller. */
  function Apply(row: Row, s: Statement, now: int): Row {
    match s
    case Acquire(sid, lease) => row.(owner := Some(sid), leaseUntil := Some(now + lease))
    case Renew(_, lease) => row.(leaseUntil := Some(now + lease))
    case Release(_) => row.(owner := None, leaseUntil := None)
    case SetStatus(_, st) => row.(status := st)
    case SaveMetrics(_, agents) => row.(agents := agents)
    case FailRun(_, agents, counters) => row.(status := Failed, agents := agents, counters := counters)
    case CompleteRun(_, agents, counters) => row.(status := Completed, agents := agents, counters := counters)
    case Dispatch(_, op, timeout, agents, counters) =>
      row.(status := Dispatched, operation := op, timeout := timeout, agents := agents, counters := counters,
          gates := NO_GATES)
    case Advance(_, op, timeout, delay, agents, counters) =>
      row.(status := AwaitingNext, operation := op, timeout := timeout, agents := agents, counters := counters,
          gates := NO_GATES,
           dispatchAt := if delay > 0 then Some(now + delay) else None)
    case ParkApproval(_, id, wait, gate, agents, counters) =>
      row.(status := AwaitingApproval, agents := agents, counters := counters, operation := "", timeout := 0,
           gates := row.gates.(approval := Some(gate), input := None, approvalId := Some(id),
               approvalDeadline := Some(now + wait)))
    case ParkInput(_, id, wait, gate, agents, counters) =>
      row.(status := AwaitingInput, agents := agents, counters := counters, operation := "", timeout := 0,
           gates := row.gates.(approval := None, input := Some(gate), inputId := Some(id),
               inputDeadline := Some(now + wait)))
    case ResolveApproval(_, approve) => row.(status := if approve then Approved else Rejected)
    case SweepApprovals => row.(status := Rejected)
    case ResolveInput(_) => row.(status := Answered)
    case SweepInputs => row.(status := InputTimedOut)
    case MarkAbandon => row.(abandonRequested := true)
    case ClearAbandon => row.(abandonRequested := false)
    case SweepAbandoned => row.(status := Completed)
    case SweepOrphans(_) => row.(status := Failed)
    case Requeue(_) => row.(status := Pending, owner := None, leaseUntil := None, attempts := row.attempts + 1)
    case Claim(_) => row.(status := TerminalFailed)
    case DeleteTerminal => row
  }

  /** The row as UpsertJobAndSchedule inserts it. */
  function Inserted(op: OpName, timeout: int): Row {
    Row(Pending, None, None, 0, op, timeout, None, NO_GATES, map[], RunCounters(0, None), false)
  }
}

/**
  The worker session's state machine (internal/rpcworker/rpcworker.go).

  A session is a sequential process with its own memory of the job it acquired. It
  alternates between local moves (Observe: a message, a timeout, a disconnect) and
  single statements on the jobs row (NextStatement), whose reply decides where it goes
  next (After). The memory may be stale: only the statement's guard meets the row.
*/
module WorkerSession {
  import opened Options
  import opened AgentMetrics
  import opened JobRow

  // ----- messages from the client

  datatype CancelReason = Unattributed | TimedOut | Suspension

  /** What a completed operation asks for next. */
  datatype NextStep =
    | RunNext(op: OpName, timeout: int, delay: int)
    | AskApproval(approvalId: nat, approvalWait: int, approval: ApprovalGate)
    | AskInput(inputId: nat, inputWait: int, input: InputGate)
    | RunDone

  datatype ClientStatus = Unspecified | InProgress | OpCompleted(failures: int, next: NextStep) | OpFailed | OpCancelled

  /** An operation update: whether it names the operation in flight, its running totals, its status. */
  datatype Update = Update(expectedId: bool, report: Snapshot, status: ClientStatus, reason: CancelReason)

  datatype Event =
    | LaunchSent | LaunchSendFails
    | Disconnect
    | NoAckInTime(cancelSent: bool)
    | NotAnUpdate
    | Message(update: Update)
    | StopRequested(cancelSent: bool)   // operation timeout, or a suspension's abandon signal
    | NoCancelAckInTime

  // ----- the session

  /** How a run, or the operation in flight, is being settled on the row. */
  datatype Settlement =
    | Failing
    | Completing
    | Advancing(op: OpName, timeout: int, delay: int)
    | ParkingApproval(approvalId: nat, approvalWait: int, approval: ApprovalGate)
    | ParkingInput(inputId: nat, inputWait: int, input: InputGate)

  datatype Phase =
    | Idle                  // ConnectedIdle, no job
    | Holding               // acquired, not yet dispatched
    | Sending               // dispatched, LaunchOperation about to be sent
    | Resetting             // the send failed, handing the row back
    | Waiting               // ConnectedWaiting
    | Acking                // acknowledged, marking the row running
    | Busy                  // ConnectedBusy
    | Reporting             // persisting an interim report
    | Cancelling            // CancelRequested
    | Settling(how: Settlement, failures: int, ends: bool)
    | Ended

  /** job is the row as acquired (with a gate's branch resolved into it); thisOp is the newest report. */
  datatype Session = Session(phase: Phase, job: Row, thisOp: Snapshot)

  /** What the session learns of a statement it issued. */
  datatype Reply = Hit | Miss | Error

  /** The phases in which the session works on an acquired job. */
  predicate Engaged(p: Phase) {
    !p.Idle? && !p.Ended?
  }

  /** The engaged phases after a successful dispatch. */
  predicate Launched(p: Phase) {
    Engaged(p) && !p.Holding?
  }

  function Fresh(): Session {
    Session(Idle, Inserted("invoke_entry", 0), map[])
  }

  // ----- resuming an acquired job

  datatype Plan = Panic | Skip | Finishing(job: Row) | Launching(job: Row)

  function RecordGateOutcome(job: Row, rejected: bool): Row {
    job.(counters := job.counters.(rejections := Some(IntValue(job.counters.rejections) + if rejected then 1 else 0)))
  }

  function TakeBranch(job: Row, b: Branch): Plan {
    match b
    case Launch(op, timeout) => Launching(job.(operation := op, timeout := timeout))
    case Finish => Finishing(job)
  }

  /** The dispatch decision; a gate column that is missing when its status says otherwise is a nil dereference. */
  function Resume(job: Row): Plan {
    if job.abandonRequested then Finishing(job) else
    match job.status
    case Approved => if job.gates.approval.None? then Panic
        else TakeBranch(RecordGateOutcome(job, false), job.gates.approval.value.onApprove)
    case Rejected => if job.gates.approval.None? then Panic
        else TakeBranch(RecordGateOutcome(job, true), job.gates.approval.value.onReject)
    case Answered => if job.gates.input.None? then Panic else TakeBranch(job, job.gates.input.value.onAnswer)
    case InputTimedOut => if job.gates.input.None? then Panic else TakeBranch(job, job.gates.input.value.onTimeout)
    case Pending => Launching(job)
    case AwaitingNext => Launching(job)
    case _ => Skip
  }

  /** The approval gate a Holding session is about to consume: Some(true) for a rejection. */
  function GateAtHand(c: Session): Option<bool> {
    if c.phase.Holding? && !c.job.abandonRequested && c.job.status == Approved then Some(false)
    else if c.phase.Holding? && !c.job.abandonRequested && c.job.status == Rejected then Some(true)
    else None
  }

  /** The input gate a Holding session is about to consume: Some(true) for an answer. */
  function InputAtHand(c: Session): Option<bool> {
    if c.phase.Holding? && !c.job.abandonRequested && c.job.status == Answered then Some(true)
    else if c.phase.Holding? && !c.job.abandonRequested && c.job.status == InputTimedOut then Some(false)
    else None
  }

  // ----- statements

  /** What every write of this job persists: the totals as acquired plus this operation's newest report. */
  function MetricsToWrite(c: Session): JobMetrics {
    Merge(c.job.agents, c.thisOp)
  }

  function CountersToWrite(c: Session, failures: int): RunCounters {
    c.job.counters.(failures := c.job.counters.failures + failures)
  }

  function SettleStatement(c: Session, sid: SessionId, how: Settlement, failures: int): Statement {
    var agents := MetricsToWrite(c);
    var counters := CountersToWrite(c, failures);
    match how
    case Failing => FailRun(sid, agents, counters)
    case Completing => CompleteRun(sid, agents, counters)
    case Advancing(op, timeout, delay) => Advance(sid, op, timeout, delay, agents, counters)
    case ParkingApproval(id, wait, gate) => ParkApproval(sid, id, wait, gate, agents, counters)
    case ParkingInput(id, wait, gate) => ParkInput(sid, id, wait, gate, agents, counters)
  }

  /** The statement the session issues from its phase, if the phase issues one. */
  function NextStatement(c: Session, sid: SessionId): Option<Statement> {
    match c.phase
    case Holding =>
      (match Resume(c.job)
       case Launching(job) => Some(Dispatch(sid, job.operation, job.timeout, MetricsToWrite(c), job.counters))
       case Finishing(job) => Some(CompleteRun(sid, MetricsToWrite(c), job.counters))
       case _ => None)
    case Resetting => Some(SetStatus(sid, Pending))
    case Acking => Some(SetStatus(sid, Running))
    case Reporting => Some(SaveMetrics(sid, MetricsToWrite(c)))
    case Settling(how, failures, _) => Some(SettleStatement(c, sid, how, failures))
    case _ => None
  }

  function To(c: Session, p: Phase): Session {
    c.(phase := p)
  }

  /** Where the session goes once its statement has been answered, refused or lost. */
  function After(c: Session, r: Reply): Session {
    match c.phase
    case Holding =>
      (match Resume(c.job)
       case Launching(job) => (match r case Hit => Session(Sending, job, c.thisOp) case Miss => To(c, Idle)
           case Error => To(c, Ended))
       case _ => To(c, Idle))
    case Resetting => To(c, Ended)
    case Acking => (match r case Hit => To(c, Busy) case Miss => To(c, Ended) case Error =>
        To(c, Settling(Failing, 0, true)))
    case Reporting => if r.Hit? then To(c, Busy) else To(c, Settling(Failing, 0, true))
    case Settling(_, _, ends) => To(c, if ends then Ended else Idle)
    case _ => c
  }

  // ----- local moves

  /** A report replaces its predecessor: it is a running total, not a delta. */
  function RecordSnapshot(c: Session, report: Snapshot): Session {
    if report == map[] then c else c.(thisOp := report)
  }

  function CompleteOperation(c: Session, failures: int, next: NextStep): Session {
    var how := match next
      case RunNext(op, timeout, delay) => Advancing(op, timeout, delay)
      case AskApproval(id, wait, gate) => ParkingApproval(id, wait, gate)
      case AskInput(id, wait, gate) => ParkingInput(id, wait, gate)
      case RunDone => Completing;
    To(c, Settling(how, failures, false))
  }

  /** A busy session takes any update's report before it checks the operation id. */
  function ObserveBusy(c: Session, u: Update): Session {
    var c := RecordSnapshot(c, u.report);
    if !u.expectedId then To(c, Settling(Failing, 0, true)) else
    match u.status
    case OpCompleted(failures, next) => CompleteOperation(c, failures, next)
    case OpFailed => To(c, Settling(Failing, 0, false))
    case OpCancelled => To(c, Settling(Failing, 0, false))
    case InProgress => if u.report == map[] then c else To(c, Reporting)
    case Unspecified => To(c, Idle)
  }

  function ObserveCancelling(c: Session, u: Update): Session {
    if !u.expectedId then To(c, Settling(Failing, 0, true)) else
    var c := RecordSnapshot(c, u.report);
    match u.status
    case OpCompleted(failures, next) => CompleteOperation(c, failures, next)
    case InProgress => c
    case Unspecified => To(c, Idle)
    case _ =>
      match u.reason
      case Suspension => To(c, Settling(Completing, 0, false))
      case TimedOut => To(c, Settling(Completing, 1, false))
      case Unattributed => To(c, Settling(Failing, 0, false))
  }

  function Observe(c: Session, e: Event): Session {
    match (c.phase, e)
    case (Sending, LaunchSent) => To(c, Waiting)
    case (Sending, LaunchSendFails) => To(c, Resetting)
    case (Waiting, Disconnect) => To(c, Ended)
    case (Waiting, NoAckInTime(cancelSent)) => To(c, if cancelSent then Ended else Settling(Failing, 0, true))
    case (Waiting, NotAnUpdate) => To(c, Settling(Failing, 0, true))
    case (Waiting, Message(u)) => To(c, if u.expectedId && u.status.InProgress? then Acking
        else Settling(Failing, 0, true))
    case (Busy, Message(u)) => ObserveBusy(c, u)
    case (Busy, StopRequested(cancelSent)) => To(c, if cancelSent then Cancelling else Settling(Failing, 0, true))
    case (Busy, Disconnect) => To(c, Settling(Failing, 0, true))
    case (Busy, NotAnUpdate) => To(c, Settling(Failing, 0, true))
    case (Cancelling, Message(u)) => ObserveCancelling(c, u)
    case (Cancelling, NoCancelAckInTime) => To(c, Settling(Failing, 0, true))
    case (Cancelling, Disconnect) => To(c, Settling(Failing, 0, true))
    case (Cancelling, NotAnUpdate) => To(c, Settling(Failing, 0, true))
    case _ => c
  }
}

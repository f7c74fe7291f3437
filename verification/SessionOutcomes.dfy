/**
  What a worker session makes of what it hears: for every message, timeout and disconnect, the
  statement it then issues on the jobs row, in the client's own terms
  (internal/rpcworker/rpcworker.go), and, over whole runs, whose report that statement carries.
*/
module SessionOutcomes {
  import opened Options
  import opened AgentMetrics
  import opened JobRow
  import opened WorkerSession
  import opened JobProtocol

  // ----- the newest report

  /** The latest non-empty report the session took since it last acquired the row. */
  function NewestReport(start: World, steps: seq<Step>, sid: SessionId): Snapshot
    decreases |steps|
  {
    if steps == [] then map[] else
    var front, last := steps[..|steps| - 1], steps[|steps| - 1];
    var w := ExecAll(start, front);
    var phase := SessionOf(w, sid).phase;
    if last.TryAcquire? && last.sid == sid && phase.Idle? && last.fate == Replied && Hits(w, Acquire(sid, last.lease))
    then map[]
    else if last.Notice? && last.sid == sid && last.event.Message? && last.event.update.report != map[]
            && (phase.Busy? || (phase.Cancelling? && last.event.update.expectedId)) then last.event.update.report
    else NewestReport(start, front, sid)
  }

  /** However many reports it took, what a session is about to write is the newest. */
  lemma {:induction false} ReportIsTheNewest(op: OpName, timeout: int, now: int, steps: seq<Step>, sid: SessionId)
    ensures SessionOf(ExecAll(Start(op, timeout, now), steps), sid).thisOp
            == NewestReport(Start(op, timeout, now), steps, sid)
    decreases |steps|
  {
    if steps != [] {
      ReportIsTheNewest(op, timeout, now, steps[..|steps| - 1], sid);
      StepTakesReport(Start(op, timeout, now), steps, sid);
    }
  }

  lemma StepTakesReport(start: World, steps: seq<Step>, sid: SessionId)
    requires steps != []
    requires SessionOf(ExecAll(start, steps[..|steps| - 1]), sid).thisOp
             == NewestReport(start, steps[..|steps| - 1], sid)
    ensures SessionOf(ExecAll(start, steps), sid).thisOp == NewestReport(start, steps, sid)
  {
    var last := steps[|steps| - 1];
    var w := ExecAll(start, steps[..|steps| - 1]);
    if last.Notice? && last.sid == sid {
      ObserveTakesReport(SessionOf(w, sid), last.event);
    } else if last.Write? && last.sid == sid {
      WriteKeepsReport(w, sid, last.fate);
    }
  }

  lemma ObserveTakesReport(c: Session, e: Event)
    ensures Observe(c, e).thisOp ==
            if e.Message? && e.update.report != map[] && (c.phase.Busy? || (c.phase.Cancelling? && e.update.expectedId))
            then e.update.report else c.thisOp
  {
  }

  lemma WriteKeepsReport(w: World, sid: SessionId, fate: Fate)
    ensures SessionOf(Exec(w, Write(sid, fate)), sid).thisOp == SessionOf(w, sid).thisOp
  {
  }

  // ----- what it writes

  /** The totals as acquired plus the newest report, of which this may be one. */
  function Spent(c: Session, report: Snapshot): JobMetrics {
    Merge(c.job.agents, if report == map[] then c.thisOp else report)
  }

  function Counted(c: Session, failures: int): RunCounters {
    RunCounters(c.job.counters.failures + failures, c.job.counters.rejections)
  }

  /** The statement a completed operation's next step asks for. */
  function Asked(sid: SessionId, next: NextStep, agents: JobMetrics, counters: RunCounters): Statement {
    match next
    case RunNext(op, timeout, delay) => Advance(sid, op, timeout, delay, agents, counters)
    case AskApproval(id, wait, gate) => ParkApproval(sid, id, wait, gate, agents, counters)
    case AskInput(id, wait, gate) => ParkInput(sid, id, wait, gate, agents, counters)
    case RunDone => CompleteRun(sid, agents, counters)
  }

  /**
    An update while the operation runs: what it completes is written as asked, a failure or a stranger's
    id fails the run.
  */
  lemma BusyWrites(c: Session, sid: SessionId, u: Update)
    requires c.phase.Busy?
    ensures var next, agents := NextStatement(Observe(c, Message(u)), sid), Spent(c, u.report);
            next == if !u.expectedId || u.status.OpFailed? || u.status.OpCancelled?
                then Some(FailRun(sid, agents, Counted(c, 0)))
                    else if u.status.OpCompleted?
                        then Some(Asked(sid, u.status.next, agents, Counted(c, u.status.failures)))
                    else if u.status.InProgress? && u.report != map[] then Some(SaveMetrics(sid, agents))
                    else None
  {
  }

  /** An answer to a cancel: a suspended run completes, one that timed out completes with a failure, any other fails. */
  lemma CancellingWrites(c: Session, sid: SessionId, u: Update)
    requires c.phase.Cancelling?
    ensures var next := NextStatement(Observe(c, Message(u)), sid);
            next == if !u.expectedId then Some(FailRun(sid, Spent(c, map[]), Counted(c, 0)))
                    else if u.status.OpCompleted?
                    then Some(Asked(sid, u.status.next, Spent(c, u.report), Counted(c, u.status.failures)))
                    else if u.status.InProgress? || u.status.Unspecified? then None
                    else if u.reason == Suspension then Some(CompleteRun(sid, Spent(c, u.report), Counted(c, 0)))
                    else if u.reason == TimedOut then Some(CompleteRun(sid, Spent(c, u.report), Counted(c, 1)))
                    else Some(FailRun(sid, Spent(c, u.report), Counted(c, 0)))
  {
  }

  /**
    A launched operation is running once its client says so; anything else it says fails the run, and
    silence is cancelled first.
  */
  lemma WaitingWrites(c: Session, sid: SessionId, e: Event)
    requires c.phase.Waiting?
    ensures var next, fails := NextStatement(Observe(c, e), sid), Some(FailRun(sid, Spent(c, map[]), Counted(c, 0)));
            match e
            case Message(u) => next == if u.expectedId && u.status.InProgress? then Some(SetStatus(sid, Running))
                else fails
            case NoAckInTime(cancelSent) => next == if cancelSent then None else fails
            case NotAnUpdate => next == fails
            case _ => next == None
  {
  }

  /** A lost client, a broken protocol or an unanswered cancel fails the run; asking it to stop writes nothing. */
  lemma LosingTheClientFails(c: Session, sid: SessionId, e: Event)
    requires c.phase.Busy? || c.phase.Cancelling?
    ensures var c', fails := Observe(c, e), Some(FailRun(sid, Spent(c, map[]), Counted(c, 0)));
            && (e.Disconnect? || e.NotAnUpdate? ==> NextStatement(c', sid) == fails)
            && (e.NoCancelAckInTime? && c.phase.Cancelling? ==> NextStatement(c', sid) == fails)
            && (e.StopRequested? && c.phase.Busy? ==>
                  if e.cancelSent then c'.phase.Cancelling?
                      && NextStatement(c', sid) == None else NextStatement(c', sid) == fails)
  {
  }

  /** Only a launch that could not be sent hands the row back. */
  lemma OnlyFailedSendsReset(c: Session, sid: SessionId, e: Event)
    requires !c.phase.Resetting?
    ensures NextStatement(Observe(c, e), sid) == Some(SetStatus(sid, Pending))
            <==> c.phase.Sending? && e.LaunchSendFails?
    ensures c.phase.Sending? && e.LaunchSent? ==> Observe(c, e).phase.Waiting?
  {
  }

  /** A job acquired with the abandon flag is completed with what it has, and never launched. */
  lemma AbandonedIsCompleted(c: Session, sid: SessionId)
    requires c.phase.Holding? && c.job.abandonRequested
    ensures NextStatement(c, sid) == Some(CompleteRun(sid, Spent(c, map[]), c.job.counters))
  {
  }
}

/**
  The session as rpcworker runs it: one object mutating its phase, its job and its
  newest report, and writing the jobs row through the repository. Its two methods are
  proved to be the session's part of the protocol's Notice and Write steps.
*/
module Worker {
  import opened Options
  import opened AgentMetrics
  import opened JobRow
  import opened WorkerSession
  import opened JobProtocol
  import Jobs

  /** Session and row after the session has issued its pending statement. */
  function Issued(c: Session, sid: SessionId, row: Option<Row>, now: int, fate: Fate): (Session, Option<Row>) {
    match NextStatement(c, sid)
    case None => (c, row)
    case Some(s) =>
      var reply := if fate != Replied then Error else if Jobs.Affected(row, s, now) then Hit else Miss;
      (WorkerSession.After(c, reply), if fate == Dropped then row else Jobs.Ran(row, s, now))
  }

  /** Issued is what the protocol's Write step does to its session and to the row. */
  lemma WriteIsIssued(w: World, sid: SessionId, fate: Fate)
    ensures var w' := Exec(w, Write(sid, fate));
            (SessionOf(w', sid), w'.row) == Issued(SessionOf(w, sid), sid, w.row, w.now, fate)
  {
  }

  /** Session and row after an idle session has tried to acquire it. */
  function Taken(c: Session, sid: SessionId, row: Option<Row>, now: int, lease: int, fate: Fate): (Session,
      Option<Row>) {
    var s := Acquire(sid, lease);
    if !c.phase.Idle? then (c, row)
    else if fate == Replied && Jobs.Affected(row, s, now)
        then (Session(Holding, Apply(row.value, s, now), map[]), Jobs.Ran(row, s, now))
    else (c, if fate == Dropped then row else Jobs.Ran(row, s, now))
  }

  /** Taken is what the protocol's TryAcquire step does to its session and to the row. */
  lemma TryAcquireIsTaken(w: World, sid: SessionId, lease: int, fate: Fate)
    ensures var w' := Exec(w, TryAcquire(sid, lease, fate));
            (SessionOf(w', sid), w'.row) == Taken(SessionOf(w, sid), sid, w.row, w.now, lease, fate)
  {
  }

  /** An operator's, a sweep's or a scheduler's statement, through the repository: the protocol's Outside step. */
  method Outside(jobs: Jobs.JobRepo, s: Statement, now: int, suspension: Option<nat>) returns (affected: bool)
    requires IsOutside(s) && (s.MarkAbandon? ==> suspension.Some?)
    modifies jobs
    ensures jobs.View() == Jobs.Ran(old(jobs.View()), s, now) && affected == Jobs.Affected(old(jobs.View()), s, now)
  {
    match s
    case ResolveApproval(id, approve) => affected := jobs.DecideApproval(now, id, approve);
    case SweepApprovals => affected := jobs.SweepExpiredApprovals(now);
    case ResolveInput(id) => affected := jobs.AnswerInput(now, id);
    case SweepInputs => affected := jobs.SweepExpiredInputs(now);
    case MarkAbandon => affected := jobs.MarkAbandonRequested(now, suspension, suspension.value);
    case ClearAbandon =>
      affected := jobs.present;
      jobs.ClearAbandonRequested(now);
    case SweepAbandoned => affected := jobs.SweepAbandonedJobs(now);
    case SweepOrphans(grace) => affected := jobs.MarkOrphanedJobsFailed(now, grace);
    case Requeue(n) => affected := jobs.RequeueJob(now, n);
    case Claim(n) => affected := jobs.ClaimFailedJob(now, n);
    case DeleteTerminal => affected := jobs.DeleteTerminalJob(now);
  }

  /** Outside is what the protocol's step of that name does to the row. */
  lemma OutsideIsItsStatement(w: World, s: Statement)
    requires IsOutside(s)
    ensures Exec(w, JobProtocol.Step.Outside(s)).row == Jobs.Ran(w.row, s, w.now)
    ensures Exec(w, JobProtocol.Step.Outside(s)).sessions == w.sessions
  {
  }

  class WorkerLoop {
    const sid: SessionId
    var phase: Phase
    var job: Row
    var thisOp: Snapshot

    function View(): Session
      reads this
    {
      Session(phase, job, thisOp)
    }

    constructor (sessionId: SessionId)
      ensures sid == sessionId && View() == Fresh()
    {
      sid := sessionId;
      phase, job, thisOp := Idle, Inserted("invoke_entry", 0), map[];
    }

    /** The idle loop's attempt: the row as acquired becomes the job, with nothing reported yet. */
    method TakeJob(jobs: Jobs.JobRepo, now: int, lease: int, fate: Fate)
      requires phase.Idle?
      modifies this, jobs
      ensures (View(), jobs.View()) == Taken(old(View()), sid, old(jobs.View()), now, lease, fate)
    {
      if fate == Dropped { return; }
      var acquired := jobs.AcquireJob(now, sid, lease);
      if acquired.Some? && fate == Replied {
        phase, job, thisOp := Holding, acquired.value, map[];
      }
    }

    /** The lease goroutine's tick: whether the lease was kept, and whether a suspension asks the run to stop. */
    method KeepLease(jobs: Jobs.JobRepo, now: int, lease: int) returns (kept: bool, abandon: bool)
      modifies jobs
      ensures jobs.View() == Jobs.Ran(old(jobs.View()), Renew(sid, lease), now)
      ensures kept == Jobs.Affected(old(jobs.View()), Renew(sid, lease), now)
      ensures abandon <==> kept && old(jobs.View()).value.abandonRequested
    {
      kept, abandon := jobs.RenewJobLease(now, sid, lease);
    }

    /** Its release, however late. */
    method DropLease(jobs: Jobs.JobRepo, now: int)
      modifies jobs
      ensures jobs.View() == Jobs.Ran(old(jobs.View()), Release(sid), now)
    {
      jobs.ReleaseJob(now, sid);
    }

    method RecordSnapshot(report: Snapshot)
      modifies this`thisOp
      ensures View() == WorkerSession.RecordSnapshot(old(View()), report)
    {
      if report != map[] {
        thisOp := report;
      }
    }

    method CompleteOperation(failures: int, next: NextStep)
      modifies this`phase
      ensures View() == WorkerSession.CompleteOperation(old(View()), failures, next)
    {
      match next
      case RunNext(op, timeout, delay) => phase := Settling(Advancing(op, timeout, delay), failures, false);
      case AskApproval(id, wait, gate) => phase := Settling(ParkingApproval(id, wait, gate), failures, false);
      case AskInput(id, wait, gate) => phase := Settling(ParkingInput(id, wait, gate), failures, false);
      case RunDone => phase := Settling(Completing, failures, false);
    }

    /** An update while the operation runs. */
    method ReceiveBusy(u: Update)
      requires phase.Busy?
      modifies this`phase, this`thisOp
      ensures View() == ObserveBusy(old(View()), u)
    {
      RecordSnapshot(u.report);
      if !u.expectedId {
        phase := Settling(Failing, 0, true);
        return;
      }
      match u.status
      case OpCompleted(failures, next) => CompleteOperation(failures, next);
      case OpFailed => phase := Settling(Failing, 0, false);
      case OpCancelled => phase := Settling(Failing, 0, false);
      case InProgress =>
        if u.report != map[] {
          phase := Reporting;
        }
      case Unspecified => phase := Idle;
    }

    /** An update after a cancel was sent. */
    method ReceiveCancelling(u: Update)
      requires phase.Cancelling?
      modifies this`phase, this`thisOp
      ensures View() == ObserveCancelling(old(View()), u)
    {
      if !u.expectedId {
        phase := Settling(Failing, 0, true);
        return;
      }
      RecordSnapshot(u.report);
      match u.status
      case OpCompleted(failures, next) => CompleteOperation(failures, next);
      case InProgress =>
      case Unspecified => phase := Idle;
      case _ =>
        match u.reason
        case Suspension => phase := Settling(Completing, 0, false);
        case TimedOut => phase := Settling(Completing, 1, false);
        case Unattributed => phase := Settling(Failing, 0, false);
    }

    /** The session's select: whatever arrives moves it within its own memory. */
    method Receive(e: Event)
      modifies this`phase, this`thisOp
      ensures View() == Observe(old(View()), e)
    {
      match phase
      case Sending =>
        match e {
          case LaunchSent => phase := Waiting;
          case LaunchSendFails => phase := Resetting;
          case _ =>
        }
      case Waiting =>
        match e {
          case Disconnect => phase := Ended;
          case NoAckInTime(cancelSent) => phase := if cancelSent then Ended else Settling(Failing, 0, true);
          case NotAnUpdate => phase := Settling(Failing, 0, true);
          case Message(u) => phase := if u.expectedId && u.status.InProgress? then Acking
              else Settling(Failing, 0, true);
          case _ =>
        }
      case Busy =>
        match e {
          case Message(u) => ReceiveBusy(u);
          case StopRequested(cancelSent) => phase := if cancelSent then Cancelling else Settling(Failing, 0, true);
          case Disconnect => phase := Settling(Failing, 0, true);
          case NotAnUpdate => phase := Settling(Failing, 0, true);
          case _ =>
        }
      case Cancelling =>
        match e {
          case Message(u) => ReceiveCancelling(u);
          case NoCancelAckInTime => phase := Settling(Failing, 0, true);
          case Disconnect => phase := Settling(Failing, 0, true);
          case NotAnUpdate => phase := Settling(Failing, 0, true);
          case _ =>
        }
      case _ =>
    }

    /** What every write of this job persists. */
    method AgentTotals() returns (merged: JobMetrics)
      ensures merged == MetricsToWrite(View())
    {
      merged := MergeAgentMetrics(thisOp, job.agents);
    }

    /** The settle closures: fail, complete, advance or park, each one owner-guarded write. */
    method Settle(jobs: Jobs.JobRepo, now: int, fate: Fate)
      requires phase.Settling?
      modifies this`phase, jobs
      ensures (View(), jobs.View()) == Issued(old(View()), sid, old(jobs.View()), now, fate)
    {
      var agents := AgentTotals();
      var counters := job.counters.(failures := job.counters.failures + phase.failures);
      if fate != Dropped {
        var updated;
        match phase.how
        case Failing => updated := jobs.FailJobWithMetrics(now, sid, agents, counters);
        case Completing => updated := jobs.CompleteJobWithMetrics(now, sid, agents, counters);
        case Advancing(op, timeout, delay) =>
            updated := jobs.UpdateJobWithMetrics(now, sid, op, timeout, delay, agents, counters);
        case ParkingApproval(id, wait, gate) =>
            updated := jobs.ParkForApproval(now, sid, id, wait, gate, agents, counters);
        case ParkingInput(id, wait, gate) => updated := jobs.ParkForInput(now, sid, id, wait, gate, agents, counters);
      }
      // the outcome of the write is not looked at: the session moves on either way
      phase := if phase.ends then Ended else Idle;
    }

    /** Dispatches the acquired job, or finishes it where its abandon flag or its gate says so. */
    method Proceed(jobs: Jobs.JobRepo, now: int, fate: Fate)
      requires phase.Holding?
      modifies this`phase, this`job, jobs
      ensures (View(), jobs.View()) == Issued(old(View()), sid, old(jobs.View()), now, fate)
    {
      var agents := AgentTotals();
      match Resume(job)
      case Launching(resumed) =>
        var dispatched := false;
        if fate != Dropped {
          dispatched := jobs.DispatchJob(now, sid, resumed.operation, resumed.timeout, agents, resumed.counters);
        }
        if fate != Replied {
          phase := Ended;
        } else if dispatched {
          phase, job := Sending, resumed;
        } else {
          phase := Idle;
        }
      case Finishing(resumed) =>
        if fate != Dropped {
          var updated := jobs.CompleteJobWithMetrics(now, sid, agents, resumed.counters);
        }
        phase := Idle;
      case _ =>
    }

    /** Issues the pending statement of the phase, if it has one. */
    method Issue(jobs: Jobs.JobRepo, now: int, fate: Fate)
      modifies this`phase, this`job, jobs
      ensures (View(), jobs.View()) == Issued(old(View()), sid, old(jobs.View()), now, fate)
    {
      if phase.Holding? {
        Proceed(jobs, now, fate);
      } else if phase.Settling? {
        Settle(jobs, now, fate);
      } else if phase.Resetting? {
        if fate != Dropped {
          var updated := jobs.UpdateJobStatus(now, sid, Pending);
        }
        phase := Ended;
      } else if phase.Acking? {
        var updated := false;
        if fate != Dropped {
          updated := jobs.UpdateJobStatus(now, sid, Running);
        }
        phase := if fate != Replied then Settling(Failing, 0, true) else if updated then Busy else Ended;
      } else if phase.Reporting? {
        var agents := AgentTotals();
        var owned := false;
        if fate != Dropped {
          owned := jobs.UpdateJobMetrics(now, sid, agents);
        }
        phase := if fate == Replied && owned then Busy else Settling(Failing, 0, true);
      }
    }
  }
}

/**
  The jobs row as storage updates it in place (internal/storage/postgres/job.go): one
  method per repository call, each reporting whether a row was affected. Every method
  is proved to run its statement of module JobRow: guard, assignments and nothing else.
*/
module Jobs {
  import opened Options
  import opened AgentMetrics
  import opened JobRow

  /** A statement's effect on a row that may be absent. */
  function Ran(row: Option<Row>, s: Statement, now: int): Option<Row> {
    if row.Some? && Matches(row.value, s, now) then
      if s.DeleteTerminal? then None else Some(Apply(row.value, s, now))
    else row
  }

  predicate Affected(row: Option<Row>, s: Statement, now: int) {
    row.Some? && Matches(row.value, s, now)
  }

  class JobRepo {
    var present: bool
    var status: Status
    var owner: Option<SessionId>
    var leaseUntil: Option<int>
    var attempts: nat
    var operation: string
    var timeout: int
    var dispatchAt: Option<int>
    var gates: Gates
    var agents: JobMetrics
    var counters: RunCounters
    var abandonRequested: bool

    function Columns(): Row
      reads this
    {
      Row(status, owner, leaseUntil, attempts, operation, timeout, dispatchAt, gates, agents, counters,
          abandonRequested)
    }

    function View(): Option<Row>
      reads this
    {
      if present then Some(Columns()) else None
    }

    constructor (op: OpName, timeoutSeconds: int)
      ensures View() == Some(Inserted(op, timeoutSeconds))
    {
      present, status, owner, leaseUntil, attempts := true, Pending, None, None, 0;
      operation, timeout, dispatchAt := op, timeoutSeconds, None;
      gates, agents, counters, abandonRequested := NO_GATES, map[], RunCounters(0, None), false;
    }

    method AcquireJob(now: int, sid: SessionId, lease: int) returns (job: Option<Row>)
      modifies this
      ensures View() == Ran(old(View()), Acquire(sid, lease), now)
      ensures job == if Affected(old(View()), Acquire(sid, lease), now) then View() else None
    {
      job := None;
      if present && status in {Pending, AwaitingNext, Approved, Rejected, Answered, InputTimedOut}
         && (owner.None? || (leaseUntil.Some? && leaseUntil.value < now))
         && (dispatchAt.None? || dispatchAt.value <= now) {
        owner, leaseUntil := Some(sid), Some(now + lease);
        job := Some(Columns());
      }
    }

    method RenewJobLease(now: int, sid: SessionId, lease: int) returns (renewed: bool, abandon: bool)
      modifies this
      ensures View() == Ran(old(View()), Renew(sid, lease), now)
              && renewed == Affected(old(View()), Renew(sid, lease), now)
      ensures abandon == (renewed && abandonRequested)
    {
      renewed, abandon := present && owner == Some(sid), false;
      if renewed {
        leaseUntil, abandon := Some(now + lease), abandonRequested;
      }
    }

    method ReleaseJob(now: int, sid: SessionId)
      modifies this
      ensures View() == Ran(old(View()), Release(sid), now)
    {
      if present && owner == Some(sid) {
        owner, leaseUntil := None, None;
      }
    }

    method UpdateJobStatus(now: int, sid: SessionId, st: Status) returns (updated: bool)
      modifies this
      ensures View() == Ran(old(View()), SetStatus(sid, st), now)
              && updated == Affected(old(View()), SetStatus(sid, st), now)
    {
      updated := present && owner == Some(sid);
      if updated {
        status := st;
      }
    }

    method UpdateJobMetrics(now: int, sid: SessionId, metrics: JobMetrics) returns (updated: bool)
      modifies this
      ensures View() == Ran(old(View()), SaveMetrics(sid, metrics), now)
              && updated == Affected(old(View()), SaveMetrics(sid, metrics), now)
    {
      updated := present && owner == Some(sid);
      if updated {
        agents := metrics;
      }
    }

    method FailJobWithMetrics(now: int, sid: SessionId, metrics: JobMetrics, run: RunCounters) returns (updated: bool)
      modifies this
      ensures View() == Ran(old(View()), FailRun(sid, metrics, run), now)
              && updated == Affected(old(View()), FailRun(sid, metrics, run), now)
    {
      updated := present && owner == Some(sid);
      if updated {
        status, agents, counters := Failed, metrics, run;
      }
    }

    /** UpdateJobStatusWithMetrics, which every caller uses to complete the run. */
    method CompleteJobWithMetrics(now: int, sid: SessionId, metrics: JobMetrics, run: RunCounters)
        returns (updated: bool)
      modifies this
      ensures View() == Ran(old(View()), CompleteRun(sid, metrics, run), now)
              && updated == Affected(old(View()), CompleteRun(sid, metrics, run), now)
    {
      updated := present && owner == Some(sid);
      if updated {
        status, agents, counters := Completed, metrics, run;
      }
    }

    method DispatchJob(now: int, sid: SessionId, op: string, opTimeout: int, metrics: JobMetrics, run: RunCounters)
        returns (updated: bool)
      modifies this
      ensures View() == Ran(old(View()), Dispatch(sid, op, opTimeout, metrics, run), now)
      ensures updated == Affected(old(View()), Dispatch(sid, op, opTimeout, metrics, run), now)
    {
      updated := present && owner == Some(sid) && status != Dispatched;
      if updated {
        status, operation, timeout, agents, counters := Dispatched, op, opTimeout, metrics, run;
        gates := NO_GATES;
      }
    }

    method UpdateJobWithMetrics(now: int, sid: SessionId, op: string, opTimeout: int, delay: int, metrics: JobMetrics,
        run: RunCounters) returns (updated: bool)
      modifies this
      ensures View() == Ran(old(View()), Advance(sid, op, opTimeout, delay, metrics, run), now)
      ensures updated == Affected(old(View()), Advance(sid, op, opTimeout, delay, metrics, run), now)
    {
      updated := present && owner == Some(sid);
      if updated {
        status, operation, timeout, agents, counters := AwaitingNext, op, opTimeout, metrics, run;
        dispatchAt := if delay > 0 then Some(now + delay) else None;
        gates := NO_GATES;
      }
    }

    method ParkForApproval(now: int, sid: SessionId, id: nat, wait: int, gate: ApprovalGate, metrics: JobMetrics,
        run: RunCounters) returns (parked: bool)
      modifies this
      ensures View() == Ran(old(View()), ParkApproval(sid, id, wait, gate, metrics, run), now)
      ensures parked == Affected(old(View()), ParkApproval(sid, id, wait, gate, metrics, run), now)
    {
      parked := present && owner == Some(sid);
      if parked {
        gates := gates.(approval := Some(gate), input := None, approvalId := Some(id),
            approvalDeadline := Some(now + wait));
        status, agents, counters, operation, timeout := AwaitingApproval, metrics, run, "", 0;
      }
    }

    method ParkForInput(now: int, sid: SessionId, id: nat, wait: int, gate: InputGate, metrics: JobMetrics,
        run: RunCounters) returns (parked: bool)
      modifies this
      ensures View() == Ran(old(View()), ParkInput(sid, id, wait, gate, metrics, run), now)
      ensures parked == Affected(old(View()), ParkInput(sid, id, wait, gate, metrics, run), now)
    {
      parked := present && owner == Some(sid);
      if parked {
        gates := gates.(approval := None, input := Some(gate), inputId := Some(id), inputDeadline := Some(now + wait));
        status, agents, counters, operation, timeout := AwaitingInput, metrics, run, "", 0;
      }
    }

    method DecideApproval(now: int, id: nat, approve: bool) returns (resolved: bool)
      modifies this
      ensures View() == Ran(old(View()), ResolveApproval(id, approve), now)
              && resolved == Affected(old(View()), ResolveApproval(id, approve), now)
    {
      resolved := present && gates.approvalId == Some(id) && status == AwaitingApproval;
      if resolved {
        status := if approve then Approved else Rejected;
      }
    }

    method SweepExpiredApprovals(now: int) returns (expired: bool)
      modifies this
      ensures View() == Ran(old(View()), SweepApprovals, now) && expired == Affected(old(View()), SweepApprovals, now)
    {
      expired := present && status == AwaitingApproval && gates.approvalDeadline.Some?
          && gates.approvalDeadline.value <= now;
      if expired {
        status := Rejected;
      }
    }

    method AnswerInput(now: int, id: nat) returns (resolved: bool)
      modifies this
      ensures View() == Ran(old(View()), ResolveInput(id), now)
              && resolved == Affected(old(View()), ResolveInput(id), now)
    {
      resolved := present && gates.inputId == Some(id) && status == AwaitingInput;
      if resolved {
        status := Answered;
      }
    }

    method SweepExpiredInputs(now: int) returns (expired: bool)
      modifies this
      ensures View() == Ran(old(View()), SweepInputs, now) && expired == Affected(old(View()), SweepInputs, now)
    {
      expired := present && status == AwaitingInput && gates.inputDeadline.Some? && gates.inputDeadline.value <= now;
      if expired {
        status := InputTimedOut;
      }
    }

    /** Guarded besides on the hold its caller names being the workflow's. */
    method MarkAbandonRequested(now: int, suspension: Option<nat>, id: nat) returns (marked: bool)
      modifies this
      ensures View() == if suspension == Some(id) then Ran(old(View()), MarkAbandon, now) else old(View())
      ensures marked <==> suspension == Some(id) && Affected(old(View()), MarkAbandon, now)
    {
      marked := present && !abandonRequested && status !in {Completed, Failed} && suspension == Some(id);
      if marked {
        abandonRequested := true;
      }
    }

    /** The part of MarkSuspensionRequested that un-cuts the run. */
    method ClearAbandonRequested(now: int)
      modifies this
      ensures View() == Ran(old(View()), ClearAbandon, now)
    {
      if present {
        abandonRequested := false;
      }
    }

    method SweepAbandonedJobs(now: int) returns (finished: bool)
      modifies this
      ensures View() == Ran(old(View()), SweepAbandoned, now) && finished == Affected(old(View()), SweepAbandoned, now)
    {
      finished := present && abandonRequested && status !in {Completed, Failed, Dispatched, Running}
                  && (owner.None? || (leaseUntil.Some? && leaseUntil.value < now));
      if finished {
        status := Completed;
      }
    }

    method MarkOrphanedJobsFailed(now: int, grace: int) returns (orphaned: bool)
      modifies this
      ensures View() == Ran(old(View()), SweepOrphans(grace), now)
              && orphaned == Affected(old(View()), SweepOrphans(grace), now)
    {
      orphaned := present && status in {Dispatched, Running}
                  && (owner.None? || (leaseUntil.Some? && leaseUntil.value < now - grace));
      if orphaned {
        status := Failed;
      }
    }

    method RequeueJob(now: int, expectedAttempts: nat) returns (requeued: bool)
      modifies this
      ensures View() == Ran(old(View()), Requeue(expectedAttempts), now)
              && requeued == Affected(old(View()), Requeue(expectedAttempts), now)
    {
      requeued := present && status == Failed && attempts == expectedAttempts;
      if requeued {
        status, owner, leaseUntil, attempts := Pending, None, None, attempts + 1;
      }
    }

    method ClaimFailedJob(now: int, expectedAttempts: nat) returns (owned: bool)
      modifies this
      ensures View() == Ran(old(View()), Claim(expectedAttempts), now)
              && owned == Affected(old(View()), Claim(expectedAttempts), now)
    {
      owned := present && status in {Failed, TerminalFailed} && attempts == expectedAttempts;
      if owned {
        status := TerminalFailed;
      }
    }

    method DeleteTerminalJob(now: int) returns (deleted: bool)
      modifies this
      ensures View() == Ran(old(View()), DeleteTerminal, now) && deleted == Affected(old(View()), DeleteTerminal, now)
    {
      deleted := present && status in {Completed, Failed, TerminalFailed};
      if deleted {
        present := false;
      }
    }
  }
}

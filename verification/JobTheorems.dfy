/**
  What every run of the job protocol keeps, for any number of sessions, sweeps and
  schedulers, any interleaving, lost leases, late releases and lost replies.
*/
module JobTheorems {
  import opened Options
  import opened AgentMetrics
  import opened JobRow
  import opened WorkerSession
  import opened JobProtocol
  import opened JobHistory
  import opened JobInvariant

  /** The world after a run from the row's insertion. */
  function After(op: OpName, timeout: int, now: int, steps: seq<Step>): World {
    ExecAll(Start(op, timeout, now), steps)
  }

  lemma Reached(op: OpName, timeout: int, now: int, steps: seq<Step>)
    ensures Inv(After(op, timeout, now, steps))
  {
    StartOk(op, timeout, now);
    RunKeeps(Start(op, timeout, now), steps);
  }

  /**
    Owner fencing: behind every owner-guarded statement that matched there is the same
    session's acquisition, and no session has acquired the row in between.
  */
  lemma OwnerFencing(op: OpName, timeout: int, now: int, steps: seq<Step>, i: nat)
    requires var log := After(op, timeout, now, steps).log; i < |log| && OwnerGuarded(log[i].stmt)
    ensures var log := After(op, timeout, now, steps).log;
            exists a :: 0 <= a < i && log[a].stmt.Acquire? && log[a].stmt.sid == log[i].stmt.sid
                        && forall k :: a < k < i ==> !log[k].stmt.Acquire?
  {
    Reached(op, timeout, now, steps);
    var log := After(op, timeout, now, steps).log;
    var a := LatestAcquisition(log, i);
  }

  lemma {:induction false} LatestAcquisition(log: History, i: nat) returns (a: nat)
    requires i <= |log| && LastAcquirer(log[..i]).Some?
    ensures a < i && log[a].stmt.Acquire? && Some(log[a].stmt.sid) == LastAcquirer(log[..i])
    ensures forall k :: a < k < i ==> !log[k].stmt.Acquire?
  {
    assert Newest(log[..i]) == log[i - 1] && Earlier(log[..i]) == log[..i - 1];
    if log[i - 1].stmt.Acquire? {
      a := i - 1;
    } else {
      a := LatestAcquisition(log, i - 1);
    }
  }

  /**
    Between two launches the row was handed back: requeued, advanced, its gate decided, or reset after a
    failed send.
  */
  lemma LaunchesAreGranted(op: OpName, timeout: int, now: int, steps: seq<Step>, i: nat, j: nat)
    requires var log := After(op, timeout, now, steps).log;
             i < j < |log| && log[i].stmt.Dispatch? && log[j].stmt.Dispatch?
    ensures var log := After(op, timeout, now, steps).log;
            exists k :: i < k < j && MarkOf(Launches, log[k]) == Grant
  {
    Reached(op, timeout, now, steps);
    GrantBetweenUses(Launches, After(op, timeout, now, steps).log, i, j);
  }

  /** Hence a run is launched at most once, plus once for every time it was handed back. */
  lemma LaunchAccounting(op: OpName, timeout: int, now: int, steps: seq<Step>)
    ensures var log := After(op, timeout, now, steps).log;
            CountMarks(Launches, Use, log) <= 1 + CountMarks(Launches, Grant, log)
  {
    Reached(op, timeout, now, steps);
    UsesWithinGrants(Launches, After(op, timeout, now, steps).log);
  }

  /**
    The row's agent metrics are the sum, over acquisitions, of the last report each one
    persisted: no report is counted twice and no session's spend is overwritten.
  */
  lemma MetricsConserved(op: OpName, timeout: int, now: int, steps: seq<Step>, agent: string, f: Field)
    requires After(op, timeout, now, steps).row.Some?
    ensures var w := After(op, timeout, now, steps);
            JobValue(w.row.value.agents, agent, f) == Reported(Ledger(w.log), agent, f)
  {
    Reached(op, timeout, now, steps);
    FoldedIsTheSum(Ledger(After(op, timeout, now, steps).log), agent, f);
  }

  /** A write that matches persists exactly its own newest report on top of all earlier acquisitions. */
  lemma WriteKeepsOthersSpend(op: OpName, timeout: int, now: int, steps: seq<Step>, sid: SessionId, fate: Fate,
      agent: string, f: Field)
    requires var w := After(op, timeout, now, steps); var next := NextStatement(SessionOf(w, sid), sid);
             next.Some? && CarriesMetrics(next.value) && fate != Dropped && Hits(w, next.value)
    ensures var w := After(op, timeout, now, steps); var w' := Exec(w, Write(sid, fate));
            && w'.row.Some?
            && JobValue(w'.row.value.agents, agent, f)
               == Reported(AllButLast(Ledger(w.log)), agent, f) + JobValue(Carried(SessionOf(w, sid).thisOp), agent, f)
  {
    Reached(op, timeout, now, steps);
    var w := After(op, timeout, now, steps);
    NextIsOwnerGuarded(SessionOf(w, sid), sid);
    WritePersistsMerge(w, sid, fate);
    FoldedIsTheSum(AllButLast(Ledger(w.log)), agent, f);
    MergeAdds(Folded(AllButLast(Ledger(w.log))), SessionOf(w, sid).thisOp, agent, f);
  }

  lemma WritePersistsMerge(w: World, sid: SessionId, fate: Fate)
    requires Inv(w) && fate != Dropped
    requires var next := NextStatement(SessionOf(w, sid), sid);
             next.Some? && CarriesMetrics(next.value) && Hits(w, next.value)
    ensures var w' := Exec(w, Write(sid, fate));
            w'.row.Some? && w'.row.value.agents == Merge(Folded(AllButLast(Ledger(w.log))), SessionOf(w, sid).thisOp)
  {
    var c := SessionOf(w, sid);
    var s := NextStatement(c, sid).value;
    NextIsOwnerGuarded(c, sid);
    EngagedIssues(c, sid);
    assert HolderRemembers(w.row.value, c, DigestOf(w.log));
  }

  lemma EngagedIssues(c: Session, sid: SessionId)
    requires NextStatement(c, sid).Some? && CarriesMetrics(NextStatement(c, sid).value)
    ensures Engaged(c.phase)
    ensures NextStatement(c, sid).value.agents == MetricsToWrite(c)
  {
  }

  /** Workflow-level counters: every persisted failure, and every rejected gate consumed, exactly once. */
  lemma CountersConserved(op: OpName, timeout: int, now: int, steps: seq<Step>)
    requires After(op, timeout, now, steps).row.Some?
    ensures var w := After(op, timeout, now, steps);
            && w.row.value.counters.failures == FailuresIn(w.log)
            && (w.row.value.counters.rejections.Some? <==> exists i :: 0 <= i < |w.log| && w.log[i].consumed.Some?)
            && IntValue(w.row.value.counters.rejections) == RejectionsIn(w.log)
  {
    Reached(op, timeout, now, steps);
    var w := After(op, timeout, now, steps);
    if !AnyConsumed(w.log) {
      NothingConsumed(w.log);
    }
  }

  /**
    A gate consumed as rejected was rejected or timed out, and one consumed as approved approved, by the
    latest decision.
  */
  lemma OutcomesAreTheDecisions(op: OpName, timeout: int, now: int, steps: seq<Step>, i: nat)
    requires var log := After(op, timeout, now, steps).log; i < |log| && log[i].consumed.Some?
    ensures var log := After(op, timeout, now, steps).log;
            exists j :: 0 <= j < i && DecidesApproval(log[j].stmt) && log[i].consumed == Some(Rejects(log[j].stmt))
                        && forall k :: j < k < i ==> !DecidesApproval(log[k].stmt)
  {
    Reached(op, timeout, now, steps);
    var j := LatestDecision(After(op, timeout, now, steps).log, i);
  }

  lemma {:induction false} LatestDecision(log: History, i: nat) returns (j: nat)
    requires i <= |log| && LastVerdict(log[..i]).Some?
    ensures j < i && DecidesApproval(log[j].stmt) && Some(Rejects(log[j].stmt)) == LastVerdict(log[..i])
    ensures forall k :: j < k < i ==> !DecidesApproval(log[k].stmt)
  {
    assert Newest(log[..i]) == log[i - 1] && Earlier(log[..i]) == log[..i - 1];
    if DecidesApproval(log[i - 1].stmt) {
      j := i - 1;
    } else {
      j := LatestDecision(log, i - 1);
    }
  }

  /** A gate is consumed at most once per decision, and decided at most once per parking. */
  lemma GatesAreSpentOnce(op: OpName, timeout: int, now: int, steps: seq<Step>)
    ensures var log := After(op, timeout, now, steps).log;
            && CountMarks(Consumptions, Use, log) <= CountMarks(ApprovalDecisions, Use, log)
            && CountMarks(ApprovalDecisions, Use, log) <= CountMarks(ApprovalDecisions, Grant, log)
            && CountMarks(InputDecisions, Use, log) <= CountMarks(InputDecisions, Grant, log)
    ensures var log := After(op, timeout, now, steps).log;
            forall i, j :: 0 <= i < j < |log| && log[i].consumed.Some? && log[j].consumed.Some?
                           ==> exists k :: i < k < j && DecidesApproval(log[k].stmt)
    ensures var log := After(op, timeout, now, steps).log;
            forall i, j :: 0 <= i < j < |log| && DecidesApproval(log[i].stmt) && DecidesApproval(log[j].stmt)
                           ==> exists k :: i < k < j && log[k].stmt.ParkApproval?
  {
    Reached(op, timeout, now, steps);
    var log := After(op, timeout, now, steps).log;
    UsesWithinGrants(Consumptions, log);
    UsesWithinGrants(ApprovalDecisions, log);
    UsesWithinGrants(InputDecisions, log);
    DecisionsAreGrants(log);
    forall i, j | 0 <= i < j < |log| && log[i].consumed.Some? && log[j].consumed.Some?
      ensures exists k :: i < k < j && DecidesApproval(log[k].stmt)
    {
      GrantBetweenUses(Consumptions, log, i, j);
    }
    forall i, j | 0 <= i < j < |log| && DecidesApproval(log[i].stmt) && DecidesApproval(log[j].stmt)
      ensures exists k :: i < k < j && log[k].stmt.ParkApproval?
    {
      GrantBetweenUses(ApprovalDecisions, log, i, j);
    }
  }

  lemma {:induction false} DecisionsAreGrants(log: History)
    ensures CountMarks(Consumptions, Grant, log) <= CountMarks(ApprovalDecisions, Use, log)
    decreases |log|
  {
    if log != [] {
      DecisionsAreGrants(Earlier(log));
    }
  }

  /** Every acquirable row says what to run, and no session can dereference a gate that is not there. */
  lemma AlwaysRunnable(op: OpName, timeout: int, now: int, steps: seq<Step>)
    ensures var w := After(op, timeout, now, steps);
            w.row.Some? ==>
              && (w.row.value.status in {Pending, AwaitingNext} ==> w.row.value.operation != "")
              && (w.row.value.status in {Approved, Rejected} ==> w.row.value.gates.approval.Some?)
              && (w.row.value.status in {Answered, InputTimedOut} ==> w.row.value.gates.input.Some?)
    ensures var w := After(op, timeout, now, steps);
            forall sid :: SessionOf(w, sid).phase.Holding? ==> !Resume(SessionOf(w, sid).job).Panic?
  {
    Reached(op, timeout, now, steps);
    var w := After(op, timeout, now, steps);
    forall sid | SessionOf(w, sid).phase.Holding?
      ensures !Resume(SessionOf(w, sid).job).Panic?
    {
      assert sid in w.sessions;
      assert Resumable(w.sessions[sid]);
    }
  }

  /** Once a failure has been requeued, nobody can requeue it or claim it again. */
  lemma RequeueSettlesAFailure(op: OpName, timeout: int, now: int, steps: seq<Step>, i: nat, j: nat)
    requires var log := After(op, timeout, now, steps).log;
             i < j < |log| && log[i].stmt.Requeue? && (log[j].stmt.Requeue? || log[j].stmt.Claim?)
    ensures var log := After(op, timeout, now, steps).log; log[i].stmt.expected < log[j].stmt.expected
  {
    Reached(op, timeout, now, steps);
    RequeuesGrow(After(op, timeout, now, steps).log, i, j);
  }

  lemma {:induction false} RequeuesGrow(log: History, i: nat, j: nat)
    requires i < j <= |log|
    ensures RequeuesIn(log[..j]) >= RequeuesIn(log[..i]) + if log[i].stmt.Requeue? then 1 else 0
    decreases j
  {
    assert Newest(log[..j]) == log[j - 1] && Earlier(log[..j]) == log[..j - 1];
    if i < j - 1 {
      RequeuesGrow(log, i, j - 1);
    }
  }

  /** The attempts column counts the requeues and stops at the limit, so a poisonous run is retried finitely often. */
  lemma AttemptsBounded(op: OpName, timeout: int, now: int, steps: seq<Step>)
    ensures var w := After(op, timeout, now, steps);
            w.row.Some? ==> w.row.value.attempts == RequeuesIn(w.log) <= 20
  {
    Reached(op, timeout, now, steps);
  }
}

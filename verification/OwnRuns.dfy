/**
  Whose metrics an emission carries. EmitMetrics is gated on the version its caller read,
  not on the version its caller completes: a call that emits for the request it completes
  carries that request's own final metrics; one that emits for a newer version carries the
  older run's, and closes the gate on the newer one.
*/
module OwnRuns {
  import opened Options
  import opened WorkflowBook
  import opened WorkflowTables
  import opened ControlPlane
  import opened GateOrder
  import opened NoLostUpdate

  // ----- the invariant

  predicate HasFinished(t: Tables, v: nat) {
    HasJob(t, v) && t.job.value.phase == Finished
  }

  predicate MayEmit(s: Settler) {
    s.stage in {Applying, ReadingJob, ReadingWorkflow, ReadingTotals, ReadingAgents, Emitting}
  }

  predicate HasRun(s: Settler) { s.stage in {ReadingWorkflow, ReadingTotals, ReadingAgents, Emitting} }

  /** Until its version is emitted, a completing call's job is in place, with the metrics the call read. */
  predicate OwnRun(s: Settler, t: Tables) {
    !s.failing && MayEmit(s) && t.wf.emitted < s.version ==>
      && t.wf.current <= s.version && HasFinished(t, s.version)
      && (HasRun(s) ==> s.run == t.job.value.run)
  }

  /** While a version is open, no other version's job is in the slot. */
  predicate Slotted(t: Tables) {
    Open(t.wf) && t.job.Some? ==> t.job.value.version == t.wf.current
  }

  ghost predicate OwnInv(p: Plane) {
    && BookInv(p) && Slotted(p.tables)
    && (forall pid :: pid in p.settlers ==> OwnRun(p.settlers[pid], p.tables))
  }

  /** No stale owner writes a completed row. */
  predicate Quiet(t: Tables, step: Step) {
    step.Operator? && step.op.OpJobMoves? && t.job.Some? && t.job.value.phase == Finished
    ==> step.op.phase == Finished && step.op.run == t.job.value.run
  }

  // ----- what a step does to a completed job

  /** A completed job that is not emitted yet stays as it is. */
  predicate Preserved(t: Tables, t': Tables, v: nat) {
    HasFinished(t, v) && t'.wf.emitted < v ==> HasFinished(t', v) && t'.job.value.run == t.job.value.run
  }

  lemma OtherStaysOwn(s: Settler, t: Tables, t': Tables)
    requires OwnRun(s, t) && t.wf.emitted <= t.wf.current && Respects(t, t') && Preserved(t, t', s.version)
    ensures OwnRun(s, t')
  {
  }

  /** The job of a version that is not emitted is never deleted by another verdict. */
  lemma SettlerPreserves(t: Tables, settlers: map<Pid, Settler>, s: Settler, d: Decision, v: nat)
    requires SettlerReady(t, settlers, s) && CompletedBySomeone(settlers, v)
    ensures Preserved(t, SettlerTables(t, s, d), v)
  {
  }

  lemma SettlerSlots(t: Tables, settlers: map<Pid, Settler>, s: Settler, d: Decision)
    requires SettlerReady(t, settlers, s) && Slotted(t)
    ensures Slotted(SettlerTables(t, s, d))
  {
  }

  lemma SettlerStaysOwn(t: Tables, settlers: map<Pid, Settler>, s: Settler, d: Decision)
    requires SettlerReady(t, settlers, s) && OwnRun(s, t) && Respects(t, SettlerTables(t, s, d))
    requires Preserved(t, SettlerTables(t, s, d), s.version)
    ensures OwnRun(SettlerNext(t, s), SettlerTables(t, s, d))
  {
    OtherStaysOwn(s, t, SettlerTables(t, s, d));
  }

  lemma OtherSettlersStayOwn(p: Plane, pid: Pid, d: Decision, q: Pid)
    requires OwnInv(p) && pid in p.settlers && q in p.settlers
    requires SettlerReady(p.tables, p.settlers, p.settlers[pid])
    requires Respects(p.tables, SettlerTables(p.tables, p.settlers[pid], d))
    ensures OwnRun(p.settlers[q], SettlerTables(p.tables, p.settlers[pid], d))
    ensures !p.settlers[q].failing
            ==> Preserved(p.tables, SettlerTables(p.tables, p.settlers[pid], d), p.settlers[q].version)
  {
    if !p.settlers[q].failing {
      assert CompletedBySomeone(p.settlers, p.settlers[q].version);
      SettlerPreserves(p.tables, p.settlers, p.settlers[pid], d, p.settlers[q].version);
      OtherStaysOwn(p.settlers[q], p.tables, SettlerTables(p.tables, p.settlers[pid], d));
    }
  }

  lemma SettlerIsReady(p: Plane, pid: Pid)
    requires BookInv(p) && pid in p.settlers
    ensures SettlerReady(p.tables, p.settlers, p.settlers[pid])
  {
    assert SettlerInOrder(p.settlers[pid], p.tables.wf.current, p.tables.wf.emitted);
    assert SettlerKept(p.settlers[pid], p.tables);
  }

  lemma SettleStaysOwn(p: Plane, pid: Pid, d: Decision)
    requires OwnInv(p) && pid in p.settlers && BookInv(Settle(p, pid, d))
    ensures OwnInv(Settle(p, pid, d))
  {
    var s, t' := p.settlers[pid], SettlerTables(p.tables, p.settlers[pid], d);
    SettlerIsReady(p, pid);
    SettlerKeepsTables(p.tables, p.settlers, s, d);
    SettlerSlots(p.tables, p.settlers, s, d);
    forall q | q in p.settlers
      ensures OwnRun(p.settlers[q], t')
    {
      OtherSettlersStayOwn(p, pid, d, q);
    }
    if !s.failing {
      OtherSettlersStayOwn(p, pid, d, pid);
      SettlerStaysOwn(p.tables, p.settlers, s, d);
    }
  }

  /** Steps that move no settler leave the slot, and whatever is completed in it. */
  predicate Settles(step: Step) {
    step.Proceed? || step.BeginComplete? || step.BeginFail? || step.GiveUpMetrics? || step.DeleteFails? || step.Crash?
  }

  lemma OperatePreserves(t: Tables, op: Operation, v: nat)
    requires Quiet(t, Operator(op))
    ensures Preserved(t, Operate(t, op), v) && (Slotted(t) ==> Slotted(Operate(t, op)))
  {
  }

  lemma WritePreserves(p: Plane, pid: Pid, queueMode: bool, v: nat)
    requires BookInv(p)
    ensures Preserved(p.tables, Exec(p, Write(pid, queueMode)).tables, v)
    ensures Slotted(p.tables) ==> Slotted(Exec(p, Write(pid, queueMode)).tables)
  {
    if Exec(p, Write(pid, queueMode)) != p {
      assert SchedulingInOrder(p.schedulings[pid], p.tables.wf.current, p.tables.wf.resolved);
      WritesOverClosedBooks(p.tables, p.settlers, p.schedulings[pid], queueMode);
    }
  }

  lemma StepPreserves(p: Plane, step: Step, v: nat)
    requires BookInv(p) && Quiet(p.tables, step) && !Settles(step)
    ensures Preserved(p.tables, Exec(p, step).tables, v)
    ensures Slotted(p.tables) ==> Slotted(Exec(p, step).tables)
  {
    match step
    case Operator(op) => OperatePreserves(p.tables, op, v);
    case Write(pid, q) => WritePreserves(p, pid, q, v);
    case _ =>
  }

  lemma StepRespects(p: Plane, step: Step)
    requires BookInv(p) && Orderly(p, step) && !Settles(step)
    ensures Respects(p.tables, Exec(p, step).tables)
  {
    Unchanged(p.tables);
    match step
    case Operator(op) => OperateKeeps(p.tables, op);
    case Write(pid, q) => WriteRespects(p, pid, q);
    case _ => if IsTail(step) { TailIsItsEffect(p, step); TailKeepsTables(p.tables, EffectOf(p, step)); }
  }

  lemma WriteRespects(p: Plane, pid: Pid, queueMode: bool)
    requires BookInv(p)
    ensures Respects(p.tables, Exec(p, Write(pid, queueMode)).tables)
  {
    Unchanged(p.tables);
    if Exec(p, Write(pid, queueMode)) != p {
      assert SchedulingInOrder(p.schedulings[pid], p.tables.wf.current, p.tables.wf.resolved);
      WriteKeepsTables(p.tables, p.settlers, p.schedulings[pid], queueMode);
    }
  }

  lemma SettlersLeftAlone(p: Plane, step: Step)
    requires !Settles(step)
    ensures Exec(p, step).settlers == p.settlers
  {
  }

  lemma TableStepStaysOwn(p: Plane, step: Step)
    requires OwnInv(p) && Orderly(p, step) && Quiet(p.tables, step) && !Settles(step) && BookInv(Exec(p, step))
    ensures OwnInv(Exec(p, step))
  {
    StepRespects(p, step);
    SettlersLeftAlone(p, step);
    StepPreserves(p, step, 0);
    forall pid | pid in p.settlers
      ensures OwnRun(p.settlers[pid], Exec(p, step).tables)
    {
      StepPreserves(p, step, p.settlers[pid].version);
      OtherStaysOwn(p.settlers[pid], p.tables, Exec(p, step).tables);
    }
  }

  /** A completing call begins on a completed job that is in place. */
  lemma BeginStaysOwn(p: Plane, pid: Pid, failing: bool)
    requires OwnInv(p) && BookInv(Begin(p, pid, failing))
    ensures OwnInv(Begin(p, pid, failing))
  {
  }

  lemma SkipStaysOwn(p: Plane, pid: Pid, stage: Stage)
    requires OwnInv(p) && pid in p.settlers && stage in {Deleting, Marking, Gone}
    requires BookInv(p.(settlers := p.settlers[pid := p.settlers[pid].(stage := stage)]))
    ensures OwnInv(p.(settlers := p.settlers[pid := p.settlers[pid].(stage := stage)]))
  {
  }

  lemma CutStaysOwn(p: Plane, step: Step)
    requires OwnInv(p) && IsCut(step) && BookInv(Exec(p, step))
    ensures OwnInv(Exec(p, step))
  {
    CutMovesOneStage(p, step);
    if Exec(p, step) != p {
      SkipStaysOwn(p, step.pid, CutStage(step));
    }
  }

  lemma ProceedStaysOwn(p: Plane, pid: Pid, d: Decision)
    requires OwnInv(p) && BookInv(Exec(p, Proceed(pid, d)))
    ensures OwnInv(Exec(p, Proceed(pid, d)))
  {
    if pid in p.settlers {
      assert Exec(p, Proceed(pid, d)) == Settle(p, pid, d);
      SettleStaysOwn(p, pid, d);
    } else {
      assert Exec(p, Proceed(pid, d)) == p;
    }
  }

  lemma TakingUpStaysOwn(p: Plane, pid: Pid, failing: bool, step: Step)
    requires OwnInv(p) && step == (if failing then BeginFail(pid) else BeginComplete(pid)) && BookInv(Exec(p, step))
    ensures OwnInv(Exec(p, step))
  {
    assert Exec(p, step) == Begin(p, pid, failing);
    BeginStaysOwn(p, pid, failing);
  }

  lemma StepStaysOwn(p: Plane, step: Step)
    requires OwnInv(p) && Orderly(p, step) && Quiet(p.tables, step)
    ensures OwnInv(Exec(p, step))
  {
    StepKeepsBooks(p, step);
    if IsCut(step) {
      CutStaysOwn(p, step);
    } else if step.Proceed? {
      ProceedStaysOwn(p, step.pid, step.decision);
    } else if Settles(step) {
      TakingUpStaysOwn(p, step.pid, step.BeginFail?, step);
    } else {
      TableStepStaysOwn(p, step);
    }
  }

  // ----- what every such run shows

  predicate QuietRun(p: Plane, steps: seq<Step>)
    decreases |steps|
  {
    steps != [] ==>
      var front, last := steps[..|steps| - 1], steps[|steps| - 1];
      QuietRun(p, front) && Orderly(ExecAll(p, front), last) && Quiet(ExecAll(p, front).tables, last)
  }

  lemma {:induction false} RunStaysOwn(p: Plane, steps: seq<Step>)
    requires OwnInv(p) && QuietRun(p, steps)
    ensures OwnInv(ExecAll(p, steps))
    decreases |steps|
  {
    if steps != [] {
      RunStaysOwn(p, steps[..|steps| - 1]);
      StepStaysOwn(ExecAll(p, steps[..|steps| - 1]), steps[|steps| - 1]);
    }
  }

  /**
    A completing call passes an open gate with the emitted request's own final metrics
    exactly when it completes that request; any other is a stale one, of an earlier request
    already emitted.
  */
  lemma EmissionsAreOwnExactlyWhenNotStale(version: int, steps: seq<Step>, pid: Pid)
    requires QuietRun(Created(version), steps)
    requires var p := ExecAll(Created(version), steps);
             && pid in p.settlers && !p.settlers[pid].failing && p.settlers[pid].stage == Emitting
             && p.tables.wf.emitted < p.settlers[pid].memory.current
    ensures var p := ExecAll(Created(version), steps);
            var s, t := p.settlers[pid], p.tables;
            && (s.version == s.memory.current ==> HasFinished(t, s.memory.current) && s.run == t.job.value.run)
            && (s.version != s.memory.current ==> s.version <= t.wf.emitted)
  {
    CreatedBalances(version);
    RunStaysOwn(Created(version), steps);
    var p := ExecAll(Created(version), steps);
    assert SettlerInOrder(p.settlers[pid], p.tables.wf.current, p.tables.wf.emitted);
    assert SettlerKept(p.settlers[pid], p.tables) && OwnRun(p.settlers[pid], p.tables);
  }
}

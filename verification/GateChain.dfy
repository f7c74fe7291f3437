/**
  The resolver's critical invariant: what is resolved has been emitted, and what is emitted
  has been applied (internal/scheduler/lifecycleresolver.go, internal/scheduler/scheduler.go).
  It holds exactly where the two statements that resolve without the policy find the books
  closed, and so in every orderly run whose suspension ids are not reused.
*/
module GateChain {
  import opened Options
  import opened WorkflowBook
  import opened WorkflowTables
  import opened ControlPlane
  import opened GateOrder
  import opened Holding
  import opened NoLostUpdate
  import opened PlaneRuns

  /** An open version that is not stopped, and a job ahead of it, have a running request. */
  predicate TablesChained(t: Tables) {
    && t.wf.resolved <= t.wf.emitted
    && (Open(t.wf) && !Stopped(t.wf) ==> RunningIn(t, t.wf.current))
    && (t.job.Some? && t.job.value.version > t.wf.current ==> RunningIn(t, t.job.value.version))
  }

  predicate SchedulingChained(s: Scheduling, t: Tables) {
    s.written ==> s.version <= t.wf.current || (t.job.Some? && s.version <= t.job.value.version)
  }

  predicate SchedulingsChained(schedulings: map<Pid, Scheduling>, t: Tables) {
    forall pid :: pid in schedulings ==> SchedulingChained(schedulings[pid], t)
  }

  /** A failing call takes no policy decision. */
  predicate FailuresUnresolved(settlers: map<Pid, Settler>) {
    forall pid :: pid in settlers && settlers[pid].failing ==> settlers[pid].stage != Resolving
  }

  ghost predicate ChainInv(p: Plane) {
    && BookInv(p) && DrainInv(p)
    && TablesChained(p.tables)
    && SchedulingsChained(p.schedulings, p.tables)
    && FailuresUnresolved(p.settlers)
  }

  /** A written job's place is given up only to a newer one, or once its version is reached. */
  predicate SlotAdvances(t: Tables, t': Tables) {
    && t.wf.current <= t'.wf.current
    && (t.job.Some? && t.job.value.version > t'.wf.current
        ==> t'.job.Some? && t.job.value.version <= t'.job.value.version)
  }

  ghost predicate Chains(t: Tables, t': Tables) {
    TablesChained(t') && SlotAdvances(t, t')
  }

  lemma OperateChains(t: Tables, op: Operation)
    requires TablesChained(t) && TablesKept(t) && TablesInOrder(t) && AcknowledgesClosed(t.wf, Operator(op))
    requires t.wf.finalized && t.wf.state == Suspended ==> NothingRunning(t.requests)
    ensures Chains(t, Operate(t, op))
  {
  }

  lemma ApplyChains(t: Tables, settlers: map<Pid, Settler>, s: Settler, d: Decision)
    requires TablesChained(t) && SettlerReady(t, settlers, s) && s.stage == Applying
    ensures Chains(t, SettlerTables(t, s, d))
  {
  }

  lemma MarkChains(t: Tables, settlers: map<Pid, Settler>, s: Settler, d: Decision)
    requires TablesChained(t) && SettlerReady(t, settlers, s) && s.stage == Marking
    ensures Chains(t, SettlerTables(t, s, d))
  {
  }

  lemma SettlerChains(t: Tables, settlers: map<Pid, Settler>, s: Settler, d: Decision)
    requires TablesChained(t) && SettlerReady(t, settlers, s) && (s.failing ==> s.stage != Resolving)
    ensures Chains(t, SettlerTables(t, s, d))
  {
    match s.stage
    case Applying => ApplyChains(t, settlers, s, d);
    case Marking => MarkChains(t, settlers, s, d);
    case _ =>
  }

  lemma WriteChains(t: Tables, s: Scheduling, queueMode: bool)
    requires TablesChained(t) && t.wf.emitted <= t.wf.current && SchedulingInOrder(s, t.wf.current, t.wf.resolved)
    requires MayWriteJob(t, s.version, s.expected, queueMode)
    ensures Chains(t, WriteJob(t, s.version, s.expected, queueMode))
    ensures SchedulingChained(s.(written := true), WriteJob(t, s.version, s.expected, queueMode))
  {
  }

  lemma SupercedeChains(t: Tables, s: Scheduling)
    requires TablesChained(t) && TablesKept(t) && t.wf.emitted <= t.wf.current && SchedulingChained(s, t) && s.written
    ensures Chains(t, SupercedeOlder(t, s.version))
  {
  }

  lemma SchedulerChains(p: Plane, step: Step)
    requires ChainInv(p) && (step.Validate? || step.Write? || step.Supercede?)
    ensures Chains(p.tables, Exec(p, step).tables)
    ensures SchedulingsChained(Exec(p, step).schedulings, Exec(p, step).tables)
  {
    match step
    case Validate(pid, v) =>
    case Write(pid, q) =>
      if Exec(p, step) != p {
        assert SchedulingInOrder(p.schedulings[pid], p.tables.wf.current, p.tables.wf.resolved);
        WriteChains(p.tables, p.schedulings[pid], q);
      }
    case Supercede(pid) =>
      if pid in p.schedulings && p.schedulings[pid].written {
        assert SchedulingChained(p.schedulings[pid], p.tables);
        SupercedeChains(p.tables, p.schedulings[pid]);
      }
  }

  lemma TailChains(t: Tables, e: TailEffect)
    requires TablesChained(t)
    ensures Chains(t, TailTables(t, e))
  {
  }

  lemma FailuresStayUnresolved(p: Plane, step: Step)
    requires FailuresUnresolved(p.settlers)
    ensures FailuresUnresolved(Exec(p, step).settlers)
  {
  }

  lemma SettleChains(p: Plane, pid: Pid, d: Decision)
    requires ChainInv(p) && pid in p.settlers
    ensures Chains(p.tables, Settle(p, pid, d).tables)
    ensures SchedulingsChained(p.schedulings, Settle(p, pid, d).tables)
  {
    assert SettlerInOrder(p.settlers[pid], p.tables.wf.current, p.tables.wf.emitted);
    assert SettlerKept(p.settlers[pid], p.tables);
    SettlerChains(p.tables, p.settlers, p.settlers[pid], d);
  }

  lemma TailStepChains(p: Plane, step: Step)
    requires ChainInv(p) && IsTail(step)
    ensures Chains(p.tables, Exec(p, step).tables)
    ensures SchedulingsChained(Exec(p, step).schedulings, Exec(p, step).tables)
  {
    TailIsItsEffect(p, step);
    TailChains(p.tables, EffectOf(p, step));
  }

  lemma TablesLeftAlone(p: Plane, step: Step)
    requires step.BeginComplete? || step.BeginFail? || step.GiveUpMetrics? || step.DeleteFails? || step.Crash?
    ensures Exec(p, step).tables == p.tables && Exec(p, step).schedulings == p.schedulings
  {
  }

  lemma StepChains(p: Plane, step: Step)
    requires ChainInv(p) && Orderly(p, step)
    ensures Chains(p.tables, Exec(p, step).tables)
    ensures SchedulingsChained(Exec(p, step).schedulings, Exec(p, step).tables)
  {
    match step
    case Operator(op) => OperateChains(p.tables, op);
    case Proceed(pid, d) => if pid in p.settlers { SettleChains(p, pid, d); }
    case Validate(pid, v) => SchedulerChains(p, step);
    case Write(pid, q) => SchedulerChains(p, step);
    case Supercede(pid) => SchedulerChains(p, step);
    case _ => if IsTail(step) { TailStepChains(p, step); } else { TablesLeftAlone(p, step); }
  }

  predicate OrderlyHonest(p: Plane, steps: seq<Step>) {
    OrderlyRun(p, steps) && HonestRun(p, steps)
  }

  lemma {:induction false} RunChains(p: Plane, steps: seq<Step>)
    requires ChainInv(p) && OrderlyHonest(p, steps)
    ensures ChainInv(ExecAll(p, steps))
    decreases |steps|
  {
    if steps != [] {
      var front, last := steps[..|steps| - 1], steps[|steps| - 1];
      RunChains(p, front);
      StepKeepsBooks(ExecAll(p, front), last);
      StepKeepsDrains(ExecAll(p, front), last);
      StepChains(ExecAll(p, front), last);
      FailuresStayUnresolved(ExecAll(p, front), last);
    }
  }

  /** What is resolved has been emitted, and what is emitted has been applied. */
  lemma GatesInOrder(version: int, steps: seq<Step>)
    requires OrderlyHonest(Created(version), steps)
    ensures var wf := ExecAll(Created(version), steps).tables.wf; wf.resolved <= wf.emitted <= wf.current
  {
    CreatedBalances(version);
    RunChains(Created(version), steps);
  }

  // ----- exactly when the chain holds

  /** The statements that resolve the current version without the policy, where they take effect. */
  predicate CatchesUp(t: Tables, op: Operation) {
    || (op.OpAcknowledge? && t.wf.lifecycle == Interrupted)
    || (op.OpRestore? && t.wf.suspension == Some(op.id) && t.wf.state == Suspended && t.wf.finalized)
  }

  predicate CatchesUpClosed(p: Plane, step: Step) {
    step.Operator? && CatchesUp(p.tables, step.op) ==> !Open(p.tables.wf)
  }

  predicate Chained(wf: Workflow) { wf.resolved <= wf.emitted <= wf.current }

  lemma OperateChainsExactly(t: Tables, op: Operation)
    requires TablesInOrder(t) && Chained(t.wf)
    ensures Chained(Operate(t, op).wf) <==> (CatchesUp(t, op) ==> !Open(t.wf))
  {
  }

  lemma SettlerStaysChained(t: Tables, s: Settler, d: Decision)
    requires Chained(t.wf) && SettlerInOrder(s, t.wf.current, t.wf.emitted) && (s.failing ==> s.stage != Resolving)
    ensures Chained(SettlerTables(t, s, d).wf)
  {
  }

  lemma TailStaysChained(t: Tables, e: TailEffect)
    requires Chained(t.wf)
    ensures Chained(TailTables(t, e).wf)
  {
  }

  lemma StepChainsExactly(p: Plane, step: Step)
    requires OrderInv(p) && FailuresUnresolved(p.settlers) && Chained(p.tables.wf)
    ensures Chained(Exec(p, step).tables.wf) <==> CatchesUpClosed(p, step)
  {
    match step
    case Operator(op) => OperateChainsExactly(p.tables, op);
    case Proceed(pid, d) =>
      if pid in p.settlers {
        assert SettlerInOrder(p.settlers[pid], p.tables.wf.current, p.tables.wf.emitted);
        SettlerStaysChained(p.tables, p.settlers[pid], d);
      }
    case _ =>
      if IsTail(step) {
        TailIsItsEffect(p, step);
        TailStaysChained(p.tables, EffectOf(p, step));
      }
  }

  predicate AlwaysChained(p: Plane, steps: seq<Step>) {
    forall i :: 0 <= i <= |steps| ==> Chained(ExecAll(p, steps[..i]).tables.wf)
  }

  predicate AlwaysCatchesUpClosed(p: Plane, steps: seq<Step>) {
    forall i :: 0 <= i < |steps| ==> CatchesUpClosed(ExecAll(p, steps[..i]), steps[i])
  }

  /**
    In every run, resolved has been emitted and emitted applied after every step exactly when
    every acknowledgement and every resume that takes effect finds the books closed.
  */
  lemma {:induction false} ChainedExactly(version: int, steps: seq<Step>)
    ensures AlwaysChained(Created(version), steps) <==> AlwaysCatchesUpClosed(Created(version), steps)
    ensures FailuresUnresolved(ExecAll(Created(version), steps).settlers)
    decreases |steps|
  {
    var p := Created(version);
    if steps == [] {
      assert ExecAll(p, []) == p;
    } else {
      var front, last := steps[..|steps| - 1], steps[|steps| - 1];
      var q := ExecAll(p, front);
      ChainedExactly(version, front);
      RunKeeps(p, front);
      FailuresStayUnresolved(q, last);
      ChainSplits(p, steps);
      CatchingUpSplits(p, steps);
      if AlwaysChained(p, front) {
        assert front[..|front|] == front;
        assert Chained(q.tables.wf);
        StepChainsExactly(q, last);
      }
    }
  }

  lemma ChainSplits(p: Plane, steps: seq<Step>)
    requires steps != []
    ensures AlwaysChained(p, steps)
            <==> AlwaysChained(p, steps[..|steps| - 1]) && Chained(ExecAll(p, steps).tables.wf)
  {
    var front := steps[..|steps| - 1];
    assert steps[..|steps|] == steps;
    forall i | 0 <= i <= |front|
      ensures ExecAll(p, front[..i]) == ExecAll(p, steps[..i])
    {
      assert front[..i] == steps[..i];
    }
    if AlwaysChained(p, front) && Chained(ExecAll(p, steps).tables.wf) {
      forall i | 0 <= i <= |steps|
        ensures Chained(ExecAll(p, steps[..i]).tables.wf)
      {
        assert i <= |front| || steps[..i] == steps;
      }
    }
  }

  lemma CatchingUpSplits(p: Plane, steps: seq<Step>)
    requires steps != []
    ensures var front, last := steps[..|steps| - 1], steps[|steps| - 1];
            AlwaysCatchesUpClosed(p, steps)
            <==> AlwaysCatchesUpClosed(p, front) && CatchesUpClosed(ExecAll(p, front), last)
  {
    var front := steps[..|steps| - 1];
    assert forall i :: 0 <= i < |front| ==> front[..i] == steps[..i] && front[i] == steps[i];
  }

  lemma {:induction false} PrefixesAreOrderlyHonest(p: Plane, steps: seq<Step>, i: nat)
    requires OrderlyHonest(p, steps) && i <= |steps|
    ensures OrderlyHonest(p, steps[..i])
    decreases |steps|
  {
    if i < |steps| {
      assert steps[..|steps| - 1][..i] == steps[..i];
      PrefixesAreOrderlyHonest(p, steps[..|steps| - 1], i);
    } else {
      assert steps[..i] == steps;
    }
  }

  /** Orderly runs with suspension ids that are not reused catch up only over closed books. */
  lemma OrderlyHonestCatchesUpClosed(version: int, steps: seq<Step>)
    requires OrderlyHonest(Created(version), steps)
    ensures AlwaysCatchesUpClosed(Created(version), steps)
  {
    forall i | 0 <= i <= |steps|
      ensures Chained(ExecAll(Created(version), steps[..i]).tables.wf)
    {
      PrefixesAreOrderlyHonest(Created(version), steps, i);
      GatesInOrder(version, steps[..i]);
    }
    ChainedExactly(version, steps);
  }

  // ----- a run that breaks it

  /** A held run completes and is applied. */
  lemma HeldRunApplied(version: int, id: nat, run: Run) returns (q: Plane)
    ensures Reachable(version, q)
    ensures q.tables.wf
            == ActiveWorkflow(version).(target := 1, current := 1, state := Suspended, suspension := Some(id))
    ensures q.drains == map[0 := Drain(id, true)]
  {
    q := RunHeldUnderOldId(version, id);
    q := Play(version, q, Operator(OpJobMoves(Finished, run)));
    q := Play(version, q, BeginComplete(0));
    q := Play(version, q, Proceed(0, Keep));
  }

  /** A reused id finalizes the hold before the run is emitted, and the resume resolves it. */
  lemma ReusedIdResolvesTooEarly(version: int, id: nat, run: Run) returns (q: Plane, steps: seq<Step>)
    ensures q == ExecAll(Created(version), steps)
    ensures q.tables.wf.resolved == 1 && q.tables.wf.emitted == 0
  {
    q := HeldRunApplied(version, id, run);
    q := Play(version, q, FinalizeDrain(0));
    q := Play(version, q, Operator(OpRestore(id, ToActive, version, false)));
    steps := ReachedByARun(version, q);
  }
}

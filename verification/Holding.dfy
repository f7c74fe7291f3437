/**
  Suspension over every run: a suspended workflow has no schedulable request, so its
  running requests only drain; and a hold is finalized only when they are gone
  (MarkSuspensionRequested and FinalizeSuspended in internal/storage/postgres/workflow.go,
  reconcileOne in internal/scheduler/suspensionresolver.go).
*/
module Holding {
  import opened Options
  import opened WorkflowBook
  import opened WorkflowTables
  import opened ControlPlane
  import opened GateOrder
  import opened PlaneRuns

  // ----- what every run keeps

  predicate NoneUnscheduled(requests: Requests) {
    forall v :: v in requests ==> requests[v] != Unscheduled
  }

  predicate TablesHeld(t: Tables, holds: set<nat>) {
    && (t.wf.state == Suspended ==> t.wf.suspension.Some? && NoneUnscheduled(t.requests))
    && (t.wf.suspension.Some? ==> RuledOut(t.wf.state) && t.wf.suspension.value in holds)
    && (t.wf.finalized ==> t.wf.suspension.Some?)
    && (t.wf.lifecycle == Interrupted ==> t.wf.state == Disabled && t.wf.suspension.None?)
  }

  /** A settler that read a ruled-out state can no longer write it back. */
  predicate StaleReadHarmless(s: Settler, wf: Workflow) {
    HasRead(s) && RuledOut(s.memory.state) ==> RuledOut(wf.state) || s.memory.current <= wf.resolved
  }

  predicate HoldInv(p: Plane) {
    && OrderInv(p)
    && TablesHeld(p.tables, p.holds)
    && (forall pid :: pid in p.settlers ==> StaleReadHarmless(p.settlers[pid], p.tables.wf))
  }

  /** Leaving a ruled-out state settles every version reached so far. */
  predicate Releases(w: Workflow, w': Workflow) {
    && w.resolved <= w'.resolved && w.current <= w'.current
    && (RuledOut(w.state) && !RuledOut(w'.state) ==> w'.resolved == w'.current)
  }

  lemma OperateHolds(t: Tables, holds: set<nat>, op: Operation)
    requires TablesInOrder(t) && TablesHeld(t, holds)
    ensures TablesHeld(Operate(t, op), holds) && Releases(t.wf, Operate(t, op).wf)
  {
  }

  lemma SettlerHolds(t: Tables, holds: set<nat>, s: Settler, d: Decision)
    requires TablesInOrder(t) && SettlerInOrder(s, t.wf.current, t.wf.emitted)
    requires TablesHeld(t, holds) && StaleReadHarmless(s, t.wf)
    ensures TablesHeld(SettlerTables(t, s, d), holds) && Releases(t.wf, SettlerTables(t, s, d).wf)
  {
    match s.stage
    case Applying => FailureHolds(t, holds, s.version);
    case Marking => MarkHolds(t, holds, s.version, if s.failing then Failed else Completed);
    case _ =>
  }

  lemma FailureHolds(t: Tables, holds: set<nat>, v: nat)
    requires TablesInOrder(t) && TablesHeld(t, holds)
    ensures TablesHeld(ApplyFailedJob(t, v), holds) && Releases(t.wf, ApplyFailedJob(t, v).wf)
  {
  }

  lemma MarkHolds(t: Tables, holds: set<nat>, v: nat, status: RequestStatus)
    requires TablesHeld(t, holds) && IsTerminal(status)
    ensures TablesHeld(MarkRequest(t, v, status), holds) && Releases(t.wf, MarkRequest(t, v, status).wf)
  {
  }

  lemma SettlerStaysHarmless(t: Tables, s: Settler, d: Decision)
    requires SettlerInOrder(s, t.wf.current, t.wf.emitted) && StaleReadHarmless(s, t.wf)
    requires Releases(t.wf, SettlerTables(t, s, d).wf)
    ensures StaleReadHarmless(SettlerNext(t, s), SettlerTables(t, s, d).wf)
  {
  }

  lemma OthersStayHarmless(p: Plane, w: Workflow)
    requires HoldInv(p) && Releases(p.tables.wf, w)
    ensures forall pid :: pid in p.settlers ==> StaleReadHarmless(p.settlers[pid], w)
  {
    forall pid | pid in p.settlers
      ensures StaleReadHarmless(p.settlers[pid], w)
    {
      assert SettlerInOrder(p.settlers[pid], p.tables.wf.current, p.tables.wf.emitted);
      assert StaleReadHarmless(p.settlers[pid], p.tables.wf);
    }
  }

  lemma SettleHolds(p: Plane, pid: Pid, d: Decision)
    requires HoldInv(p) && pid in p.settlers && OrderInv(Settle(p, pid, d))
    ensures HoldInv(Settle(p, pid, d))
  {
    var s := p.settlers[pid];
    assert SettlerInOrder(s, p.tables.wf.current, p.tables.wf.emitted);
    SettlerHolds(p.tables, p.holds, s, d);
    SettlerStaysHarmless(p.tables, s, d);
    OthersStayHarmless(p, SettlerTables(p.tables, s, d).wf);
  }

  lemma BeginHolds(p: Plane, step: Step)
    requires HoldInv(p) && OrderInv(Exec(p, step))
    requires step.BeginComplete? || step.BeginFail? || step.GiveUpMetrics? || step.DeleteFails? || step.Crash?
    ensures HoldInv(Exec(p, step))
  {
  }

  lemma SchedulerHolds(p: Plane, step: Step)
    requires HoldInv(p) && OrderInv(Exec(p, step)) && (step.Validate? || step.Write? || step.Supercede?)
    ensures HoldInv(Exec(p, step))
  {
    OthersStayHarmless(p, Exec(p, step).tables.wf);
  }

  lemma MarkingHolds(t: Tables, holds: set<nat>, id: nat)
    requires TablesHeld(t, holds) && MaySuspend(t.wf, id)
    ensures TablesHeld(MarkSuspension(t, id), holds + {id}) && Releases(t.wf, MarkSuspension(t, id).wf)
  {
  }

  lemma SuspendHolds(p: Plane, id: nat)
    requires HoldInv(p) && OrderInv(Exec(p, Suspend(id)))
    ensures HoldInv(Exec(p, Suspend(id)))
  {
    if MaySuspend(p.tables.wf, id) {
      MarkingHolds(p.tables, p.holds, id);
      OthersStayHarmless(p, MarkSuspension(p.tables, id).wf);
    }
  }

  lemma DrainHolds(p: Plane, step: Step)
    requires HoldInv(p) && OrderInv(Exec(p, step)) && (step.BeginDrain? || step.LookForDrain? || step.FinalizeDrain?)
    ensures HoldInv(Exec(p, step))
  {
    OthersStayHarmless(p, Exec(p, step).tables.wf);
  }

  lemma RemovalHolds(p: Plane, step: Step)
    requires HoldInv(p) && OrderInv(Exec(p, step))
    requires step.BeginRemoval? || step.AbandonForRemoval? || step.LookForRemoval? || step.FinalizeRemoval?
    ensures HoldInv(Exec(p, step))
  {
    OthersStayHarmless(p, Exec(p, step).tables.wf);
  }

  lemma StepHolds(p: Plane, step: Step)
    requires HoldInv(p)
    ensures HoldInv(Exec(p, step))
  {
    StepKeeps(p, step);
    match step
    case Operator(op) => OperateHolds(p.tables, p.holds, op); OthersStayHarmless(p, Operate(p.tables, op).wf);
    case Proceed(pid, d) => if pid in p.settlers { SettleHolds(p, pid, d); }
    case Validate(pid, v) => SchedulerHolds(p, step);
    case Write(pid, q) => SchedulerHolds(p, step);
    case Supercede(pid) => SchedulerHolds(p, step);
    case BeginComplete(pid) => BeginHolds(p, step);
    case BeginFail(pid) => BeginHolds(p, step);
    case GiveUpMetrics(pid) => BeginHolds(p, step);
    case DeleteFails(pid) => BeginHolds(p, step);
    case Crash(pid) => BeginHolds(p, step);
    case Suspend(id) => SuspendHolds(p, id);
    case BeginRemoval(pid) => RemovalHolds(p, step);
    case AbandonForRemoval(pid) => RemovalHolds(p, step);
    case LookForRemoval(pid) => RemovalHolds(p, step);
    case FinalizeRemoval(pid) => RemovalHolds(p, step);
    case _ => DrainHolds(p, step);
  }

  lemma {:induction false} RunHolds(p: Plane, steps: seq<Step>)
    requires HoldInv(p)
    ensures HoldInv(ExecAll(p, steps))
    decreases |steps|
  {
    if steps != [] {
      RunHolds(p, steps[..|steps| - 1]);
      StepHolds(ExecAll(p, steps[..|steps| - 1]), steps[|steps| - 1]);
    }
  }

  // ----- frozen requests are released with their hold

  predicate NoneFrozen(requests: Requests) {
    forall v :: v in requests ==> requests[v] != Frozen
  }

  predicate FrozenOnlyByAHold(t: Tables) { t.wf.suspension.None? ==> NoneFrozen(t.requests) }

  lemma OperateReleases(t: Tables, op: Operation)
    requires FrozenOnlyByAHold(t)
    ensures FrozenOnlyByAHold(Operate(t, op))
  {
  }

  lemma SettlerReleases(t: Tables, s: Settler, d: Decision)
    requires FrozenOnlyByAHold(t)
    ensures FrozenOnlyByAHold(SettlerTables(t, s, d))
  {
  }

  lemma StepReleases(p: Plane, step: Step)
    requires FrozenOnlyByAHold(p.tables)
    ensures FrozenOnlyByAHold(Exec(p, step).tables)
  {
    match step
    case Operator(op) => OperateReleases(p.tables, op);
    case Proceed(pid, d) => if pid in p.settlers { SettlerReleases(p.tables, p.settlers[pid], d); }
    case _ =>
  }

  /** No run strands a request: one that is frozen is held by a suspension in force. */
  lemma {:induction false} NothingStaysFrozen(version: int, steps: seq<Step>)
    ensures FrozenOnlyByAHold(ExecAll(Created(version), steps).tables)
    decreases |steps|
  {
    if steps != [] {
      NothingStaysFrozen(version, steps[..|steps| - 1]);
      StepReleases(ExecAll(Created(version), steps[..|steps| - 1]), steps[|steps| - 1]);
    }
  }

  // ----- a suspended workflow only drains

  predicate Suspending(p: Plane) { p.tables.wf.state == Suspended }

  predicate RunningIn(t: Tables, v: nat) { v in t.requests && IsRunning(t.requests[v]) }

  /** If the second state is held, so was the first, by the same hold, with no fewer running. */
  ghost predicate Drains(t: Tables, t': Tables) {
    t'.wf.state == Suspended ==>
      && t.wf.state == Suspended && t'.wf.suspension == t.wf.suspension
      && (t'.wf.finalized ==> t.wf.finalized)
      && (forall v :: RunningIn(t', v) ==> RunningIn(t, v))
  }

  lemma OperateDrains(t: Tables, holds: set<nat>, op: Operation)
    requires TablesHeld(t, holds)
    ensures Drains(t, Operate(t, op))
  {
  }

  lemma SettlerDrains(t: Tables, holds: set<nat>, s: Settler, d: Decision)
    requires TablesHeld(t, holds) && StaleReadHarmless(s, t.wf)
    ensures Drains(t, SettlerTables(t, s, d))
  {
  }

  lemma StepDrains(p: Plane, step: Step)
    requires HoldInv(p) && !step.Suspend? && !step.FinalizeDrain?
    ensures Drains(p.tables, Exec(p, step).tables)
  {
    match step
    case Operator(op) => OperateDrains(p.tables, p.holds, op);
    case Proceed(pid, d) => if pid in p.settlers { SettlerDrains(p.tables, p.holds, p.settlers[pid], d); }
    case _ =>
  }

  lemma StepOnlyDrains(p: Plane, step: Step, v: nat)
    requires HoldInv(p) && Suspending(p) && Suspending(Exec(p, step))
    ensures RunningIn(Exec(p, step).tables, v) ==> RunningIn(p.tables, v)
  {
    if !step.Suspend? && !step.FinalizeDrain? {
      StepDrains(p, step);
    }
  }

  /** The workflow is suspended after every step of the stretch. */
  predicate StaysSuspended(p: Plane, steps: seq<Step>)
    decreases |steps|
  {
    Suspending(ExecAll(p, steps)) && (steps != [] ==> StaysSuspended(p, steps[..|steps| - 1]))
  }

  lemma {:induction false} StretchOnlyDrains(p: Plane, steps: seq<Step>, v: nat)
    requires HoldInv(p) && StaysSuspended(p, steps)
    ensures RunningIn(ExecAll(p, steps).tables, v) ==> RunningIn(p.tables, v)
    decreases |steps|
  {
    if steps != [] {
      StretchOnlyDrains(p, steps[..|steps| - 1], v);
      RunHolds(p, steps[..|steps| - 1]);
      StepOnlyDrains(ExecAll(p, steps[..|steps| - 1]), steps[|steps| - 1], v);
    }
  }

  /** While a workflow stays suspended, whatever runs was running when the stretch began. */
  lemma SuspendedOnlyDrains(version: int, before: seq<Step>, during: seq<Step>, v: nat)
    requires StaysSuspended(ExecAll(Created(version), before), during)
    requires RunningIn(ExecAll(ExecAll(Created(version), before), during).tables, v)
    ensures RunningIn(ExecAll(Created(version), before).tables, v)
  {
    RunHolds(Created(version), before);
    StretchOnlyDrains(ExecAll(Created(version), before), during, v);
  }

  /** A policy resolution, however stale its caller, neither holds, disables nor releases a workflow. */
  lemma ResolutionLeavesHoldsAlone(version: int, steps: seq<Step>, pid: Pid, d: Decision)
    requires var p := ExecAll(Created(version), steps); pid in p.settlers && p.settlers[pid].stage == Resolving
    ensures var p := ExecAll(Created(version), steps);
            var wf, wf' := p.tables.wf, Exec(p, Proceed(pid, d)).tables.wf;
            (RuledOut(wf'.state) <==> RuledOut(wf.state)) && (RuledOut(wf.state) ==> wf'.state == wf.state)
  {
    RunHolds(Created(version), steps);
    var p := ExecAll(Created(version), steps);
    assert StaleReadHarmless(p.settlers[pid], p.tables.wf);
    assert Exec(p, Proceed(pid, d)).tables == WorkflowTables.Resolve(p.tables, p.settlers[pid].memory.current,
        p.settlers[pid].memory.state, p.settlers[pid].memory.version, d);
  }

  // ----- finalization, when suspension ids are not reused

  /** A suspension names a fresh id, or retargets the hold in force. */
  predicate Honest(p: Plane, step: Step) {
    step.Suspend? ==> step.id !in p.holds || p.tables.wf.suspension == Some(step.id)
  }

  predicate HonestRun(p: Plane, steps: seq<Step>)
    decreases |steps|
  {
    steps != [] ==>
      var front := steps[..|steps| - 1];
      HonestRun(p, front) && Honest(ExecAll(p, front), steps[|steps| - 1])
  }

  predicate DrainSound(d: Drain, t: Tables, holds: set<nat>) {
    && d.suspension in holds
    && (d.idle && t.wf.suspension == Some(d.suspension) && t.wf.state == Suspended ==> NothingRunning(t.requests))
  }

  predicate DrainInv(p: Plane) {
    && HoldInv(p)
    && (p.tables.wf.finalized && p.tables.wf.state == Suspended ==> NothingRunning(p.tables.requests))
    && (forall pid :: pid in p.drains ==> DrainSound(p.drains[pid], p.tables, p.holds))
  }

  lemma NothingRunningStays(t: Tables, t': Tables)
    requires NothingRunning(t.requests) && forall v :: RunningIn(t', v) ==> RunningIn(t, v)
    ensures NothingRunning(t'.requests)
  {
    forall v | v in t'.requests
      ensures !IsRunning(t'.requests[v])
    {
      assert RunningIn(t', v) ==> RunningIn(t, v);
    }
  }

  lemma DrainsKeeps(p: Plane, p': Plane)
    requires DrainInv(p) && HoldInv(p') && Drains(p.tables, p'.tables)
    requires p'.drains == p.drains && p'.holds == p.holds
    ensures DrainInv(p')
  {
    if p'.tables.wf.state == Suspended && NothingRunning(p.tables.requests) {
      NothingRunningStays(p.tables, p'.tables);
    }
    forall pid | pid in p'.drains
      ensures DrainSound(p'.drains[pid], p'.tables, p'.holds)
    {
      assert DrainSound(p.drains[pid], p.tables, p.holds);
    }
  }

  lemma SuspendKeepsDrains(p: Plane, id: nat)
    requires DrainInv(p) && Honest(p, Suspend(id)) && HoldInv(Exec(p, Suspend(id)))
    ensures DrainInv(Exec(p, Suspend(id)))
  {
  }

  lemma LookKeepsDrains(p: Plane, step: Step)
    requires DrainInv(p) && HoldInv(Exec(p, step)) && (step.BeginDrain? || step.LookForDrain?)
    ensures DrainInv(Exec(p, step))
  {
  }

  lemma FinalizeKeepsDrains(p: Plane, pid: Pid)
    requires DrainInv(p) && HoldInv(Exec(p, FinalizeDrain(pid)))
    ensures DrainInv(Exec(p, FinalizeDrain(pid)))
  {
  }

  lemma DrainsLeftAlone(p: Plane, step: Step)
    requires !step.Suspend? && !step.BeginDrain? && !step.LookForDrain? && !step.FinalizeDrain?
    ensures Exec(p, step).drains == p.drains && Exec(p, step).holds == p.holds
  {
  }

  lemma OtherKeepsDrains(p: Plane, step: Step)
    requires DrainInv(p) && HoldInv(Exec(p, step))
    requires !step.Suspend? && !step.BeginDrain? && !step.LookForDrain? && !step.FinalizeDrain?
    ensures DrainInv(Exec(p, step))
  {
    var p' := Exec(p, step);
    StepDrains(p, step);
    DrainsLeftAlone(p, step);
    DrainsKeeps(p, p');
  }

  lemma StepKeepsDrains(p: Plane, step: Step)
    requires DrainInv(p) && Honest(p, step)
    ensures DrainInv(Exec(p, step))
  {
    StepHolds(p, step);
    match step
    case Suspend(id) => SuspendKeepsDrains(p, id);
    case BeginDrain(pid) => LookKeepsDrains(p, step);
    case LookForDrain(pid) => LookKeepsDrains(p, step);
    case FinalizeDrain(pid) => FinalizeKeepsDrains(p, pid);
    case _ => OtherKeepsDrains(p, step);
  }

  lemma {:induction false} RunKeepsDrains(p: Plane, steps: seq<Step>)
    requires DrainInv(p) && HonestRun(p, steps)
    ensures DrainInv(ExecAll(p, steps))
    decreases |steps|
  {
    if steps != [] {
      RunKeepsDrains(p, steps[..|steps| - 1]);
      StepKeepsDrains(ExecAll(p, steps[..|steps| - 1]), steps[|steps| - 1]);
    }
  }

  /** A finalized suspension has nothing running, from finalization until the workflow is released. */
  lemma FinalizedMeansDrained(version: int, steps: seq<Step>)
    requires HonestRun(Created(version), steps)
    ensures var t := ExecAll(Created(version), steps).tables;
            t.wf.finalized && t.wf.state == Suspended ==> NothingRunning(t.requests)
  {
    RunKeepsDrains(Created(version), steps);
  }

  // ----- exactly when finalization is sound

  predicate Drained(t: Tables) { t.wf.finalized && t.wf.state == Suspended ==> NothingRunning(t.requests) }

  /** A tail of the hold in force that has seen nothing running. */
  predicate SawIdle(d: Drain, wf: Workflow) {
    d.idle && wf.suspension == Some(d.suspension) && wf.state == Suspended
  }

  predicate TailsHonour(p: Plane) {
    forall pid :: pid in p.drains && SawIdle(p.drains[pid], p.tables.wf) ==> NothingRunning(p.tables.requests)
  }

  /** A tail carries an id that was requested. */
  predicate TailsKnown(p: Plane) { forall pid :: pid in p.drains ==> p.drains[pid].suspension in p.holds }

  lemma StepKeepsTailsKnown(p: Plane, step: Step)
    requires HoldInv(p) && TailsKnown(p)
    ensures TailsKnown(Exec(p, step))
  {
    if !step.Suspend? && !step.BeginDrain? && !step.LookForDrain? && !step.FinalizeDrain? {
      DrainsLeftAlone(p, step);
    }
  }

  lemma {:induction false} RunKeepsTailsKnown(version: int, steps: seq<Step>)
    ensures HoldInv(ExecAll(Created(version), steps)) && TailsKnown(ExecAll(Created(version), steps))
    decreases |steps|
  {
    RunHolds(Created(version), steps);
    if steps != [] {
      RunKeepsTailsKnown(version, steps[..|steps| - 1]);
      StepKeepsTailsKnown(ExecAll(Created(version), steps[..|steps| - 1]), steps[|steps| - 1]);
    }
  }

  lemma NothingHappens(p: Plane, steps: seq<Step>)
    requires steps == []
    ensures HonestRun(p, steps) && ExecAll(p, steps) == p
  {
  }

  lemma FinalizingIsHonest(p: Plane, pid: Pid)
    ensures HonestRun(p, [FinalizeDrain(pid)]) && ExecAll(p, [FinalizeDrain(pid)]) == Exec(p, FinalizeDrain(pid))
  {
    assert [FinalizeDrain(pid)][..0] == [];
  }

  /**
    From any state of any run, every continuation that reuses no id finalizes soundly exactly when
    the state itself is sound and no tail that saw the hold in force idle would now find a request running.
  */
  lemma FinalizesSoundlyExactly(version: int, before: seq<Step>)
    ensures var p := ExecAll(Created(version), before);
            (forall steps :: HonestRun(p, steps) ==> Drained(ExecAll(p, steps).tables))
            <==> Drained(p.tables) && TailsHonour(p)
  {
    var p := ExecAll(Created(version), before);
    RunKeepsTailsKnown(version, before);
    if Drained(p.tables) && TailsHonour(p) {
      forall steps | HonestRun(p, steps)
        ensures Drained(ExecAll(p, steps).tables)
      {
        RunKeepsDrains(p, steps);
      }
    } else if Drained(p.tables) {
      var pid :| pid in p.drains && SawIdle(p.drains[pid], p.tables.wf) && !NothingRunning(p.tables.requests);
      FinalizingIsHonest(p, pid);
    } else {
      NothingHappens(p, []);
    }
  }

  /** A workflow held, drained and resumed, with a tail of that hold still about. */
  lemma IdleTailLeftBehind(version: int, id: nat) returns (q: Plane)
    ensures Reachable(version, q)
    ensures q == Plane(Tables(ActiveWorkflow(version), map[], None), map[], map[], map[0 := Drain(id, true)], map[],
            [], [], {id})
  {
    q := Created(version);
    NothingMoves(map[], Unscheduled, Frozen);
    NothingMoves(map[], Frozen, Unscheduled);
    q := Play(version, q, Operator(OpActivate));
    q := Play(version, q, Suspend(id));
    q := Play(version, q, BeginDrain(0));
    q := Play(version, q, LookForDrain(0));
    q := Play(version, q, FinalizeDrain(0));
    q := Play(version, q, Operator(OpRestore(id, ToActive, version, false)));
  }

  /** Its next run, held under the same id. */
  lemma RunHeldUnderOldId(version: int, id: nat) returns (q: Plane)
    ensures Reachable(version, q)
    ensures q == Plane(
      Tables(ActiveWorkflow(version).(target := 1, state := Suspended, suspension := Some(id)),
             map[1 := Scheduled], Some(Job(1, Waiting, false, EMPTY_RUN))),
      map[], map[0 := Scheduling(1, 0, true)], map[0 := Drain(id, true)], map[], [], [], {id})
  {
    q := IdleTailLeftBehind(version, id);
    q := Play(version, q, Operator(OpCreate));
    q := Play(version, q, Validate(0, 1));
    q := Play(version, q, Write(0, true));
    NothingMoves(q.tables.requests, Unscheduled, Frozen);
    q := Play(version, q, Suspend(id));
  }

  /**
    Without that condition it is false: a tail that saw the workflow idle under an earlier
    hold finalizes a later one that carries the same id (any id), while its run is in progress.
  */
  lemma ReusedIdFinalizesTooEarly(version: int, id: nat) returns (q: Plane, steps: seq<Step>)
    ensures q == ExecAll(Created(version), steps)
    ensures q.tables.wf.finalized && q.tables.wf.state == Suspended && !NothingRunning(q.tables.requests)
  {
    q := RunHeldUnderOldId(version, id);
    q := Play(version, q, FinalizeDrain(0));
    assert q.tables.requests[1] == Scheduled;
    steps := ReachedByARun(version, q);
  }
}

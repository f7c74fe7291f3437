/**
  The life of a request, and of the job slot, step by step: which statement may give a request
  which status, what a call must have found before it writes a job, when a slot is taken, and
  what a change of workflow version does to the totals.
*/
module RequestLife {
  import opened Options
  import opened WorkflowBook
  import opened WorkflowTables
  import opened ControlPlane
  import opened GateOrder
  import Holding
  import RunFolding

  // ----- only an active, resolved workflow is scheduled

  lemma OnlyActiveIsValidated(p: Plane, step: Step, pid: Pid)
    requires pid in Exec(p, step).schedulings && pid !in p.schedulings
    ensures step.Validate? && step.pid == pid
    ensures p.tables.wf.state == Active && p.tables.wf.resolved == p.tables.wf.current
    ensures Exec(p, step).schedulings[pid] == Scheduling(step.v, p.tables.wf.current, false)
  {
  }

  lemma SchedulingsKeepTheirRead(p: Plane, step: Step, pid: Pid)
    requires pid in p.schedulings
    ensures var s := Exec(p, step).schedulings;
            pid in s && s[pid].version == p.schedulings[pid].version && s[pid].expected == p.schedulings[pid].expected
  {
  }

  /** The step at which a call found the workflow active and resolved, for the request it means to schedule. */
  predicate ValidatedAt(version: int, steps: seq<Step>, i: int, pid: Pid, s: Scheduling) {
    && 0 <= i < |steps| && steps[i] == Validate(pid, s.version)
    && var wf := ExecAll(Created(version), steps[..i]).tables.wf;
       wf.state == Active && wf.resolved == wf.current == s.expected
  }

  lemma {:induction false} EverySchedulingWasValidated(version: int, steps: seq<Step>, pid: Pid) returns (i: int)
    requires pid in ExecAll(Created(version), steps).schedulings
    ensures ValidatedAt(version, steps, i, pid, ExecAll(Created(version), steps).schedulings[pid])
    decreases |steps|
  {
    var front, last := steps[..|steps| - 1], steps[|steps| - 1];
    var p := ExecAll(Created(version), front);
    if pid in p.schedulings {
      i := EverySchedulingWasValidated(version, front, pid);
      SchedulingsKeepTheirRead(p, last, pid);
      assert front[..i] == steps[..i];
    } else {
      i := |front|;
      OnlyActiveIsValidated(p, last, pid);
      assert steps[..i] == front;
    }
  }

  /** A job is written only by a call that found the workflow active and resolved at the version still current. */
  lemma WrittenJobsWereValidated(version: int, steps: seq<Step>, step: Step) returns (i: int)
    requires WritesJob(ExecAll(Created(version), steps), step)
    ensures step.Write? && 0 <= i < |steps|
    ensures var p := ExecAll(Created(version), steps);
            && steps[i] == Validate(step.pid, Exec(p, step).tables.job.value.version)
            && var wf := ExecAll(Created(version), steps[..i]).tables.wf;
               wf.state == Active && wf.resolved == wf.current == p.tables.wf.current
  {
    var p := ExecAll(Created(version), steps);
    OnlySchedulingWritesJobs(p, step);
    i := EverySchedulingWasValidated(version, steps, step.pid);
  }

  // ----- calls are taken up for the job in the slot

  /** A completing call begins on a finished job, a failing one on a broken job, of the request in the slot. */
  lemma CallsBeginOnTheirJob(p: Plane, step: Step, pid: Pid)
    requires pid in Exec(p, step).settlers && pid !in p.settlers
    ensures var s, job := Exec(p, step).settlers[pid], p.tables.job;
            && job.Some? && s.version == job.value.version && s.stage == Applying
            && job.value.phase == (if s.failing then Broken else Finished)
            && step == (if s.failing then BeginFail(pid) else BeginComplete(pid))
  {
  }

  // ----- when a slot is taken

  /**
    A call's write takes the slot exactly when its request still waits, nothing was applied since, and
    the slot is free or its older job waits unattempted outside queue mode.
  */
  lemma SlotTakenExactly(p: Plane, pid: Pid, queueMode: bool)
    requires pid in p.schedulings
    ensures var s, t, t' := p.schedulings[pid], p.tables, Exec(p, Write(pid, queueMode)).tables;
            t' != t <==>
              && !s.written && s.version in t.requests && t.requests[s.version] == Unscheduled
              && t.wf.current == s.expected
              && (t.job.None? || (!queueMode && t.job.value.version < s.version && t.job.value.phase == Waiting))
    ensures var s, t, t' := p.schedulings[pid], p.tables, Exec(p, Write(pid, queueMode)).tables;
            t' != t ==> && t'.job.Some? && t'.job.value.version == s.version && t'.job.value.phase == Waiting
                        && t'.requests == t.requests[s.version := Scheduled] && t'.wf == t.wf
  {
    var s, t := p.schedulings[pid], p.tables;
    if s.version in t.requests && t.requests[s.version] == Unscheduled {
      assert t.requests[s.version := Scheduled] != t.requests;
    }
  }

  /** The slot is emptied exactly by a call for the request in it that finds its job over. */
  lemma SlotEmptiedExactly(p: Plane, step: Step)
    requires p.tables.job.Some?
    ensures var job := p.tables.job.value;
            Exec(p, step).tables.job.None? <==>
              && step.Proceed? && step.pid in p.settlers && p.settlers[step.pid].stage == Deleting
              && p.settlers[step.pid].version == job.version && job.phase in {Finished, Broken}
  {
    if IsTail(step) {
      TailIsItsEffect(p, step);
    }
  }

  /** Its job changes otherwise only by its own moves, or for a newer one. */
  lemma SlotChangesByItsJob(p: Plane, step: Step)
    requires p.tables.job.Some? && Exec(p, step).tables.job.Some?
    ensures Exec(p, step).tables.job == p.tables.job || step.Write? || (step.Operator? && step.op.OpJobMoves?)
    ensures step.Write? && Exec(p, step).tables.job != p.tables.job ==>
              p.tables.job.value.version < Exec(p, step).tables.job.value.version
  {
    if IsTail(step) {
      TailIsItsEffect(p, step);
    }
  }

  // ----- what may happen to a request

  function StatusOf(t: Tables, v: nat): Option<RequestStatus> {
    if v in t.requests then Some(t.requests[v]) else None
  }

  /** The step is the one that gives a request this status from that one. */
  predicate MayMove(p: Plane, step: Step, v: nat, from: Option<RequestStatus>, to: Option<RequestStatus>) {
    if to.None? then false else
    match to.value
    case Unscheduled =>
      if from.None? then step == Operator(OpCreate) && p.tables.wf.state == Active && v == p.tables.wf.target + 1
      else from == Some(Frozen) && p.tables.wf.suspension.Some? && Exec(p, step).tables.wf.suspension.None?
    case Frozen => from == Some(Unscheduled) && step.Suspend? && Exec(p, step).tables.wf.suspension == Some(step.id)
    case Scheduled => from == Some(Unscheduled) && step.Write? && step.pid in p.schedulings
        && p.schedulings[step.pid].version == v
    case InProgress => from == Some(Scheduled) && step == Operator(OpInProgress(v))
    case Completed => from.Some? && SettledBy(p, step, v, false)
    case Failed => from.Some? && SettledBy(p, step, v, true)
    case Superceded =>
      && from in {Some(Unscheduled), Some(Scheduled)}
      && step.Supercede? && step.pid in p.schedulings && p.schedulings[step.pid].written
      && v < p.schedulings[step.pid].version
    case Abandoned =>
      && from in {Some(Unscheduled), Some(Frozen)}
      && (step.AbandonForRemoval? || (step.Operator? && step.op.OpAbandon? && v in step.op.only))
  }

  /** A call of that verdict, for this request, marks it as its last act. */
  predicate SettledBy(p: Plane, step: Step, v: nat, failing: bool) {
    && step.Proceed? && step.pid in p.settlers
    && p.settlers[step.pid].stage == Marking && p.settlers[step.pid].version == v
    && p.settlers[step.pid].failing == failing
  }

  lemma OperateMoves(p: Plane, op: Operation, v: nat)
    requires TablesInOrder(p.tables) && Holding.FrozenOnlyByAHold(p.tables)
    ensures var from, to := StatusOf(p.tables, v), StatusOf(Operate(p.tables, op), v);
            from == to || MayMove(p, Operator(op), v, from, to)
  {
  }

  lemma SettleMoves(p: Plane, pid: Pid, d: Decision, v: nat)
    requires pid in p.settlers && Holding.FrozenOnlyByAHold(p.tables)
    ensures var from, to := StatusOf(p.tables, v), StatusOf(Settle(p, pid, d).tables, v);
            from == to || MayMove(p, Proceed(pid, d), v, from, to)
  {
  }

  lemma OtherMoves(p: Plane, step: Step, v: nat)
    requires !step.Operator? && !step.Proceed?
    ensures var from, to := StatusOf(p.tables, v), StatusOf(Exec(p, step).tables, v);
            from == to || MayMove(p, step, v, from, to)
  {
  }

  /** In every run a request's status changes only by the step that may change it so. */
  lemma RequestLifeIsLegal(version: int, steps: seq<Step>, step: Step, v: nat)
    ensures var p := ExecAll(Created(version), steps);
            var from, to := StatusOf(p.tables, v), StatusOf(Exec(p, step).tables, v);
            from == to || MayMove(p, step, v, from, to)
  {
    var p := ExecAll(Created(version), steps);
    RunKeeps(Created(version), steps);
    Holding.NothingStaysFrozen(version, steps);
    match step
    case Operator(op) => OperateMoves(p, op, v);
    case Proceed(pid, d) => if pid in p.settlers { SettleMoves(p, pid, d, v); }
    case _ => OtherMoves(p, step, v);
  }

  /** So a terminal request stays terminal. */
  lemma TerminalStays(version: int, steps: seq<Step>, step: Step, v: nat)
    requires var p := ExecAll(Created(version), steps); v in p.tables.requests && IsTerminal(p.tables.requests[v])
    ensures var p' := Exec(ExecAll(Created(version), steps), step);
            v in p'.tables.requests && IsTerminal(p'.tables.requests[v])
  {
    RequestLifeIsLegal(version, steps, step, v);
  }

  /** A request is created exactly when the workflow is active, as the next version, unscheduled. */
  lemma CreatesExactly(t: Tables)
    requires TablesInOrder(t)
    ensures var t' := Operate(t, OpCreate);
            && (t' != t <==> t.wf.state == Active)
            && (t' != t ==> t'.wf.target == t.wf.target + 1)
            && (t' != t ==> t'.requests == t.requests[t.wf.target + 1 := Unscheduled])
  {
  }

  // ----- what may happen to the workflow's state

  predicate Resumes(p: Plane, step: Step, st: ResumeState) {
    && step.Operator? && step.op.OpRestore? && step.op.st == st
    && p.tables.wf.state == Suspended && p.tables.wf.finalized && p.tables.wf.suspension == Some(step.op.id)
  }

  /** A completing call's resolution, with this decision, on a workflow neither disabled nor suspended. */
  predicate ResolvesTo(p: Plane, step: Step, d: Decision, to: WorkflowState) {
    && step.Proceed? && step.pid in p.settlers && p.settlers[step.pid].stage == Resolving
    && p.tables.wf.state !in {Disabled, Suspended} && p.tables.wf.resolved < p.settlers[step.pid].memory.current
    && (step.decision == d || (step.decision == Keep && p.settlers[step.pid].memory.state == to))
  }

  predicate MayEnter(p: Plane, step: Step, to: WorkflowState) {
    var from := p.tables.wf.state;
    match to
    case Active =>
      || (step == Operator(OpActivate) && from in {Paused, Cooldown})
      || (step == Operator(OpAcknowledge) && p.tables.wf.lifecycle == Interrupted)
      || Resumes(p, step, ToActive) || ResolvesTo(p, step, Keep, Active)
    case Paused => Resumes(p, step, ToPaused) || ResolvesTo(p, step, EnterPaused, Paused)
    case Cooldown => Resumes(p, step, ToCooldown) || ResolvesTo(p, step, EnterCooldown, Cooldown)
    case Suspended => (step.Suspend? && from != Disabled) || ResolvesTo(p, step, Keep, Suspended)
    case Disabled =>
      || (step == Operator(OpDelete) && !p.tables.wf.deleting)
      || (step.Proceed? && step.pid in p.settlers && p.settlers[step.pid].failing
          && p.settlers[step.pid].stage == Applying
          && p.settlers[step.pid].version > p.tables.wf.current)
      || ResolvesTo(p, step, Keep, Disabled)
  }

  /** The workflow's state changes only by the step that may bring it there. */
  lemma WorkflowStateIsLegal(p: Plane, step: Step)
    ensures var to := Exec(p, step).tables.wf.state; to == p.tables.wf.state || MayEnter(p, step, to)
  {
    match step
    case Operator(op) => OperateEnters(p, op);
    case Proceed(pid, d) => if pid in p.settlers { SettleEnters(p, pid, d); }
    case _ => if IsTail(step) { TailEnters(p, step); }
  }

  lemma OperateEnters(p: Plane, op: Operation)
    ensures var to := Operate(p.tables, op).wf.state; to == p.tables.wf.state || MayEnter(p, Operator(op), to)
  {
  }

  lemma SettleEnters(p: Plane, pid: Pid, d: Decision)
    requires pid in p.settlers
    ensures var to := Settle(p, pid, d).tables.wf.state; to == p.tables.wf.state || MayEnter(p, Proceed(pid, d), to)
  {
  }

  lemma TailEnters(p: Plane, step: Step)
    requires IsTail(step)
    ensures var to := Exec(p, step).tables.wf.state; to == p.tables.wf.state || MayEnter(p, step, to)
  {
    TailIsItsEffect(p, step);
  }

  /** Activation, by an operator or at a cooldown's end, works from a pause and from a cooldown. */
  lemma ActivatesExactly(t: Tables)
    ensures Operate(t, OpActivate).wf.state == Active <==> t.wf.state in {Active, Paused, Cooldown}
    ensures Operate(t, OpActivate) == t.(wf := t.wf.(state := Operate(t, OpActivate).wf.state))
  {
  }

  // ----- a change of version starts a fresh epoch

  function CurrentTotals(wf: Workflow): RunFolding.Totals {
    TotalsAt(wf.book, CurrentEpoch(wf.book, wf.version))
  }

  /** However the configuration or the policy changes the workflow version, its totals start at nothing. */
  lemma VersionChangesStartFresh(p: Plane, step: Step)
    requires step.Proceed? || (step.Operator? && step.op.OpConfig?)
    requires Exec(p, step).tables.wf.version != p.tables.wf.version
    ensures CurrentTotals(Exec(p, step).tables.wf) == RunFolding.NO_TOTALS
  {
  }

  /** A resume that changes the version does too; one that does not leaves the books alone. */
  lemma ResumeStartsFresh(t: Tables, id: nat, st: ResumeState, version: int, newEpoch: bool)
    requires t.wf.suspension == Some(id) && t.wf.state == Suspended && t.wf.finalized
    ensures var wf := RestoreFromSuspension(t, id, st, version, newEpoch).wf;
            && wf.version == version
            && (if newEpoch then CurrentTotals(wf) == RunFolding.NO_TOTALS else wf.book == t.wf.book)
  {
  }

  /** And while it does not change, they are what was last posted to its current epoch. */
  lemma EmissionsAddToTheirEpoch(t: Tables, k: Epoch, totals: RunFolding.Totals, rolling: seq<RunFolding.Snap>,
      run: Run)
    requires t.wf.emitted < t.wf.current && k == CurrentEpoch(t.wf.book, t.wf.version)
    ensures CurrentTotals(EmitMetrics(t, t.wf.current, k, totals, rolling, t.wf.book.histories, run).wf)
            == RunFolding.AddRun(totals, run.snap)
  {
  }
}

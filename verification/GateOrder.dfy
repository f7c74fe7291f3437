/**
  The version gates of every run, with any number of concurrent and repeated
  CompleteRequest, FailRequest and ScheduleRequest calls, crashes and operator actions:
  what is resolved or emitted never runs ahead of what has been applied, no version is
  emitted or resolved twice, a request is marked completed last, and a job is written
  only when the run before it has been resolved.
*/
module GateOrder {
  import opened Options
  import opened WorkflowBook
  import opened WorkflowTables
  import opened ControlPlane

  // ----- the invariant

  /** Settlers whose memory of the workflow has been read. */
  predicate HasRead(s: Settler) {
    s.stage in {ReadingTotals, ReadingAgents, Emitting, Resolving} || (!s.failing && s.stage in {Deleting, Marking})
  }

  predicate HasEmitted(s: Settler) {
    !s.failing && s.stage in {Resolving, Deleting, Marking}
  }

  predicate SettlerInOrder(s: Settler, current: nat, emitted: nat) {
    && (s.stage !in {Applying, Gone} ==> s.version <= current)
    && (HasRead(s) ==> s.version <= s.memory.current <= current)
    && (HasEmitted(s) ==> s.memory.current <= emitted)
  }

  predicate SchedulingInOrder(s: Scheduling, current: nat, resolved: nat) {
    s.expected <= current && (s.expected == current ==> resolved == current)
  }

  predicate RequestInOrder(v: nat, s: RequestStatus, target: nat, emitted: nat) {
    1 <= v <= target && (s == Completed ==> v <= emitted)
  }

  predicate RequestsInOrder(requests: Requests, target: nat, emitted: nat) {
    forall v :: v in requests ==> RequestInOrder(v, requests[v], target, emitted)
  }

  predicate TablesInOrder(t: Tables) {
    && t.wf.resolved <= t.wf.current && t.wf.emitted <= t.wf.current
    && RequestsInOrder(t.requests, t.wf.target, t.wf.emitted)
  }

  predicate SettlersInOrder(settlers: map<Pid, Settler>, current: nat, emitted: nat) {
    forall pid :: pid in settlers ==> SettlerInOrder(settlers[pid], current, emitted)
  }

  predicate SchedulingsInOrder(schedulings: map<Pid, Scheduling>, current: nat, resolved: nat) {
    forall pid :: pid in schedulings ==> SchedulingInOrder(schedulings[pid], current, resolved)
  }

  /** A strictly increasing record, bounded by its gate. */
  predicate Rising(log: seq<nat>, gate: nat) {
    && (forall i :: 0 <= i < |log| ==> log[i] <= gate)
    && (forall i, j :: 0 <= i < j < |log| ==> log[i] < log[j])
  }

  function Versions(log: seq<Emission>): seq<nat> {
    seq(|log|, i requires 0 <= i < |log| => log[i].at)
  }

  predicate OrderInv(p: Plane) {
    && TablesInOrder(p.tables)
    && SettlersInOrder(p.settlers, p.tables.wf.current, p.tables.wf.emitted)
    && SchedulingsInOrder(p.schedulings, p.tables.wf.current, p.tables.wf.resolved)
    && Rising(Versions(p.emissions), p.tables.wf.emitted)
    && Rising(p.resolutions, p.tables.wf.resolved)
  }

  // ----- every statement moves the gates onward

  predicate Onward(w: Workflow, w': Workflow) {
    w.current <= w'.current && w.emitted <= w'.emitted && w.resolved <= w'.resolved && w.target <= w'.target
  }

  predicate Advances(t: Tables, t': Tables) {
    TablesInOrder(t') && Onward(t.wf, t'.wf)
  }

  /** The processes and records stand still while the tables advance. */
  lemma AdvanceKeeps(p: Plane, t: Tables)
    requires OrderInv(p) && Advances(p.tables, t)
    ensures OrderInv(p.(tables := t))
  {
  }

  lemma OperateAdvances(t: Tables, op: Operation)
    requires TablesInOrder(t)
    ensures Advances(t, Operate(t, op))
  {
  }

  lemma FailureAdvances(t: Tables, v: nat)
    requires TablesInOrder(t)
    ensures Advances(t, ApplyFailedJob(t, v))
  {
  }

  lemma MarkAdvances(t: Tables, v: nat, status: RequestStatus)
    requires TablesInOrder(t) && (status == Completed ==> v <= t.wf.emitted)
    ensures Advances(t, MarkRequest(t, v, status))
  {
  }

  lemma SettlerAdvances(t: Tables, s: Settler, d: Decision)
    requires TablesInOrder(t) && SettlerInOrder(s, t.wf.current, t.wf.emitted)
    ensures Advances(t, SettlerTables(t, s, d))
  {
    match s.stage
    case Applying => FailureAdvances(t, s.version);
    case Marking => MarkAdvances(t, s.version, if s.failing then Failed else Completed);
    case _ =>
  }

  lemma SettlerStaysInOrder(t: Tables, s: Settler, d: Decision)
    requires SettlerInOrder(s, t.wf.current, t.wf.emitted)
    ensures SettlerInOrder(SettlerNext(t, s), SettlerTables(t, s, d).wf.current, SettlerTables(t, s, d).wf.emitted)
  {
  }

  lemma EmissionsRise(t: Tables, s: Settler, d: Decision, log: seq<Emission>)
    requires Rising(Versions(log), t.wf.emitted)
    ensures Rising(Versions(log + Emits(t, s)), SettlerTables(t, s, d).wf.emitted)
  {
    var log' := log + Emits(t, s);
    assert forall i :: 0 <= i < |log| ==> Versions(log')[i] == Versions(log)[i];
  }

  lemma ResolutionsRise(t: Tables, s: Settler, d: Decision, log: seq<nat>)
    requires Rising(log, t.wf.resolved)
    ensures Rising(log + Resolves(t, s, d), SettlerTables(t, s, d).wf.resolved)
  {
  }

  lemma SettleKeeps(p: Plane, pid: Pid, d: Decision)
    requires OrderInv(p) && pid in p.settlers
    ensures OrderInv(Settle(p, pid, d))
  {
    var s := p.settlers[pid];
    SettlerAdvances(p.tables, s, d);
    SettlerStaysInOrder(p.tables, s, d);
    EmissionsRise(p.tables, s, d, p.emissions);
    ResolutionsRise(p.tables, s, d, p.resolutions);
  }

  lemma SchedulerKeeps(p: Plane, step: Step)
    requires OrderInv(p) && (step.Validate? || step.Write? || step.Supercede?)
    ensures OrderInv(Exec(p, step))
  {
    if Exec(p, step).tables != p.tables {
      AdvanceKeeps(p, Exec(p, step).tables);
    }
  }

  lemma TailAdvances(t: Tables, e: TailEffect)
    requires TablesInOrder(t)
    ensures Advances(t, TailTables(t, e))
  {
  }

  lemma TailKeeps(p: Plane, step: Step)
    requires OrderInv(p) && IsTail(step)
    ensures OrderInv(Exec(p, step))
  {
    TailIsItsEffect(p, step);
    TailAdvances(p.tables, EffectOf(p, step));
    AdvanceKeeps(p, Exec(p, step).tables);
  }

  lemma StepKeeps(p: Plane, step: Step)
    requires OrderInv(p)
    ensures OrderInv(Exec(p, step))
  {
    match step
    case Operator(op) => OperateAdvances(p.tables, op); AdvanceKeeps(p, Operate(p.tables, op));
    case Proceed(pid, d) => if pid in p.settlers { SettleKeeps(p, pid, d); }
    case Validate(pid, v) => SchedulerKeeps(p, step);
    case Write(pid, q) => SchedulerKeeps(p, step);
    case Supercede(pid) => SchedulerKeeps(p, step);
    case BeginComplete(pid) =>
    case BeginFail(pid) =>
    case GiveUpMetrics(pid) =>
    case DeleteFails(pid) =>
    case Crash(pid) =>
    case _ => TailKeeps(p, step);
  }

  lemma {:induction false} RunKeeps(p: Plane, steps: seq<Step>)
    requires OrderInv(p)
    ensures OrderInv(ExecAll(p, steps))
    decreases |steps|
  {
    if steps != [] {
      RunKeeps(p, steps[..|steps| - 1]);
      StepKeeps(ExecAll(p, steps[..|steps| - 1]), steps[|steps| - 1]);
    }
  }

  // ----- what every run shows

  /** A request marked completed was applied and emitted before it was marked. */
  lemma TerminalLast(version: int, steps: seq<Step>, v: nat)
    ensures var t := ExecAll(Created(version), steps).tables;
            v in t.requests && t.requests[v] == Completed ==> v <= t.wf.emitted <= t.wf.current
  {
    RunKeeps(Created(version), steps);
  }

  /** No version is emitted twice, and none that was never reached. */
  lemma EmittedOnce(version: int, steps: seq<Step>, i: nat, j: nat)
    requires i < j < |ExecAll(Created(version), steps).emissions|
    ensures var p := ExecAll(Created(version), steps);
            p.emissions[i].at < p.emissions[j].at <= p.tables.wf.current
  {
    RunKeeps(Created(version), steps);
    var log := ExecAll(Created(version), steps).emissions;
    assert Versions(log)[i] < Versions(log)[j];
  }

  /** No version is resolved twice, so none yields two policy actions. */
  lemma ResolvedOnce(version: int, steps: seq<Step>, i: nat, j: nat)
    requires i < j < |ExecAll(Created(version), steps).resolutions|
    ensures var p := ExecAll(Created(version), steps);
            p.resolutions[i] < p.resolutions[j] <= p.tables.wf.current
  {
    RunKeeps(Created(version), steps);
  }

  predicate WritesJob(p: Plane, step: Step) {
    var job := Exec(p, step).tables.job;
    job.Some? && (p.tables.job.None? || p.tables.job.value.version != job.value.version)
  }

  lemma OnlySchedulingWritesJobs(p: Plane, step: Step)
    requires WritesJob(p, step)
    ensures step.Write? && step.pid in p.schedulings && p.schedulings[step.pid].expected == p.tables.wf.current
  {
  }

  /** A new job appears only by scheduling, and only once the run before it is resolved. */
  lemma ResolvedBeforeScheduled(version: int, steps: seq<Step>, step: Step)
    requires WritesJob(ExecAll(Created(version), steps), step)
    ensures step.Write?
    ensures var wf := ExecAll(Created(version), steps).tables.wf; wf.resolved == wf.current
  {
    RunKeeps(Created(version), steps);
    OnlySchedulingWritesJobs(ExecAll(Created(version), steps), step);
  }
}

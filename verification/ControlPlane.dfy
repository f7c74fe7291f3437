/**
  One workflow's tables under any number of processes with stale local memory:
  CompleteRequest and FailRequest calls and ScheduleRequest calls
  (internal/scheduler/scheduler.go), suspension and deletion tails
  (internal/service/lifecycle.go, internal/scheduler/suspensionresolver.go,
  internal/scheduler/deletionreconciler.go), and operators. A run is any finite
  sequence of steps; a step that is not enabled does nothing.
*/
module ControlPlane {
  import opened Options
  import opened WorkflowBook
  import opened WorkflowTables
  import RunFolding
  import AgentMetrics

  type Pid = nat

  // ----- processes

  datatype Stage = Applying | ReadingJob | ReadingWorkflow | ReadingTotals | ReadingAgents | Emitting | Resolving
      | Deleting | Marking | Gone

  /** What a process remembers of the workflow it read. */
  datatype Memory = Memory(
    current: nat,
    state: WorkflowState,
    version: int,
    rolling: seq<RunFolding.Snap>,
    epoch: Epoch,
    totals: RunFolding.Totals,
    histories: map<string, seq<AgentMetrics.Agent>>)

  const NO_MEMORY := Memory(0, Active, 0, [], Epoch(0, 1), RunFolding.NO_TOTALS, map[])

  /** A CompleteRequest call, or (failing) a FailRequest call past its claim. */
  datatype Settler = Settler(failing: bool, version: nat, stage: Stage, run: Run, memory: Memory)

  /** A ScheduleRequest call: the version it validated against, and whether it has written its job. */
  datatype Scheduling = Scheduling(version: nat, expected: nat, written: bool)

  /** A suspension's tail: the suspension id it read, and whether it has seen nothing running. */
  datatype Drain = Drain(suspension: nat, idle: bool)

  /** A deletion's tail: abandon, look, finalize. */
  datatype Removal = Removal(abandoned: bool, idle: bool)

  datatype Plane = Plane(
    tables: Tables,
    settlers: map<Pid, Settler>,
    schedulings: map<Pid, Scheduling>,
    drains: map<Pid, Drain>,
    removals: map<Pid, Removal>,
    emissions: seq<Emission>,    // successful EmitMetrics, in order
    resolutions: seq<nat>,       // versions resolved by the policy resolver, in order
    holds: set<nat>)             // suspension ids ever requested

  /** Statements no process of the model carries memory for. */
  datatype Operation =
    | OpCreate
    | OpInProgress(v: nat)
    | OpJobMoves(phase: JobPhase, run: Run)
    | OpConfig(version: int)
    | OpActivate
    | OpLifecycle
    | OpAbort(id: nat)
    | OpRestore(id: nat, st: ResumeState, version: int, newEpoch: bool)
    | OpAcknowledge
    | OpAbandon(only: set<nat>)
    | OpDelete

  function Operate(t: Tables, op: Operation): Tables {
    match op
    case OpCreate => CreateRequest(t)
    case OpInProgress(v) => MarkInProgress(t, v)
    case OpJobMoves(phase, run) => MoveJob(t, phase, run)
    case OpConfig(version) => UpdateConfig(t, version)
    case OpActivate => Activate(t)
    case OpLifecycle => MarkLifecycle(t)
    case OpAbort(id) => AbortSuspension(t, id)
    case OpRestore(id, st, version, newEpoch) => RestoreFromSuspension(t, id, st, version, newEpoch)
    case OpAcknowledge => Acknowledge(t)
    case OpAbandon(only) => AbandonQueued(t, only)
    case OpDelete => MarkDeletion(t)
  }

  datatype Step =
    | Operator(op: Operation)
    | Suspend(id: nat)
    | Validate(pid: Pid, v: nat)
    | Write(pid: Pid, queueMode: bool)
    | Supercede(pid: Pid)
    | BeginComplete(pid: Pid)
    | BeginFail(pid: Pid)
    | Proceed(pid: Pid, decision: Decision)
    | GiveUpMetrics(pid: Pid)        // recordInterruptedMetrics returns early
    | DeleteFails(pid: Pid)          // a failed job deletion is only logged
    | Crash(pid: Pid)
    | BeginDrain(pid: Pid)
    | LookForDrain(pid: Pid)
    | FinalizeDrain(pid: Pid)
    | BeginRemoval(pid: Pid)
    | AbandonForRemoval(pid: Pid)
    | LookForRemoval(pid: Pid)
    | FinalizeRemoval(pid: Pid)

  // ----- settlers

  /** A settler's next local state and the statement's effect on the tables. */
  function SettlerTables(t: Tables, s: Settler, d: Decision): Tables {
    var m := s.memory;
    match s.stage
    case Applying => if s.failing then ApplyFailedJob(t, s.version) else ApplyCompletedJob(t, s.version)
    case Emitting => EmitMetrics(t, m.current, m.epoch, m.totals, m.rolling, m.histories, s.run)
    case Resolving => WorkflowTables.Resolve(t, m.current, m.state, m.version, d)
    case Deleting => DeleteTerminalJob(t, s.version)
    case Marking => MarkRequest(t, s.version, if s.failing then Failed else Completed)
    case _ => t
  }

  function SettlerNext(t: Tables, s: Settler): Settler {
    var m := s.memory;
    match s.stage
    case Applying => s.(stage := if s.failing && t.wf.current >= s.version then Deleting else ReadingJob)
    case ReadingJob => s.(run := GetJobMetrics(t, s.version), stage := ReadingWorkflow)
    case ReadingWorkflow =>
      s.(memory := m.(current := t.wf.current, state := t.wf.state, version := t.wf.version,
          rolling := t.wf.book.rolling), stage := ReadingTotals)
    case ReadingTotals =>
      var k := CurrentEpoch(t.wf.book, m.version);
      s.(memory := m.(epoch := k, totals := TotalsAt(t.wf.book, k)), stage := ReadingAgents)
    case ReadingAgents => s.(memory := m.(histories := t.wf.book.histories), stage := Emitting)
    case Emitting => s.(stage := if s.failing then Deleting else Resolving)
    case Resolving => s.(stage := Deleting)
    case Deleting => s.(stage := Marking)
    case Marking => s.(stage := Gone)
    case Gone => s
  }

  /** The emission a settler's statement makes, if its gate is open. */
  function Emits(t: Tables, s: Settler): seq<Emission> {
    if s.stage == Emitting && t.wf.emitted < s.memory.current then [Emission(s.memory.current, s.memory.epoch, s.run)]
    else []
  }

  function Resolves(t: Tables, s: Settler, d: Decision): seq<nat> {
    if s.stage == Resolving && MayResolve(t.wf, s.memory.current, s.memory.version, d) then [s.memory.current] else []
  }

  function Settle(p: Plane, pid: Pid, d: Decision): Plane
    requires pid in p.settlers
  {
    var s := p.settlers[pid];
    p.(tables := SettlerTables(p.tables, s, d),
       settlers := p.settlers[pid := SettlerNext(p.tables, s)],
       emissions := p.emissions + Emits(p.tables, s),
       resolutions := p.resolutions + Resolves(p.tables, s, d))
  }

  /** A settler begins on a job in the given terminal phase: the worker's call, or a sweep's. */
  function Begin(p: Plane, pid: Pid, failing: bool): Plane {
    var job := p.tables.job;
    if pid !in p.settlers && job.Some? && job.value.phase == (if failing then Broken else Finished)
    then p.(settlers := p.settlers[pid := Settler(failing, job.value.version, Applying, EMPTY_RUN, NO_MEMORY)]) else p
  }

  predicate InMetrics(s: Stage) { s in {ReadingJob, ReadingWorkflow, ReadingTotals, ReadingAgents, Emitting} }

  // ----- steps

  function Exec(p: Plane, step: Step): Plane {
    match step
    case Operator(op) => p.(tables := Operate(p.tables, op))
    case Suspend(id) =>
      if MaySuspend(p.tables.wf, id) then p.(tables := MarkSuspension(p.tables, id), holds := p.holds + {id}) else p
    case Validate(pid, v) =>
      if MaySchedule(p.tables.wf) && pid !in p.schedulings
      then p.(schedulings := p.schedulings[pid := Scheduling(v, p.tables.wf.current, false)]) else p
    case Write(pid, queueMode) =>
      if pid in p.schedulings && !p.schedulings[pid].written
          && MayWriteJob(p.tables, p.schedulings[pid].version, p.schedulings[pid].expected, queueMode)
      then p.(tables := WriteJob(p.tables, p.schedulings[pid].version, p.schedulings[pid].expected, queueMode),
              schedulings := p.schedulings[pid := p.schedulings[pid].(written := true)])
      else p
    case Supercede(pid) =>
      if pid in p.schedulings && p.schedulings[pid].written
      then p.(tables := SupercedeOlder(p.tables, p.schedulings[pid].version)) else p
    case BeginComplete(pid) => Begin(p, pid, false)
    case BeginFail(pid) => Begin(p, pid, true)
    case Proceed(pid, d) => if pid in p.settlers then Settle(p, pid, d) else p
    case GiveUpMetrics(pid) =>
      if pid in p.settlers && p.settlers[pid].failing && InMetrics(p.settlers[pid].stage)
      then p.(settlers := p.settlers[pid := p.settlers[pid].(stage := Deleting)]) else p
    case DeleteFails(pid) =>
      if pid in p.settlers && p.settlers[pid].stage == Deleting
      then p.(settlers := p.settlers[pid := p.settlers[pid].(stage := Marking)]) else p
    case Crash(pid) =>
      if pid in p.settlers then p.(settlers := p.settlers[pid := p.settlers[pid].(stage := Gone)]) else p
    case BeginDrain(pid) =>
      if p.tables.wf.suspension.Some? then p.(drains := p.drains[pid := Drain(p.tables.wf.suspension.value, false)])
      else p
    case LookForDrain(pid) =>
      if pid in p.drains && NothingRunning(p.tables.requests)
      then p.(drains := p.drains[pid := p.drains[pid].(idle := true)]) else p
    case FinalizeDrain(pid) =>
      if pid in p.drains && p.drains[pid].idle
      then p.(tables := FinalizeSuspended(p.tables, p.drains[pid].suspension)) else p
    case BeginRemoval(pid) =>
      if p.tables.wf.deleting then p.(removals := p.removals[pid := Removal(false, false)]) else p
    case AbandonForRemoval(pid) =>
      if pid in p.removals then p.(tables := AbandonQueued(p.tables, p.tables.requests.Keys),
          removals := p.removals[pid := Removal(true, false)]) else p
    case LookForRemoval(pid) =>
      if pid in p.removals && p.removals[pid].abandoned && NothingRunning(p.tables.requests)
      then p.(removals := p.removals[pid := Removal(true, true)]) else p
    case FinalizeRemoval(pid) =>
      if pid in p.removals && p.removals[pid].idle then p.(tables := FinalizeDeleted(p.tables)) else p
  }

  // ----- steps that cut a call short

  predicate IsCut(step: Step) { step.GiveUpMetrics? || step.DeleteFails? || step.Crash? }

  function CutStage(step: Step): Stage {
    if step.GiveUpMetrics? then Deleting else if step.DeleteFails? then Marking else Gone
  }

  /** Such a step moves one call to a late stage, and nothing else. */
  lemma CutMovesOneStage(p: Plane, step: Step)
    requires IsCut(step)
    ensures Exec(p, step) == p || step.pid in p.settlers
    ensures Exec(p, step) != p ==>
              Exec(p, step) == p.(settlers := p.settlers[step.pid := p.settlers[step.pid].(stage := CutStage(step))])
  {
  }

  // ----- what the tails of suspensions and deletions do to the tables

  predicate IsTail(step: Step) {
    || step.Suspend? || step.BeginDrain? || step.LookForDrain? || step.FinalizeDrain?
    || step.BeginRemoval? || step.AbandonForRemoval? || step.LookForRemoval? || step.FinalizeRemoval?
  }

  datatype TailEffect = Looks | Holds(id: nat) | Halts(id: nat) | Abandons | Deletes

  function EffectOf(p: Plane, step: Step): TailEffect {
    match step
    case Suspend(id) => Holds(id)
    case FinalizeDrain(pid) => if pid in p.drains && p.drains[pid].idle then Halts(p.drains[pid].suspension) else Looks
    case AbandonForRemoval(pid) => if pid in p.removals then Abandons else Looks
    case FinalizeRemoval(pid) => if pid in p.removals && p.removals[pid].idle then Deletes else Looks
    case _ => Looks
  }

  function TailTables(t: Tables, e: TailEffect): Tables {
    match e
    case Looks => t
    case Holds(id) => MarkSuspension(t, id)
    case Halts(id) => FinalizeSuspended(t, id)
    case Abandons => AbandonQueued(t, t.requests.Keys)
    case Deletes => FinalizeDeleted(t)
  }

  lemma TailIsItsEffect(p: Plane, step: Step)
    requires IsTail(step)
    ensures Exec(p, step).tables == TailTables(p.tables, EffectOf(p, step))
    ensures Exec(p, step) == p.(tables := Exec(p, step).tables, drains := Exec(p, step).drains,
                                removals := Exec(p, step).removals, holds := Exec(p, step).holds)
  {
  }

  function Created(version: int): Plane {
    Plane(CreatedTables(version), map[], map[], map[], map[], [], [], {})
  }

  function ExecAll(p: Plane, steps: seq<Step>): Plane {
    if steps == [] then p else Exec(ExecAll(p, steps[..|steps| - 1]), steps[|steps| - 1])
  }

  ghost predicate Closed(planes: iset<Plane>) {
    forall p, step :: p in planes ==> Exec(p, step) in planes
  }

  /** In every set of planes that holds the created one and is closed under steps. */
  ghost predicate Reachable(version: int, p: Plane) {
    forall planes: iset<Plane> :: Closed(planes) && Created(version) in planes ==> p in planes
  }

  /** One more step of a run being spelled out. */
  lemma Play(version: int, p: Plane, step: Step) returns (p': Plane)
    requires Reachable(version, p)
    ensures p' == Exec(p, step) && Reachable(version, p')
  {
    p' := Exec(p, step);
  }

  ghost predicate Reached(version: int, p: Plane) {
    exists steps :: p == ExecAll(Created(version), steps)
  }

  /** What is reachable is reached by some run. */
  lemma ReachedByARun(version: int, p: Plane) returns (steps: seq<Step>)
    requires Reachable(version, p)
    ensures p == ExecAll(Created(version), steps)
  {
    var planes := iset q | Reached(version, q);
    assert Created(version) == ExecAll(Created(version), []);
    forall q, step | q in planes
      ensures Exec(q, step) in planes
    {
      var steps :| q == ExecAll(Created(version), steps);
      assert (steps + [step])[..|steps|] == steps;
      assert Exec(q, step) == ExecAll(Created(version), steps + [step]);
    }
    assert Closed(planes);
    assert Reached(version, p);
    steps :| p == ExecAll(Created(version), steps);
  }
}

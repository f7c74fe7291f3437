/**
  The books under concurrent and repeated CompleteRequest and FailRequest calls. Every
  emission writes totals, rolling history and agent histories computed from what is stored
  at that very moment, although its caller read them in three earlier statements, so the
  books are exactly the sum of the emissions (CompleteRequest and FailRequest in
  internal/scheduler/scheduler.go, HandleAgentMetrics in internal/metrics/metricshandler.go,
  EmitMetrics in internal/storage/postgres/metrics.go).

  The books are open while metrics_emitted_at is behind current_version. What keeps a newer
  run from being applied over open books is the job still in its slot, or the disabled state
  of an interrupted workflow whose version is unresolved.
*/
module NoLostUpdate {
  import opened Options
  import RollingHistory
  import RunFolding
  import opened WorkflowBook
  import opened WorkflowTables
  import opened ControlPlane
  import opened GateOrder

  // ----- the runs

  /** Every call taken up so far for the version reached the same verdict. */
  predicate Agreed(settlers: map<Pid, Settler>, version: nat, failing: bool) {
    forall pid :: pid in settlers && settlers[pid].version == version ==> settlers[pid].failing == failing
  }

  predicate OneVerdict(p: Plane, step: Step) {
    && (step.BeginComplete? && p.tables.job.Some? ==> Agreed(p.settlers, p.tables.job.value.version, false))
    && (step.BeginFail? && p.tables.job.Some? ==> Agreed(p.settlers, p.tables.job.value.version, true))
  }

  /** An interruption is acknowledged only over closed books. */
  predicate AcknowledgesClosed(wf: Workflow, step: Step) {
    step == Operator(OpAcknowledge) && wf.lifecycle == Interrupted ==> wf.emitted == wf.current
  }

  /** No stale owner returns a row that has ended to pending and unattempted. */
  predicate KeepsEnded(t: Tables, step: Step) {
    step.Operator? && step.op.OpJobMoves? && step.op.phase == Waiting && t.job.Some? ==> !t.job.value.ended
  }

  predicate Orderly(p: Plane, step: Step) {
    OneVerdict(p, step) && AcknowledgesClosed(p.tables.wf, step) && KeepsEnded(p.tables, step)
  }

  predicate OrderlyRun(p: Plane, steps: seq<Step>)
    decreases |steps|
  {
    steps != [] ==>
      var front := steps[..|steps| - 1];
      OrderlyRun(p, front) && Orderly(ExecAll(p, front), steps[|steps| - 1])
  }

  // ----- the invariant

  predicate HasJob(t: Tables, v: nat) {
    t.job.Some? && t.job.value.version == v && t.job.value.ended
  }

  predicate TablesKept(t: Tables) {
    && (t.job.Some? && IsOver(t.job.value.phase) ==> t.job.value.ended)
    && (t.job.Some? && t.job.value.ended ==> t.job.value.phase != Waiting)
    && (t.job.Some? && t.job.value.version > t.wf.current ==> t.wf.emitted == t.wf.current)
    && EpochsInOrder(t.wf.book)
  }

  predicate CompletedBySomeone(settlers: map<Pid, Settler>, v: nat) {
    exists pid :: pid in settlers && settlers[pid].version == v && !settlers[pid].failing
  }

  predicate InSlot(t: Tables) { HasJob(t, t.wf.current) }

  predicate Stopped(wf: Workflow) { wf.state == Disabled && wf.resolved < wf.current }

  predicate Open(wf: Workflow) { wf.emitted < wf.current }

  /** Over open books nothing can be scheduled: the slot is taken, or the workflow stopped. */
  predicate Blocked(t: Tables, settlers: map<Pid, Settler>) {
    Open(t.wf) ==> (InSlot(t) && CompletedBySomeone(settlers, t.wf.current)) || Stopped(t.wf)
  }

  /** No version has been taken up both as completed and as failed. */
  predicate Uniform(settlers: map<Pid, Settler>) {
    forall a, b :: a in settlers && b in settlers && settlers[a].version == settlers[b].version
                   ==> settlers[a].failing == settlers[b].failing
  }

  predicate InBooks(s: Settler) { s.stage in {ReadingTotals, ReadingAgents, Emitting} }

  /** What a settler has read so far is still what is stored, unless its version has been emitted. */
  predicate ReadsFresh(s: Settler, wf: Workflow) {
    InBooks(s) && wf.emitted < s.memory.current ==>
      && s.memory.current == wf.current
      && s.memory.rolling == wf.book.rolling
      && (s.stage != ReadingTotals ==> s.memory.totals == TotalsAt(wf.book, s.memory.epoch))
      && (s.stage == Emitting ==> s.memory.histories == wf.book.histories)
  }

  predicate SettlerKept(s: Settler, t: Tables) {
    && (s.stage == Applying && s.version > t.wf.current ==> HasJob(t, s.version))
    && ReadsFresh(s, t.wf)
  }

  predicate SettlersKept(settlers: map<Pid, Settler>, t: Tables) {
    forall pid :: pid in settlers ==> SettlerKept(settlers[pid], t)
  }

  ghost predicate BookInv(p: Plane) {
    && OrderInv(p)
    && TablesKept(p.tables)
    && Blocked(p.tables, p.settlers)
    && Uniform(p.settlers)
    && SettlersKept(p.settlers, p.tables)
    && Balanced(p.tables.wf.book, p.emissions)
  }

  // ----- what a statement does to the readers

  ghost predicate SameBooks(b: Book, b': Book) {
    && b'.rolling == b.rolling && b'.histories == b.histories
    && (forall k :: TotalsAt(b', k) == TotalsAt(b, k))
  }

  /** Versions advance only over closed books, to the job's own version; books change only by closing. */
  ghost predicate Respects(t: Tables, t': Tables) {
    && t.wf.current <= t'.wf.current && t.wf.emitted <= t'.wf.emitted
    && (t.wf.current < t'.wf.current ==> !Open(t.wf) && HasJob(t, t'.wf.current))
    && (if t.wf.emitted == t'.wf.emitted then SameBooks(t.wf.book, t'.wf.book) else t'.wf.emitted == t.wf.current)
    && (t.job.Some? && t.job.value.version > t'.wf.current && t.job.value.ended ==> HasJob(t', t.job.value.version))
  }

  lemma SettlerRespected(s: Settler, t: Tables, t': Tables)
    requires SettlerKept(s, t) && SettlerInOrder(s, t.wf.current, t.wf.emitted) && t.wf.emitted <= t.wf.current
    requires Respects(t, t')
    ensures SettlerKept(s, t')
  {
  }

  lemma OthersRespected(p: Plane, t: Tables)
    requires BookInv(p) && Respects(p.tables, t)
    ensures SettlersKept(p.settlers, t)
  {
    forall pid | pid in p.settlers
      ensures SettlerKept(p.settlers[pid], t)
    {
      assert SettlerInOrder(p.settlers[pid], p.tables.wf.current, p.tables.wf.emitted);
      assert SettlerKept(p.settlers[pid], p.tables);
      SettlerRespected(p.settlers[pid], p.tables, t);
    }
  }

  lemma SameBooksBalance(b: Book, b': Book, log: seq<Emission>)
    requires Balanced(b, log) && SameBooks(b, b')
    ensures Balanced(b', log)
  {
    forall k
      ensures TotalsAt(b', k) == TotalsOf(log, k)
    {
      assert TotalsAt(b', k) == TotalsAt(b, k);
    }
    forall a
      ensures HistoryIn(b'.histories, a) == RollingHistory.Trimmed(AgentRuns(log, a))
    {
      assert HistoryIn(b.histories, a) == RollingHistory.Trimmed(AgentRuns(log, a));
    }
  }

  /** A statement that advances no version and emits nothing, and lets nothing new past open books. */
  ghost predicate Keeps(t: Tables, t': Tables) {
    && TablesKept(t') && Respects(t, t') && SameBooks(t.wf.book, t'.wf.book)
    && t'.wf.current == t.wf.current && t'.wf.emitted == t.wf.emitted
    && (Open(t.wf) && InSlot(t) ==> InSlot(t')) && (Open(t.wf) && Stopped(t.wf) ==> Stopped(t'.wf))
  }

  lemma KeepsBooks(p: Plane, p': Plane)
    requires BookInv(p) && OrderInv(p') && Keeps(p.tables, p'.tables)
    requires p'.settlers == p.settlers && p'.emissions == p.emissions
    ensures BookInv(p')
  {
    OthersRespected(p, p'.tables);
    SameBooksBalance(p.tables.wf.book, p'.tables.wf.book, p.emissions);
  }

  // ----- operators

  lemma EpochOperationKeeps(t: Tables, op: Operation)
    requires TablesKept(t) && (op.OpConfig? || op.OpRestore?)
    ensures Keeps(t, Operate(t, op))
  {
    StartEpochKeepsTotals(t.wf.book, op.version);
  }

  lemma OperateKeeps(t: Tables, op: Operation)
    requires TablesKept(t) && TablesInOrder(t)
    requires AcknowledgesClosed(t.wf, Operator(op)) && KeepsEnded(t, Operator(op))
    ensures Keeps(t, Operate(t, op))
  {
    if op.OpConfig? || op.OpRestore? {
      EpochOperationKeeps(t, op);
    }
  }

  // ----- settlers

  predicate SettlerReady(t: Tables, settlers: map<Pid, Settler>, s: Settler) {
    && TablesKept(t) && TablesInOrder(t) && Blocked(t, settlers)
    && (exists pid :: pid in settlers && settlers[pid] == s) && Uniform(settlers)
    && SettlerKept(s, t) && SettlerInOrder(s, t.wf.current, t.wf.emitted)
  }

  lemma ApplyKeepsTables(t: Tables, settlers: map<Pid, Settler>, s: Settler, d: Decision)
    requires SettlerReady(t, settlers, s) && s.stage == Applying
    ensures var t' := SettlerTables(t, s, d);
            && TablesKept(t') && Respects(t, t') && SameBooks(t.wf.book, t'.wf.book)
            && Blocked(t', settlers)
  {
  }

  lemma EmitKeepsTables(t: Tables, settlers: map<Pid, Settler>, s: Settler, d: Decision)
    requires SettlerReady(t, settlers, s) && s.stage == Emitting
    ensures var t' := SettlerTables(t, s, d); TablesKept(t') && Respects(t, t') && Blocked(t', settlers)
  {
    if t.wf.emitted < s.memory.current {
      EmissionWrites(t, s, d);
      EmissionKeepsOrder(t.wf.book, s.memory, s.run, SettlerTables(t, s, d).wf.book);
      ClosingKeepsTables(t, settlers, SettlerTables(t, s, d).wf.book);
    } else {
      Unchanged(t);
      assert SettlerTables(t, s, d) == t;
    }
  }

  lemma ClosingKeepsTables(t: Tables, settlers: map<Pid, Settler>, book: Book)
    requires TablesKept(t) && TablesInOrder(t) && EpochsInOrder(book) && Open(t.wf)
    ensures var t' := t.(wf := t.wf.(emitted := t.wf.current, book := book));
            TablesKept(t') && Respects(t, t') && Blocked(t', settlers)
  {
  }

  lemma EmissionKeepsOrder(b: Book, m: Memory, run: Run, b': Book)
    requires EpochsInOrder(b) && b' == Post(b, m.epoch, m.totals, m.rolling, m.histories, run)
    ensures EpochsInOrder(b')
  {
    PostKeepsOrder(b, m.epoch, m.totals, m.rolling, m.histories, run);
  }

  lemma ResolveKeepsTables(t: Tables, settlers: map<Pid, Settler>, s: Settler, d: Decision)
    requires SettlerReady(t, settlers, s) && s.stage == Resolving
    ensures Keeps(t, SettlerTables(t, s, d))
  {
    if d.ChangeVersion? {
      StartEpochKeepsTotals(t.wf.book, d.version);
    }
  }

  /** A failing call never deletes the job of an open version that was completed. */
  lemma DeleteKeepsTables(t: Tables, settlers: map<Pid, Settler>, s: Settler, d: Decision)
    requires SettlerReady(t, settlers, s) && s.stage == Deleting
    ensures var t' := SettlerTables(t, s, d);
            && TablesKept(t') && Respects(t, t') && SameBooks(t.wf.book, t'.wf.book)
            && Blocked(t', settlers)
  {
  }

  lemma MarkKeepsTables(t: Tables, s: Settler, d: Decision)
    requires TablesKept(t) && s.stage == Marking
    ensures Keeps(t, SettlerTables(t, s, d))
  {
  }

  lemma Unchanged(t: Tables)
    requires TablesKept(t)
    ensures Keeps(t, t)
  {
  }

  lemma SettlerKeepsTables(t: Tables, settlers: map<Pid, Settler>, s: Settler, d: Decision)
    requires SettlerReady(t, settlers, s)
    ensures var t' := SettlerTables(t, s, d); TablesKept(t') && Respects(t, t') && Blocked(t', settlers)
  {
    match s.stage
    case Applying => ApplyKeepsTables(t, settlers, s, d);
    case Emitting => EmitKeepsTables(t, settlers, s, d);
    case Resolving => ResolveKeepsTables(t, settlers, s, d);
    case Deleting => DeleteKeepsTables(t, settlers, s, d);
    case Marking => MarkKeepsTables(t, s, d);
    case _ => Unchanged(t);
  }

  lemma SettlerStaysKept(t: Tables, settlers: map<Pid, Settler>, s: Settler, d: Decision)
    requires SettlerReady(t, settlers, s)
    ensures SettlerKept(SettlerNext(t, s), SettlerTables(t, s, d))
  {
  }

  lemma SettlerBalances(t: Tables, settlers: map<Pid, Settler>, s: Settler, d: Decision, log: seq<Emission>)
    requires SettlerReady(t, settlers, s) && Balanced(t.wf.book, log)
    ensures Balanced(SettlerTables(t, s, d).wf.book, log + Emits(t, s))
  {
    assert log + [] == log;
    if s.stage == Emitting {
      EmissionBalances(t, s, d, log);
    } else if s.stage == Resolving {
      ResolveKeepsTables(t, settlers, s, d);
      SameBooksBalance(t.wf.book, SettlerTables(t, s, d).wf.book, log);
    }
  }

  /** An emission through an open gate posts the run on the books as they stand. */
  lemma EmissionBalances(t: Tables, s: Settler, d: Decision, log: seq<Emission>)
    requires s.stage == Emitting && ReadsFresh(s, t.wf) && Balanced(t.wf.book, log)
    ensures Balanced(SettlerTables(t, s, d).wf.book, log + Emits(t, s))
  {
    assert log + [] == log;
    if t.wf.emitted < s.memory.current {
      EmissionWrites(t, s, d);
      PostsFresh(t.wf.book, log, s.memory, s.run);
    } else {
      assert SettlerTables(t, s, d) == t && Emits(t, s) == [];
    }
  }

  lemma EmissionWrites(t: Tables, s: Settler, d: Decision)
    requires s.stage == Emitting && t.wf.emitted < s.memory.current
    ensures var m, t' := s.memory, SettlerTables(t, s, d);
            && t' == t.(wf := t.wf.(emitted := m.current, book := t'.wf.book))
            && t'.wf.book == Post(t.wf.book, m.epoch, m.totals, m.rolling, m.histories, s.run)
            && Emits(t, s) == [Emission(m.current, m.epoch, s.run)]
  {
  }

  lemma PostsFresh(b: Book, log: seq<Emission>, m: Memory, run: Run)
    requires Balanced(b, log)
    requires m.totals == TotalsAt(b, m.epoch) && m.rolling == b.rolling && m.histories == b.histories
    ensures Balanced(Post(b, m.epoch, m.totals, m.rolling, m.histories, run), log + [Emission(m.current, m.epoch, run)])
  {
    PostBalances(b, log, m.current, m.epoch, run);
  }

  /** A settler that moves keeps its version and its verdict. */
  lemma VerdictsStand(settlers: map<Pid, Settler>, pid: Pid, s: Settler)
    requires pid in settlers && s.version == settlers[pid].version && s.failing == settlers[pid].failing
    ensures Uniform(settlers) ==> Uniform(settlers[pid := s])
    ensures forall v :: CompletedBySomeone(settlers, v) ==> CompletedBySomeone(settlers[pid := s], v)
  {
    forall v | CompletedBySomeone(settlers, v)
      ensures CompletedBySomeone(settlers[pid := s], v)
    {
      var q :| q in settlers && settlers[q].version == v && !settlers[q].failing;
      assert q in settlers[pid := s] && settlers[pid := s][q].version == v;
    }
  }

  lemma SettleKeepsBooks(p: Plane, pid: Pid, d: Decision)
    requires BookInv(p) && pid in p.settlers && OrderInv(Settle(p, pid, d))
    ensures BookInv(Settle(p, pid, d))
  {
    var s := p.settlers[pid];
    assert SettlerInOrder(s, p.tables.wf.current, p.tables.wf.emitted);
    assert SettlerKept(s, p.tables);
    SettlerKeepsTables(p.tables, p.settlers, s, d);
    SettlerStaysKept(p.tables, p.settlers, s, d);
    SettlerBalances(p.tables, p.settlers, s, d, p.emissions);
    OthersRespected(p, SettlerTables(p.tables, s, d));
    VerdictsStand(p.settlers, pid, SettlerNext(p.tables, s));
  }

  lemma SkipKeepsBooks(p: Plane, pid: Pid, stage: Stage)
    requires BookInv(p) && pid in p.settlers && stage in {Deleting, Marking, Gone}
    requires OrderInv(p.(settlers := p.settlers[pid := p.settlers[pid].(stage := stage)]))
    ensures BookInv(p.(settlers := p.settlers[pid := p.settlers[pid].(stage := stage)]))
  {
    VerdictsStand(p.settlers, pid, p.settlers[pid].(stage := stage));
  }

  lemma BeginKeepsBooks(p: Plane, pid: Pid, failing: bool)
    requires BookInv(p) && OrderInv(Begin(p, pid, failing))
    requires p.tables.job.Some? ==> Agreed(p.settlers, p.tables.job.value.version, failing)
    ensures BookInv(Begin(p, pid, failing))
  {
    var p' := Begin(p, pid, failing);
    forall v | CompletedBySomeone(p.settlers, v)
      ensures CompletedBySomeone(p'.settlers, v)
    {
      var q :| q in p.settlers && p.settlers[q].version == v && !p.settlers[q].failing;
      assert q in p'.settlers && p'.settlers[q] == p.settlers[q];
    }
  }

  // ----- scheduling

  /** The slot of an open version is never free for a newer job. */
  lemma WritesOverClosedBooks(t: Tables, settlers: map<Pid, Settler>, s: Scheduling, queueMode: bool)
    requires TablesKept(t) && Blocked(t, settlers) && SchedulingInOrder(s, t.wf.current, t.wf.resolved)
    requires MayWriteJob(t, s.version, s.expected, queueMode)
    ensures !Open(t.wf)
  {
  }

  lemma WriteKeepsTables(t: Tables, settlers: map<Pid, Settler>, s: Scheduling, queueMode: bool)
    requires TablesKept(t) && Blocked(t, settlers) && t.wf.emitted <= t.wf.current
    requires SchedulingInOrder(s, t.wf.current, t.wf.resolved)
    requires MayWriteJob(t, s.version, s.expected, queueMode)
    ensures Keeps(t, WriteJob(t, s.version, s.expected, queueMode))
  {
  }

  lemma WriteKeepsBooks(p: Plane, pid: Pid, queueMode: bool)
    requires BookInv(p) && OrderInv(Exec(p, Write(pid, queueMode)))
    ensures BookInv(Exec(p, Write(pid, queueMode)))
  {
    var p' := Exec(p, Write(pid, queueMode));
    if p' != p {
      var s := p.schedulings[pid];
      assert SchedulingInOrder(s, p.tables.wf.current, p.tables.wf.resolved);
      WriteKeepsTables(p.tables, p.settlers, s, queueMode);
      KeepsBooks(p, p');
    }
  }

  // ----- the rest

  lemma TailKeepsTables(t: Tables, e: TailEffect)
    requires TablesKept(t)
    ensures Keeps(t, TailTables(t, e))
  {
    Unchanged(t);
  }

  lemma TailKeepsBooks(p: Plane, step: Step)
    requires BookInv(p) && OrderInv(Exec(p, step)) && IsTail(step)
    ensures BookInv(Exec(p, step))
  {
    TailIsItsEffect(p, step);
    TailKeepsTables(p.tables, EffectOf(p, step));
    KeepsBooks(p, Exec(p, step));
  }

  lemma SupercedeKeepsBooks(p: Plane, pid: Pid)
    requires BookInv(p) && OrderInv(Exec(p, Supercede(pid)))
    ensures BookInv(Exec(p, Supercede(pid)))
  {
    Unchanged(p.tables);
    KeepsBooks(p, Exec(p, Supercede(pid)));
  }

  lemma CutKeepsBooks(p: Plane, step: Step)
    requires BookInv(p) && IsCut(step) && OrderInv(Exec(p, step))
    ensures BookInv(Exec(p, step))
  {
    CutMovesOneStage(p, step);
    if Exec(p, step) != p {
      SkipKeepsBooks(p, step.pid, CutStage(step));
    }
  }

  lemma AsideKeepsBooks(p: Plane, step: Step)
    requires BookInv(p) && (IsCut(step) || IsTail(step)) && OrderInv(Exec(p, step))
    ensures BookInv(Exec(p, step))
  {
    if IsCut(step) { CutKeepsBooks(p, step); } else { TailKeepsBooks(p, step); }
  }

  lemma StepKeepsBooks(p: Plane, step: Step)
    requires BookInv(p) && Orderly(p, step)
    ensures BookInv(Exec(p, step))
  {
    StepKeeps(p, step);
    match step
    case Operator(op) => OperateKeeps(p.tables, op); KeepsBooks(p, Exec(p, step));
    case Proceed(pid, d) => if pid in p.settlers { SettleKeepsBooks(p, pid, d); }
    case Write(pid, q) => WriteKeepsBooks(p, pid, q);
    case Supercede(pid) => SupercedeKeepsBooks(p, pid);
    case Validate(pid, v) =>
    case BeginComplete(pid) => BeginKeepsBooks(p, pid, false);
    case BeginFail(pid) => BeginKeepsBooks(p, pid, true);
    case _ => AsideKeepsBooks(p, step);
  }

  lemma {:induction false} RunKeepsBooks(p: Plane, steps: seq<Step>)
    requires BookInv(p) && OrderlyRun(p, steps)
    ensures BookInv(ExecAll(p, steps))
    decreases |steps|
  {
    if steps != [] {
      RunKeepsBooks(p, steps[..|steps| - 1]);
      StepKeepsBooks(ExecAll(p, steps[..|steps| - 1]), steps[|steps| - 1]);
    }
  }

  // ----- what every orderly run shows

  lemma CreatedBalances(version: int)
    ensures BookInv(Created(version))
  {
    forall a
      ensures HistoryIn(EMPTY_BOOK.histories, a) == RollingHistory.Trimmed(AgentRuns([], a))
    {
    }
  }

  /** The stored totals, rolling history and agent histories are exactly what has been emitted. */
  lemma BooksBalance(version: int, steps: seq<Step>)
    requires OrderlyRun(Created(version), steps)
    ensures var p := ExecAll(Created(version), steps); Balanced(p.tables.wf.book, p.emissions)
  {
    CreatedBalances(version);
    RunKeepsBooks(Created(version), steps);
  }

  /** An epoch's run count is its number of emissions, and each total the sum of what they reported. */
  lemma TotalsCountEveryEmission(version: int, steps: seq<Step>, k: Epoch, m: RunFolding.Metric)
    requires OrderlyRun(Created(version), steps)
    ensures var p := ExecAll(Created(version), steps);
            && TotalsAt(p.tables.wf.book, k).runs == EmissionsIn(p.emissions, k)
            && RunFolding.TotalValue(TotalsAt(p.tables.wf.book, k), m) == EmittedSum(p.emissions, k, m)
  {
    BooksBalance(version, steps);
    var p := ExecAll(Created(version), steps);
    assert TotalsAt(p.tables.wf.book, k) == TotalsOf(p.emissions, k);
    RunsCounted(p.emissions, k);
    TotalsAreSums(p.emissions, k, m);
  }

  /** A settler about to emit through an open gate holds what is stored at that moment. */
  lemma EmissionsBuildOnStored(version: int, steps: seq<Step>, pid: Pid)
    requires OrderlyRun(Created(version), steps)
    requires var p := ExecAll(Created(version), steps);
             pid in p.settlers && p.settlers[pid].stage == Emitting
                 && p.tables.wf.emitted < p.settlers[pid].memory.current
    ensures var p := ExecAll(Created(version), steps);
            var m, wf := p.settlers[pid].memory, p.tables.wf;
            && m.current == wf.current && m.rolling == wf.book.rolling
            && m.totals == TotalsAt(wf.book, m.epoch) && m.histories == wf.book.histories
  {
    CreatedBalances(version);
    RunKeepsBooks(Created(version), steps);
    var p := ExecAll(Created(version), steps);
    assert SettlerKept(p.settlers[pid], p.tables);
  }

  // ----- the completion path

  /** No run torn down as failed, and no ended row reset. */
  predicate CompletionRun(p: Plane, steps: seq<Step>)
    decreases |steps|
  {
    steps != [] ==>
      var front, last := steps[..|steps| - 1], steps[|steps| - 1];
      CompletionRun(p, front) && !last.BeginFail? && KeepsEnded(ExecAll(p, front).tables, last)
  }

  predicate NoFailures(p: Plane) {
    p.tables.wf.lifecycle != Interrupted && forall pid :: pid in p.settlers ==> !p.settlers[pid].failing
  }

  lemma StepAddsNoFailure(p: Plane, step: Step)
    requires NoFailures(p) && !step.BeginFail?
    ensures NoFailures(Exec(p, step))
  {
    if IsTail(step) {
      TailIsItsEffect(p, step);
    } else if IsCut(step) {
      CutMovesOneStage(p, step);
    } else if step.Proceed? {
      if step.pid in p.settlers { SettlerAddsNoFailure(p.tables, p.settlers[step.pid], step.decision); }
    }
  }

  lemma SettlerAddsNoFailure(t: Tables, s: Settler, d: Decision)
    requires t.wf.lifecycle != Interrupted && !s.failing
    ensures SettlerTables(t, s, d).wf.lifecycle != Interrupted && !SettlerNext(t, s).failing
  {
  }

  /** On the completion path one verdict and closed acknowledgements come by themselves. */
  lemma {:induction false} CompletionRunsAreOrderly(version: int, steps: seq<Step>)
    requires CompletionRun(Created(version), steps)
    ensures OrderlyRun(Created(version), steps) && NoFailures(ExecAll(Created(version), steps))
    decreases |steps|
  {
    if steps != [] {
      CompletionRunsAreOrderly(version, steps[..|steps| - 1]);
      StepAddsNoFailure(ExecAll(Created(version), steps[..|steps| - 1]), steps[|steps| - 1]);
    }
  }
}

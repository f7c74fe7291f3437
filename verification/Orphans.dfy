/**
  Requests in progress with nothing left to finish them. A request marked in progress is
  meant to keep its job (internal/rpcworker/rpcworker.go:678-680); it ends only through the
  job in the slot or a call already taken up for it, and this says exactly how both are lost.
*/
module Orphans {
  import opened Options
  import opened WorkflowBook
  import opened WorkflowTables
  import opened ControlPlane
  import opened GateOrder
  import opened PlaneRuns

  predicate UnderWay(t: Tables, r: nat) { r in t.requests && t.requests[r] == InProgress }

  predicate HasSlot(t: Tables, r: nat) { t.job.Some? && t.job.value.version == r }

  predicate Serves(s: Settler, r: nat) { s.version == r && s.stage != Gone }

  predicate Served(settlers: map<Pid, Settler>, r: nat) {
    exists pid :: pid in settlers && Serves(settlers[pid], r)
  }

  /** Something can still finish the request: its job, or a call settling it. */
  predicate Attended(p: Plane, r: nat) { HasSlot(p.tables, r) || Served(p.settlers, r) }

  // ----- an unattended request stays in progress for good

  predicate Orphaned(p: Plane, r: nat) { UnderWay(p.tables, r) && !Attended(p, r) }

  lemma OperateOrphans(t: Tables, op: Operation, r: nat)
    requires TablesInOrder(t) && UnderWay(t, r) && !HasSlot(t, r)
    ensures UnderWay(Operate(t, op), r) && !HasSlot(Operate(t, op), r)
  {
  }

  lemma SettlerOrphans(t: Tables, s: Settler, d: Decision, r: nat)
    requires UnderWay(t, r) && !HasSlot(t, r) && !Serves(s, r)
    ensures UnderWay(SettlerTables(t, s, d), r) && !HasSlot(SettlerTables(t, s, d), r)
    ensures !Serves(SettlerNext(t, s), r)
  {
  }

  lemma TailOrphans(t: Tables, e: TailEffect, r: nat)
    requires UnderWay(t, r) && !HasSlot(t, r)
    ensures UnderWay(TailTables(t, e), r) && !HasSlot(TailTables(t, e), r)
  {
  }

  lemma StepOrphans(p: Plane, step: Step, r: nat)
    requires OrderInv(p) && Orphaned(p, r)
    ensures Orphaned(Exec(p, step), r)
  {
    match step
    case Operator(op) => OperateOrphans(p.tables, op, r);
    case Proceed(pid, d) => if pid in p.settlers { SettlerOrphans(p.tables, p.settlers[pid], d, r); }
    case _ => if IsTail(step) { TailStepOrphans(p, step, r); } else { ProcessOrphans(p, step, r); }
  }

  lemma TailStepOrphans(p: Plane, step: Step, r: nat)
    requires IsTail(step) && Orphaned(p, r)
    ensures Orphaned(Exec(p, step), r)
  {
    TailIsItsEffect(p, step);
    TailOrphans(p.tables, EffectOf(p, step), r);
  }

  lemma ProcessOrphans(p: Plane, step: Step, r: nat)
    requires !step.Operator? && !step.Proceed? && !IsTail(step) && Orphaned(p, r)
    ensures Orphaned(Exec(p, step), r)
  {
  }

  lemma {:induction false} OrphanStays(p: Plane, steps: seq<Step>, r: nat)
    requires OrderInv(p) && Orphaned(p, r)
    ensures Orphaned(ExecAll(p, steps), r)
    decreases |steps|
  {
    if steps != [] {
      OrphanStays(p, steps[..|steps| - 1], r);
      RunKeeps(p, steps[..|steps| - 1]);
      StepOrphans(ExecAll(p, steps[..|steps| - 1]), steps[|steps| - 1], r);
    }
  }

  // ----- an attended one can still end

  predicate Ends(p: Plane, r: nat) { r in p.tables.requests && IsTerminal(p.tables.requests[r]) }

  lemma {:induction false} Prepend(p: Plane, step: Step, steps: seq<Step>)
    ensures ExecAll(p, [step] + steps) == ExecAll(Exec(p, step), steps)
    decreases |steps|
  {
    var all := [step] + steps;
    if steps == [] {
      assert all == [step] && all[..0] == [];
      assert ExecAll(p, all[..0]) == p;
    } else {
      assert all[..|all| - 1] == [step] + steps[..|steps| - 1];
      Prepend(p, step, steps[..|steps| - 1]);
    }
  }

  /** How many stages a call still has before it. */
  function Remaining(s: Stage): nat {
    match s
    case Applying => 9
    case ReadingJob => 8
    case ReadingWorkflow => 7
    case ReadingTotals => 6
    case ReadingAgents => 5
    case Emitting => 4
    case Resolving => 3
    case Deleting => 2
    case Marking => 1
    case Gone => 0
  }

  lemma StageMoves(p: Plane, pid: Pid, r: nat)
    requires pid in p.settlers && Serves(p.settlers[pid], r) && r in p.tables.requests
    ensures var p', s := Settle(p, pid, Keep), p.settlers[pid];
            if s.stage == Marking then Ends(p', r)
            else && pid in p'.settlers && Serves(p'.settlers[pid], r) && r in p'.tables.requests
                 && Remaining(p'.settlers[pid].stage) < Remaining(s.stage)
  {
  }

  /** A call left to itself marks its request. */
  lemma {:induction false} CallEnds(p: Plane, pid: Pid, r: nat) returns (steps: seq<Step>)
    requires pid in p.settlers && Serves(p.settlers[pid], r) && r in p.tables.requests
    ensures Ends(ExecAll(p, steps), r)
    decreases Remaining(p.settlers[pid].stage)
  {
    var step := Proceed(pid, Keep);
    StageMoves(p, pid, r);
    if p.settlers[pid].stage == Marking {
      steps := [];
    } else {
      steps := CallEnds(Exec(p, step), pid, r);
    }
    Prepend(p, step, steps);
    steps := [step] + steps;
  }

  lemma {:induction false} SomePidIsFree(pids: set<nat>) returns (free: nat)
    ensures forall pid :: pid in pids ==> pid < free
    decreases |pids|
  {
    if pids == {} {
      free := 0;
    } else {
      var pid :| pid in pids;
      var rest := SomePidIsFree(pids - {pid});
      free := if pid < rest then rest else pid + 1;
      forall q | q in pids
        ensures q < free
      {
        assert q == pid || q in pids - {pid};
      }
    }
  }

  /** A job in the slot can complete, and be taken up. */
  lemma JobEnds(p: Plane, r: nat) returns (steps: seq<Step>)
    requires HasSlot(p.tables, r) && r in p.tables.requests
    ensures Ends(ExecAll(p, steps), r)
  {
    var completes := Operator(OpJobMoves(Finished, EMPTY_RUN));
    var pid := SomePidIsFree(p.settlers.Keys);
    var p' := Exec(Exec(p, completes), BeginComplete(pid));
    steps := CallEnds(p', pid, r);
    Prepend(Exec(p, completes), BeginComplete(pid), steps);
    Prepend(p, completes, [BeginComplete(pid)] + steps);
    steps := [completes] + ([BeginComplete(pid)] + steps);
  }

  /** Some continuation ends it. */
  ghost predicate Finishable(p: Plane, r: nat) { exists steps :: Ends(ExecAll(p, steps), r) }

  lemma AttendedIsFinishable(p: Plane, r: nat)
    requires r in p.tables.requests && Attended(p, r)
    ensures Finishable(p, r)
  {
    if HasSlot(p.tables, r) {
      var steps := JobEnds(p, r);
    } else {
      var pid :| pid in p.settlers && Serves(p.settlers[pid], r);
      var steps := CallEnds(p, pid, r);
    }
  }

  lemma OrphanIsNotFinishable(p: Plane, r: nat)
    requires OrderInv(p) && Orphaned(p, r)
    ensures !Finishable(p, r)
  {
    forall steps
      ensures !Ends(ExecAll(p, steps), r)
    {
      OrphanStays(p, steps, r);
    }
  }

  /**
    In every run, a request in progress can still become terminal exactly when its job is in the
    slot or a call is settling it.
  */
  lemma FinishableExactly(version: int, before: seq<Step>, r: nat)
    requires UnderWay(ExecAll(Created(version), before).tables, r)
    ensures var p := ExecAll(Created(version), before); Finishable(p, r) <==> Attended(p, r)
  {
    var p := ExecAll(Created(version), before);
    RunKeeps(Created(version), before);
    if Attended(p, r) {
      AttendedIsFinishable(p, r);
    } else {
      OrphanIsNotFinishable(p, r);
    }
  }

  // ----- how a request is left behind

  /** A newer request takes the slot of one in progress that no call is settling yet. */
  predicate Displaced(p: Plane, step: Step, r: nat) {
    step.Write? && Exec(p, step) != p && HasSlot(p.tables, r) && !Served(p.settlers, r)
  }

  /** The last call settling it dies after its job is gone. */
  predicate Abandoned(p: Plane, step: Step, r: nat) {
    && step.Crash? && step.pid in p.settlers && Serves(p.settlers[step.pid], r) && !HasSlot(p.tables, r)
    && !Served(p.settlers - {step.pid}, r)
  }

  lemma WriteLeavesExactly(p: Plane, pid: Pid, queueMode: bool, r: nat)
    requires UnderWay(p.tables, r) && Attended(p, r)
    ensures UnderWay(Exec(p, Write(pid, queueMode)).tables, r)
    ensures !Attended(Exec(p, Write(pid, queueMode)), r) <==> Displaced(p, Write(pid, queueMode), r)
  {
  }

  lemma CrashLeavesExactly(p: Plane, pid: Pid, r: nat)
    requires UnderWay(p.tables, r) && Attended(p, r)
    ensures !Attended(Exec(p, Crash(pid)), r) <==> Abandoned(p, Crash(pid), r)
  {
    var p' := Exec(p, Crash(pid));
    if q :| q in p.settlers && q != pid && Serves(p.settlers[q], r) {
      assert Serves(p'.settlers[q], r) && Serves((p.settlers - {pid})[q], r);
    }
  }

  lemma SettleKeepsAttended(p: Plane, pid: Pid, d: Decision, r: nat)
    requires pid in p.settlers && UnderWay(p.tables, r) && Attended(p, r)
    ensures UnderWay(Settle(p, pid, d).tables, r) ==> Attended(Settle(p, pid, d), r)
  {
    var s, p' := p.settlers[pid], Settle(p, pid, d);
    if q :| q in p.settlers && q != pid && Serves(p.settlers[q], r) {
      assert Serves(p'.settlers[q], r);
    } else if Serves(s, r) && s.stage != Marking {
      assert Serves(p'.settlers[pid], r);
    }
  }

  lemma SkipKeepsAttended(p: Plane, step: Step, r: nat)
    requires (step.BeginComplete? || step.BeginFail? || step.GiveUpMetrics? || step.DeleteFails?) && Attended(p, r)
    ensures Attended(Exec(p, step), r)
  {
    var p' := Exec(p, step);
    if q :| q in p.settlers && Serves(p.settlers[q], r) {
      assert q in p'.settlers && Serves(p'.settlers[q], r);
    }
  }

  /** One step leaves a request in progress behind exactly when it displaces its job, or abandons it. */
  lemma LeftBehindExactly(p: Plane, step: Step, r: nat)
    requires OrderInv(p) && UnderWay(p.tables, r) && Attended(p, r)
    ensures Orphaned(Exec(p, step), r) <==> Displaced(p, step, r) || Abandoned(p, step, r)
  {
    match step
    case Write(pid, q) => WriteLeavesExactly(p, pid, q, r);
    case Crash(pid) => CrashLeavesExactly(p, pid, r);
    case Proceed(pid, d) => if pid in p.settlers { SettleKeepsAttended(p, pid, d, r); }
    case _ =>
      if step.BeginComplete? || step.BeginFail? || step.GiveUpMetrics? || step.DeleteFails? {
        SkipKeepsAttended(p, step, r);
      } else {
        AsideKeepsAttended(p, step, r);
      }
  }

  lemma AsideKeepsAttended(p: Plane, step: Step, r: nat)
    requires (step.Operator? || step.Validate? || step.Supercede? || IsTail(step)) && Attended(p, r)
    ensures Attended(Exec(p, step), r)
  {
    if IsTail(step) {
      TailIsItsEffect(p, step);
    } else {
      assert Exec(p, step).settlers == p.settlers;
    }
  }

  // ----- a run that displaces one

  /** The first request is in progress, and its job pending again after a failed send. */
  lemma FirstSendFails(version: int) returns (q: Plane)
    ensures Reachable(version, q)
    ensures q == Plane(
      Tables(ActiveWorkflow(version).(target := 1), map[1 := InProgress], Some(Job(1, Waiting, false, EMPTY_RUN))),
      map[], map[0 := Scheduling(1, 0, true)], map[], map[], [], [], {})
  {
    q := Created(version);
    q := Play(version, q, Operator(OpActivate));
    q := Play(version, q, Operator(OpCreate));
    q := Play(version, q, Validate(0, 1));
    q := Play(version, q, Write(0, true));
    q := Play(version, q, Operator(OpJobMoves(Working, EMPTY_RUN)));
    q := Play(version, q, Operator(OpInProgress(1)));
    q := Play(version, q, Operator(OpJobMoves(Waiting, EMPTY_RUN)));
  }

  lemma NextTakesTheSlot(version: int) returns (q: Plane)
    ensures Reachable(version, q)
    ensures q.tables.requests == map[1 := InProgress, 2 := Scheduled] && HasSlot(q.tables, 2) && q.settlers == map[]
    ensures 1 in q.schedulings && q.schedulings[1] == Scheduling(2, 0, true)
  {
    q := FirstSendFails(version);
    q := Play(version, q, Operator(OpCreate));
    q := Play(version, q, Validate(1, 2));
    q := Play(version, q, Write(1, false));
  }

  lemma DisplacedRunReached(version: int) returns (q: Plane)
    ensures Reachable(version, q)
    ensures q.tables.requests == map[1 := InProgress, 2 := Scheduled] && Orphaned(q, 1)
  {
    q := NextTakesTheSlot(version);
    q := Play(version, q, Supercede(1));
    assert q.tables.requests == map[1 := InProgress, 2 := Scheduled];
  }

  /** A failed send's reset lets a newer request displace the one in progress, which nothing then ever finishes. */
  lemma FailedSendLeavesARequestBehind(version: int) returns (before: seq<Step>)
    ensures UnderWay(ExecAll(Created(version), before).tables, 1)
    ensures !Finishable(ExecAll(Created(version), before), 1)
  {
    var q := DisplacedRunReached(version);
    before := ReachedByARun(version, q);
    FinishableExactly(version, before, 1);
  }
}

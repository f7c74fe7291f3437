/**
  Concrete runs, for the properties that fail without a condition: runs that drop at most one
  condition of an orderly run, and their beginnings.
*/
module PlaneRuns {
  import opened Options
  import opened WorkflowBook
  import opened WorkflowTables
  import opened ControlPlane
  import opened NoLostUpdate

  function ActiveWorkflow(version: int): Workflow {
    Workflow(Active, Ready, None, false, false, 0, 0, 0, 0, version, EMPTY_BOOK)
  }

  // ----- runs that drop at most one condition

  datatype Dropped = Nothing | Verdicts | Acknowledgements | Resets

  predicate OrderlyBut(x: Dropped, p: Plane, step: Step) {
    && (x.Verdicts? || OneVerdict(p, step))
    && (x.Acknowledgements? || AcknowledgesClosed(p.tables.wf, step))
    && (x.Resets? || KeepsEnded(p.tables, step))
  }

  predicate OrderlyRunBut(x: Dropped, p: Plane, steps: seq<Step>)
    decreases |steps|
  {
    steps != [] ==>
      var front := steps[..|steps| - 1];
      OrderlyRunBut(x, p, front) && OrderlyBut(x, ExecAll(p, front), steps[|steps| - 1])
  }

  ghost predicate ClosedBut(x: Dropped, planes: iset<Plane>) {
    forall p, step :: p in planes && OrderlyBut(x, p, step) ==> Exec(p, step) in planes
  }

  /** In every set of planes that holds the created one and is closed under such steps. */
  ghost predicate ReachableBut(x: Dropped, version: int, p: Plane) {
    forall planes: iset<Plane> :: ClosedBut(x, planes) && Created(version) in planes ==> p in planes
  }

  /** Steps on which no condition bears. */
  predicate Plain(step: Step) {
    !step.BeginComplete? && !step.BeginFail? && (step.Operator? ==> !step.op.OpAcknowledge? && !step.op.OpJobMoves?)
  }

  lemma PlayBut(x: Dropped, version: int, p: Plane, step: Step) returns (p': Plane)
    requires ReachableBut(x, version, p) && Plain(step)
    ensures p' == Exec(p, step) && ReachableBut(x, version, p')
  {
    p' := PlayGuarded(x, version, p, step);
  }

  lemma PlayGuarded(x: Dropped, version: int, p: Plane, step: Step) returns (p': Plane)
    requires ReachableBut(x, version, p) && OrderlyBut(x, p, step)
    ensures p' == Exec(p, step) && ReachableBut(x, version, p')
  {
    p' := Exec(p, step);
  }

  ghost predicate ReachedBut(x: Dropped, version: int, p: Plane) {
    exists steps :: p == ExecAll(Created(version), steps) && OrderlyRunBut(x, Created(version), steps)
  }

  lemma RunReaches(x: Dropped, version: int, p: Plane) returns (steps: seq<Step>)
    requires ReachableBut(x, version, p)
    ensures p == ExecAll(Created(version), steps) && OrderlyRunBut(x, Created(version), steps)
  {
    var planes := iset q | ReachedBut(x, version, q);
    assert Created(version) == ExecAll(Created(version), []) && OrderlyRunBut(x, Created(version), []);
    forall q, step | q in planes && OrderlyBut(x, q, step)
      ensures Exec(q, step) in planes
    {
      var steps :| q == ExecAll(Created(version), steps) && OrderlyRunBut(x, Created(version), steps);
      OneStepOn(x, version, q, steps, step);
    }
    assert ClosedBut(x, planes);
    assert ReachedBut(x, version, p);
    steps :| p == ExecAll(Created(version), steps) && OrderlyRunBut(x, Created(version), steps);
  }

  lemma OneStepOn(x: Dropped, version: int, q: Plane, steps: seq<Step>, step: Step)
    requires q == ExecAll(Created(version), steps) && OrderlyRunBut(x, Created(version), steps)
             && OrderlyBut(x, q, step)
    ensures ReachedBut(x, version, Exec(q, step))
  {
    var more := steps + [step];
    assert more[..|more| - 1] == steps;
    assert Exec(q, step) == ExecAll(Created(version), more) && OrderlyRunBut(x, Created(version), more);
  }

  lemma StillReachable(x: Dropped, version: int, p: Plane)
    requires ReachableBut(x, version, p)
    ensures Reachable(version, p)
  {
    forall planes: iset<Plane> | Closed(planes) && Created(version) in planes
      ensures p in planes
    {
      assert ClosedBut(x, planes);
    }
  }

  // ----- beginnings

  /** The first request's job has ended. */
  lemma FirstRunEnded(x: Dropped, version: int, phase: JobPhase, run: Run) returns (q: Plane)
    requires IsOver(phase)
    ensures ReachableBut(x, version, q)
    ensures q == Plane(
      Tables(ActiveWorkflow(version).(target := 1), map[1 := Scheduled], Some(Job(1, phase, true, run))),
      map[], map[0 := Scheduling(1, 0, true)], map[], map[], [], [], {})
  {
    q := Created(version);
    q := PlayBut(x, version, q, Operator(OpActivate));
    q := PlayBut(x, version, q, Operator(OpCreate));
    q := PlayBut(x, version, q, Validate(0, 1));
    q := PlayBut(x, version, q, Write(0, true));
    q := PlayGuarded(x, version, q, Operator(OpJobMoves(phase, run)));
  }

  /** The first run was interrupted, and its metrics given up. */
  lemma FirstRunInterrupted(version: int) returns (q: Plane)
    ensures Reachable(version, q)
    ensures q == Plane(
      Tables(ActiveWorkflow(version).(target := 1, current := 1, lifecycle := Interrupted, state := Disabled),
          map[1 := Scheduled], Some(Job(1, Broken, true, EMPTY_RUN))),
      map[0 := Settler(true, 1, Deleting, EMPTY_RUN, NO_MEMORY)], map[0 := Scheduling(1, 0, true)], map[], map[], [],
          [], {})
  {
    q := FirstRunEnded(Nothing, version, Broken, EMPTY_RUN);
    StillReachable(Nothing, version, q);
    NothingMoves(q.tables.requests, Frozen, Unscheduled);
    q := Play(version, q, BeginFail(0));
    q := Play(version, q, Proceed(0, Keep));
    q := Play(version, q, GiveUpMetrics(0));
  }

  /** The first run was interrupted and torn down, its metrics given up. */
  lemma FirstRunTornDown(version: int) returns (q: Plane)
    ensures Reachable(version, q)
    ensures q == Plane(
      Tables(ActiveWorkflow(version).(target := 1, current := 1, lifecycle := Interrupted, state := Disabled),
          map[1 := Failed], None),
      map[0 := Settler(true, 1, Gone, EMPTY_RUN, NO_MEMORY)], map[0 := Scheduling(1, 0, true)], map[], map[], [], [],
          {})
  {
    q := FirstRunInterrupted(version);
    q := Play(version, q, Proceed(0, Keep));
    q := Play(version, q, Proceed(0, Keep));
  }
}

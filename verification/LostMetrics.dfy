/**
  Why the conditions of NoLostUpdate and OwnRuns are needed. Dropping any one condition of
  an orderly run, and keeping the other two, an emission is lost from the totals; and in an
  orderly run a stale CompleteRequest call counts its run a second time in place of a newer one.
*/
module LostMetrics {
  import opened Options
  import opened WorkflowBook
  import opened WorkflowTables
  import opened ControlPlane
  import opened NoLostUpdate
  import opened PlaneRuns
  import Completion
  import RunFolding

  /** What a call remembers when nothing has been emitted. */
  function FirstMemory(version: int, state: WorkflowState, current: nat): Memory {
    Memory(current, state, version, [], Epoch(version, 1), RunFolding.NO_TOTALS, map[])
  }

  /** A call that has applied its version reads the job, the workflow, its totals and its agents. */
  lemma PlayReads(x: Dropped, version: int, p: Plane, pid: Pid) returns (q: Plane)
    requires ReachableBut(x, version, p) && pid in p.settlers && p.settlers[pid].stage == ReadingJob
    ensures ReachableBut(x, version, q)
    ensures var s := p.settlers[pid];
            q == p.(settlers := p.settlers[pid :=
                Settler(s.failing, s.version, Emitting, GetJobMetrics(p.tables, s.version), Completion.Read(p.tables))])
  {
    q := PlayBut(x, version, p, Proceed(pid, Keep));
    q := PlayBut(x, version, q, Proceed(pid, Keep));
    q := PlayBut(x, version, q, Proceed(pid, Keep));
    q := PlayBut(x, version, q, Proceed(pid, Keep));
    assert q.emissions == p.emissions && q.resolutions == p.resolutions;
  }

  /** One emission through an open gate. */
  lemma PlayEmission(x: Dropped, version: int, p: Plane, pid: Pid) returns (q: Plane)
    requires ReachableBut(x, version, p)
    requires pid in p.settlers && p.settlers[pid].stage == Emitting
             && p.tables.wf.emitted < p.settlers[pid].memory.current
    ensures ReachableBut(x, version, q)
    ensures var s := p.settlers[pid];
            var m, b := s.memory, q.tables.wf.book;
            && q == p.(tables := p.tables.(wf := p.tables.wf.(emitted := m.current, book := b)),
                       settlers := p.settlers[pid := s.(stage := if s.failing then Deleting else Resolving)],
                       emissions := p.emissions + [Emission(m.current, m.epoch, s.run)])
            && TotalsAt(b, m.epoch).runs == m.totals.runs + 1
  {
    q := PlayBut(x, version, p, Proceed(pid, Keep));
    assert q.resolutions == p.resolutions + [];
  }

  // ----- how an emission is lost

  /** Two calls, of successive versions, have both read the books before either emits. */
  predicate Overlapping(version: int, p: Plane, run: Run, other: Run) {
    && p.tables.wf.emitted == 0 && p.emissions == []
    && {0, 2} <= p.settlers.Keys
    && p.settlers[0].stage == Emitting && p.settlers[0].run == run
    && p.settlers[0].memory == FirstMemory(version, p.settlers[0].memory.state, 1)
    && p.settlers[2] == Settler(false, 2, Emitting, other, FirstMemory(version, Active, 2))
  }

  /** Both emissions succeed, and one is counted. */
  predicate LosesAnEmission(version: int, p: Plane) {
    && |p.emissions| == EmissionsIn(p.emissions, Epoch(version, 1)) == 2
    && TotalsAt(p.tables.wf.book, Epoch(version, 1)).runs == 1
  }

  lemma OverlapLoses(x: Dropped, version: int, p: Plane, run: Run, other: Run) returns (q: Plane)
    requires ReachableBut(x, version, p) && Overlapping(version, p, run, other)
    ensures ReachableBut(x, version, q) && LosesAnEmission(version, q)
  {
    q := PlayEmission(x, version, p, 0);
    q := PlayEmission(x, version, q, 2);
    CountsTwo(Emission(1, Epoch(version, 1), run), Emission(2, Epoch(version, 1), other));
    assert q.emissions == [Emission(1, Epoch(version, 1), run), Emission(2, Epoch(version, 1), other)];
  }

  lemma CountsTwo(first: Emission, second: Emission)
    requires first.epoch == second.epoch
    ensures EmissionsIn([first, second], first.epoch) == 2
  {
    assert [first][..0] == [] && [first, second][..1] == [first];
    assert EmissionsIn([first], first.epoch) == 1;
  }

  /** A workflow at version 1, its slot free and its version resolved, that takes new work. */
  predicate FreeAtOne(version: int, p: Plane) {
    && p.tables.wf == ActiveWorkflow(version).(target := 1, current := 1, resolved := 1,
        emitted := p.tables.wf.emitted, book := p.tables.wf.book)
    && p.tables.job.None? && p.schedulings.Keys == {0} && p.settlers.Keys == {0, 1}
    && p.settlers[0].version == 1 && p.settlers[1].version == 1
  }

  lemma NextRunScheduled(x: Dropped, version: int, p: Plane) returns (q: Plane)
    requires ReachableBut(x, version, p) && FreeAtOne(version, p)
    ensures ReachableBut(x, version, q)
    ensures q == p.(tables := Tables(p.tables.wf.(target := 2), p.tables.requests[2 := Scheduled],
            Some(Job(2, Waiting, false, EMPTY_RUN))),
                    schedulings := p.schedulings[1 := Scheduling(2, 1, true)])
  {
    q := PlayBut(x, version, p, Operator(OpCreate));
    q := PlayBut(x, version, q, Validate(1, 2));
    q := PlayBut(x, version, q, Write(1, true));
  }

  /** The job in the slot completes, and is taken up as its request's only verdict. */
  lemma NextRunTakenUp(x: Dropped, version: int, p: Plane, other: Run) returns (q: Plane)
    requires ReachableBut(x, version, p) && 2 !in p.settlers
    requires forall pid :: pid in p.settlers ==> p.settlers[pid].version == 1
    requires p.tables.job == Some(Job(2, Waiting, false, EMPTY_RUN))
    ensures ReachableBut(x, version, q)
    ensures q == p.(tables := p.tables.(job := Some(Job(2, Finished, true, other))),
                    settlers := p.settlers[2 := Settler(false, 2, Applying, EMPTY_RUN, NO_MEMORY)])
  {
    q := PlayGuarded(x, version, p, Operator(OpJobMoves(Finished, other)));
    q := PlayGuarded(x, version, q, BeginComplete(2));
  }

  /** A second request is created, scheduled, run to completion and applied. */
  lemma NextRunApplied(x: Dropped, version: int, p: Plane, other: Run) returns (q: Plane)
    requires ReachableBut(x, version, p) && FreeAtOne(version, p)
    ensures ReachableBut(x, version, q)
    ensures q.tables == Tables(p.tables.wf.(target := 2, current := 2), p.tables.requests[2 := Scheduled],
            Some(Job(2, Finished, true, other)))
    ensures q.settlers == p.settlers[2 := Settler(false, 2, ReadingJob, EMPTY_RUN, NO_MEMORY)]
            && q.emissions == p.emissions
  {
    q := NextRunScheduled(x, version, p);
    q := NextRunTakenUp(x, version, q, other);
    q := PlayBut(x, version, q, Proceed(2, Keep));
  }

  /** Over books that settler 0 is about to close at version 1, the next run overlaps it. */
  lemma NextRunOverlaps(x: Dropped, version: int, p: Plane, run: Run, other: Run) returns (q: Plane)
    requires ReachableBut(x, version, p) && FreeAtOne(version, p)
    requires p.tables.wf.emitted == 0 && p.tables.wf.book == EMPTY_BOOK && p.emissions == []
    requires p.settlers[0].stage == Emitting && p.settlers[0].run == run
    requires p.settlers[0].memory == FirstMemory(version, p.settlers[0].memory.state, 1)
    ensures ReachableBut(x, version, q) && Overlapping(version, q, run, other)
  {
    q := NextRunApplied(x, version, p, other);
    q := PlayReads(x, version, q, 2);
  }

  // ----- an interruption acknowledged over open books

  lemma InterruptionReads(x: Dropped, version: int, run: Run) returns (q: Plane)
    ensures ReachableBut(x, version, q)
    ensures q == Plane(
      Tables(ActiveWorkflow(version).(target := 1, current := 1, lifecycle := Interrupted, state := Disabled),
             map[1 := Scheduled], Some(Job(1, Broken, true, run))),
      map[0 := Settler(true, 1, Emitting, run, FirstMemory(version, Disabled, 1))],
      map[0 := Scheduling(1, 0, true)], map[], map[], [], [], {})
  {
    q := FirstRunEnded(x, version, Broken, run);
    NothingMoves(q.tables.requests, Frozen, Unscheduled);
    q := PlayGuarded(x, version, q, BeginFail(0));
    q := PlayBut(x, version, q, Proceed(0, Keep));
    q := PlayReads(x, version, q, 0);
  }

  function TwoTeardowns(version: int, run: Run): map<Pid, Settler> {
    map[0 := Settler(true, 1, Emitting, run, FirstMemory(version, Disabled, 1)),
        1 := Settler(true, 1, Marking, EMPTY_RUN, NO_MEMORY)]
  }

  /** A second teardown deletes the job. */
  lemma InterruptionCleared(version: int, run: Run) returns (q: Plane)
    ensures ReachableBut(Acknowledgements, version, q)
    ensures q == Plane(
      Tables(ActiveWorkflow(version).(target := 1, current := 1, lifecycle := Interrupted, state := Disabled),
          map[1 := Scheduled], None),
      TwoTeardowns(version, run), map[0 := Scheduling(1, 0, true)], map[], map[], [], [], {})
  {
    q := InterruptionReads(Acknowledgements, version, run);
    q := PlayGuarded(Acknowledgements, version, q, BeginFail(1));
    q := PlayBut(Acknowledgements, version, q, Proceed(1, Keep));
    q := PlayBut(Acknowledgements, version, q, Proceed(1, Keep));
  }

  /** The operator acknowledges. */
  lemma InterruptionAcknowledged(version: int, run: Run) returns (q: Plane)
    ensures ReachableBut(Acknowledgements, version, q)
    ensures q == Plane(
      Tables(ActiveWorkflow(version).(target := 1, current := 1, resolved := 1), map[1 := Scheduled], None),
      TwoTeardowns(version, run), map[0 := Scheduling(1, 0, true)], map[], map[], [], [], {})
  {
    q := InterruptionCleared(version, run);
    q := PlayGuarded(Acknowledgements, version, q, Operator(OpAcknowledge));
  }

  lemma AcknowledgedInterruptionLosesAnEmission(version: int, run: Run, other: Run) returns (q: Plane)
    ensures ReachableBut(Acknowledgements, version, q) && LosesAnEmission(version, q)
  {
    q := InterruptionAcknowledged(version, run);
    q := NextRunOverlaps(Acknowledgements, version, q, run, other);
    q := OverlapLoses(Acknowledgements, version, q, run, other);
  }

  // ----- a run both completed and failed

  lemma CompletionReads(x: Dropped, version: int, run: Run) returns (q: Plane)
    ensures ReachableBut(x, version, q)
    ensures q == Plane(
      Tables(ActiveWorkflow(version).(target := 1, current := 1), map[1 := Scheduled],
          Some(Job(1, Finished, true, run))),
      map[0 := Settler(false, 1, Emitting, run, FirstMemory(version, Active, 1))],
      map[0 := Scheduling(1, 0, true)], map[], map[], [], [], {})
  {
    q := FirstRunEnded(x, version, Finished, run);
    q := PlayGuarded(x, version, q, BeginComplete(0));
    q := PlayBut(x, version, q, Proceed(0, Keep));
    q := PlayReads(x, version, q, 0);
  }

  /** A stale owner fails the completed row, and a teardown takes it up. */
  lemma CompletedThenBroken(version: int, run: Run) returns (q: Plane)
    ensures ReachableBut(Verdicts, version, q)
    ensures q == Plane(
      Tables(ActiveWorkflow(version).(target := 1, current := 1), map[1 := Scheduled], Some(Job(1, Broken, true, run))),
      map[0 := Settler(false, 1, Emitting, run, FirstMemory(version, Active, 1)),
          1 := Settler(true, 1, Applying, EMPTY_RUN, NO_MEMORY)],
      map[0 := Scheduling(1, 0, true)], map[], map[], [], [], {})
  {
    q := CompletionReads(Verdicts, version, run);
    q := PlayGuarded(Verdicts, version, q, Operator(OpJobMoves(Broken, run)));
    q := PlayGuarded(Verdicts, version, q, BeginFail(1));
  }

  lemma CompletedThenFailed(version: int, run: Run) returns (q: Plane)
    ensures ReachableBut(Verdicts, version, q)
    ensures q == Plane(
      Tables(ActiveWorkflow(version).(target := 1, current := 1), map[1 := Failed], None),
      TwoVerdicts(version, run), map[0 := Scheduling(1, 0, true)], map[], map[], [], [], {})
  {
    q := CompletedThenBroken(version, run);
    q := PlayBut(Verdicts, version, q, Proceed(1, Keep));
    q := PlayBut(Verdicts, version, q, Proceed(1, Keep));
    q := PlayBut(Verdicts, version, q, Proceed(1, Keep));
  }

  function TwoVerdicts(version: int, run: Run): map<Pid, Settler> {
    map[0 := Settler(false, 1, Emitting, run, FirstMemory(version, Active, 1)),
        1 := Settler(true, 1, Gone, EMPTY_RUN, NO_MEMORY)]
  }

  lemma HeldAndDrained(version: int, run: Run) returns (q: Plane)
    ensures ReachableBut(Verdicts, version, q)
    ensures q == Plane(
      Tables(ActiveWorkflow(version).(target := 1, current := 1, state := Suspended, suspension := Some(0)),
          map[1 := Failed], None),
      TwoVerdicts(version, run), map[0 := Scheduling(1, 0, true)], map[0 := Drain(0, true)], map[], [], [], {0})
  {
    q := CompletedThenFailed(version, run);
    NothingMoves(q.tables.requests, Unscheduled, Frozen);
    q := PlayBut(Verdicts, version, q, Suspend(0));
    q := PlayBut(Verdicts, version, q, BeginDrain(0));
    q := PlayBut(Verdicts, version, q, LookForDrain(0));
  }

  lemma HeldAndResumed(version: int, run: Run) returns (q: Plane)
    ensures ReachableBut(Verdicts, version, q)
    ensures q == Plane(
      Tables(ActiveWorkflow(version).(target := 1, current := 1, resolved := 1), map[1 := Failed], None),
      TwoVerdicts(version, run), map[0 := Scheduling(1, 0, true)], map[0 := Drain(0, true)], map[], [], [], {0})
  {
    q := HeldAndDrained(version, run);
    NothingMoves(q.tables.requests, Frozen, Unscheduled);
    q := PlayBut(Verdicts, version, q, FinalizeDrain(0));
    q := PlayBut(Verdicts, version, q, Operator(OpRestore(0, ToActive, version, false)));
  }

  lemma TwoVerdictsLoseAnEmission(version: int, run: Run, other: Run) returns (q: Plane)
    ensures ReachableBut(Verdicts, version, q) && LosesAnEmission(version, q)
  {
    q := HeldAndResumed(version, run);
    q := NextRunOverlaps(Verdicts, version, q, run, other);
    q := OverlapLoses(Verdicts, version, q, run, other);
  }

  // ----- an ended row reset

  /** A stale owner resets the ended row. */
  lemma RowReset(version: int, run: Run) returns (q: Plane)
    ensures ReachableBut(Resets, version, q)
    ensures q == Plane(
      Tables(ActiveWorkflow(version).(target := 1), map[1 := Scheduled], Some(Job(1, Waiting, true, run))),
      map[0 := Settler(false, 1, Applying, EMPTY_RUN, NO_MEMORY)],
      map[0 := Scheduling(1, 0, true)], map[], map[], [], [], {})
  {
    q := FirstRunEnded(Resets, version, Finished, run);
    q := PlayGuarded(Resets, version, q, BeginComplete(0));
    q := PlayGuarded(Resets, version, q, Operator(OpJobMoves(Waiting, run)));
  }

  /** A newer request takes its slot. */
  lemma ResetRowReplaced(version: int, run: Run) returns (q: Plane)
    ensures ReachableBut(Resets, version, q)
    ensures q == Plane(
      Tables(ActiveWorkflow(version).(target := 2), map[1 := Scheduled, 2 := Scheduled],
             Some(Job(2, Waiting, false, run))),
      map[0 := Settler(false, 1, Applying, EMPTY_RUN, NO_MEMORY)],
      map[0 := Scheduling(1, 0, true), 1 := Scheduling(2, 0, true)], map[], map[], [], [], {})
  {
    q := RowReset(version, run);
    q := PlayBut(Resets, version, q, Operator(OpCreate));
    q := PlayBut(Resets, version, q, Validate(1, 2));
    q := PlayBut(Resets, version, q, Write(1, false));
  }

  lemma ResetRunReads(version: int, run: Run) returns (q: Plane)
    ensures ReachableBut(Resets, version, q)
    ensures q == Plane(
      Tables(ActiveWorkflow(version).(target := 2, current := 1), map[1 := Scheduled, 2 := Scheduled],
          Some(Job(2, Waiting, false, run))),
      map[0 := Settler(false, 1, Emitting, EMPTY_RUN, FirstMemory(version, Active, 1))],
      map[0 := Scheduling(1, 0, true), 1 := Scheduling(2, 0, true)], map[], map[], [], [], {})
  {
    q := ResetRowReplaced(version, run);
    q := PlayBut(Resets, version, q, Proceed(0, Keep));
    q := PlayReads(Resets, version, q, 0);
  }

  lemma ResetRunsOverlap(version: int, run: Run, other: Run) returns (q: Plane)
    ensures ReachableBut(Resets, version, q) && Overlapping(version, q, EMPTY_RUN, other)
  {
    q := ResetRunReads(version, run);
    q := PlayGuarded(Resets, version, q, Operator(OpJobMoves(Finished, other)));
    q := PlayGuarded(Resets, version, q, BeginComplete(2));
    q := PlayBut(Resets, version, q, Proceed(2, Keep));
    q := PlayReads(Resets, version, q, 2);
  }

  lemma ResetRowLosesAnEmission(version: int, run: Run, other: Run) returns (q: Plane)
    ensures ReachableBut(Resets, version, q) && LosesAnEmission(version, q)
  {
    q := ResetRunsOverlap(version, run, other);
    q := OverlapLoses(Resets, version, q, EMPTY_RUN, other);
  }

  /** Whichever one condition is dropped, some run that keeps the other two loses an emission. */
  lemma EachConditionIsNeeded(x: Dropped, version: int, run: Run, other: Run) returns (steps: seq<Step>)
    requires !x.Nothing?
    ensures OrderlyRunBut(x, Created(version), steps) && LosesAnEmission(version, ExecAll(Created(version), steps))
  {
    var q;
    match x {
      case Verdicts => q := TwoVerdictsLoseAnEmission(version, run, other);
      case Acknowledgements => q := AcknowledgedInterruptionLosesAnEmission(version, run, other);
      case Resets => q := ResetRowLosesAnEmission(version, run, other);
    }
    steps := RunReaches(x, version, q);
  }

  // ----- a completed row written by a stale owner

  /**
    Between reading the job and emitting, a stale owner's write leaves the call with metrics that
    are not the row's.
  */
  lemma StaleWriteOutdatesTheRun(version: int, run: Run, other: Run) returns (q: Plane)
    ensures ReachableBut(Nothing, version, q)
    ensures 0 in q.settlers && !q.settlers[0].failing && q.settlers[0].stage == Emitting
    ensures q.settlers[0].version == q.settlers[0].memory.current == q.tables.wf.current && Open(q.tables.wf)
    ensures HasJob(q.tables, 1) && q.tables.job.value.phase == Finished
    ensures q.settlers[0].run == run && q.tables.job.value.run == other
  {
    q := CompletionReads(Nothing, version, run);
    q := PlayGuarded(Nothing, version, q, Operator(OpJobMoves(Finished, other)));
  }

  // ----- a stale completion

  /** Two calls complete the first request; one stops before it reads the workflow. */
  lemma TwoCompletions(version: int, run: Run) returns (q: Plane)
    ensures ReachableBut(Nothing, version, q)
    ensures q == Plane(
      Tables(ActiveWorkflow(version).(target := 1, current := 1), map[1 := Scheduled],
          Some(Job(1, Finished, true, run))),
      map[0 := Settler(false, 1, Emitting, run, FirstMemory(version, Active, 1)),
          1 := Settler(false, 1, ReadingWorkflow, run, NO_MEMORY)],
      map[0 := Scheduling(1, 0, true)], map[], map[], [], [], {})
  {
    q := CompletionReads(Nothing, version, run);
    q := PlayGuarded(Nothing, version, q, BeginComplete(1));
    q := PlayBut(Nothing, version, q, Proceed(1, Keep));
    q := PlayBut(Nothing, version, q, Proceed(1, Keep));
  }

  lemma OneFinishes(version: int, run: Run) returns (q: Plane)
    ensures ReachableBut(Nothing, version, q) && FreeAtOne(version, q) && q.tables.wf.emitted == 1
    ensures q.settlers[1] == Settler(false, 1, ReadingWorkflow, run, NO_MEMORY)
    ensures q.emissions == [Emission(1, Epoch(version, 1), run)]
  {
    q := TwoCompletions(version, run);
    q := PlayEmission(Nothing, version, q, 0);
    q := PlayBut(Nothing, version, q, Proceed(0, Keep));
    q := PlayBut(Nothing, version, q, Proceed(0, Keep));
    q := PlayBut(Nothing, version, q, Proceed(0, Keep));
  }

  lemma StaleReads(version: int, run: Run, other: Run) returns (q: Plane)
    ensures ReachableBut(Nothing, version, q)
    ensures q.tables.wf.emitted == 1 && q.tables.wf.current == 2 && q.tables.job == Some(Job(2, Finished, true, other))
    ensures 1 in q.settlers && q.settlers[1].stage == Emitting && q.settlers[1].run == run
            && q.settlers[1].memory.current == 2
    ensures |q.emissions| == 1 && q.emissions[0].run == run
  {
    q := OneFinishes(version, run);
    q := NextRunApplied(Nothing, version, q, other);
    q := PlayBut(Nothing, version, q, Proceed(1, Keep));
    q := PlayBut(Nothing, version, q, Proceed(1, Keep));
    q := PlayBut(Nothing, version, q, Proceed(1, Keep));
  }

  /** The first request's metrics are emitted again as the second's, which can then never be. */
  lemma StaleCompletionCountsTwice(version: int, run: Run, other: Run) returns (q: Plane)
    ensures ReachableBut(Nothing, version, q)
    ensures |q.emissions| == 2 && q.emissions[0].run == run && q.emissions[1].run == run
    ensures q.emissions[1].at == q.tables.wf.emitted == q.tables.wf.current == 2
    ensures HasJob(q.tables, 2) && q.tables.job.value.run == other
  {
    q := StaleReads(version, run, other);
    q := PlayEmission(Nothing, version, q, 1);
  }
}

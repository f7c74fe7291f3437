/**
  From the reports of worker sessions to the version totals: what a run's emission adds to a
  total is the sum, over agents and over the acquisitions of its job row, of the last report
  each acquisition persisted, with the failures and rejections its row counted.
*/
module Spend {
  import opened Options
  import opened AgentMetrics
  import opened RunFolding
  import opened WorkflowBook
  import JobRow
  import JobProtocol
  import JobHistory
  import JobTheorems
  import ControlPlane
  import WorkflowTables
  import NoLostUpdate

  /** What all acquisitions together reported of one metric for one agent. */
  function ReportedShare(reports: seq<Snapshot>, agent: string, m: Metric): real {
    if FieldOf(m).None? then 0.0 else JobHistory.Reported(reports, agent, FieldOf(m).value)
  }

  /** The sum over a set of agents; the choice of order is immaterial. */
  ghost function ReportedBy(reports: seq<Snapshot>, agents: set<string>, m: Metric): real
    decreases |agents|
  {
    if agents == {} then 0.0 else
    var a :| a in agents;
    ReportedShare(reports, a, m) + ReportedBy(reports, agents - {a}, m)
  }

  lemma {:induction false} ReportsSplit(reports: seq<Snapshot>, agents: set<string>, a: string, m: Metric)
    requires a in agents
    ensures ReportedBy(reports, agents, m) == ReportedShare(reports, a, m) + ReportedBy(reports, agents - {a}, m)
    decreases |agents|
  {
    var b :| b in agents && ReportedBy(reports, agents, m)
        == ReportedShare(reports, b, m) + ReportedBy(reports, agents - {b}, m);
    if a != b {
      ReportsSplit(reports, agents - {b}, a, m);
      ReportsSplit(reports, agents - {a}, b, m);
      assert agents - {b} - {a} == agents - {a} - {b};
    }
  }

  lemma {:induction false} SharesAreReports(row: JobMetrics, reports: seq<Snapshot>, agents: set<string>, m: Metric)
    requires agents <= row.Keys
    requires forall a, f :: JobValue(row, a, f) == JobHistory.Reported(reports, a, f)
    ensures SharesOf(Lift(row), agents, m) == ReportedBy(reports, agents, m)
    decreases |agents|
  {
    if agents != {} {
      var a :| a in agents;
      ShareSplits(Lift(row), agents, a, m);
      ReportsSplit(reports, agents, a, m);
      SharesAreReports(row, reports, agents - {a}, m);
      if FieldOf(m).Some? {
        assert JobValue(row, a, FieldOf(m).value) == JobHistory.Reported(reports, a, FieldOf(m).value);
      }
    }
  }

  /** The failures and rejected gates a history of the row counts. */
  function CountedShare(log: JobProtocol.History, m: Metric): real {
    match m
    case NumFailures => JobHistory.FailuresIn(log) as real
    case ApprovalRejections => JobHistory.RejectionsIn(log) as real
    case _ => 0.0
  }

  /** A job row's run, from its insertion: how it was reached. */
  datatype Origin = Origin(op: JobRow.OpName, timeout: int, now: int, steps: seq<JobProtocol.Step>)

  function Reached(o: Origin): JobProtocol.World {
    JobTheorems.After(o.op, o.timeout, o.now, o.steps)
  }

  /** What the sessions of a row's run spent of a metric, as its row says. */
  ghost function SpentIn(w: JobProtocol.World, m: Metric): real {
    if w.row.None? then 0.0
    else ReportedBy(JobHistory.Ledger(w.log), w.row.value.agents.Keys, m) + CountedShare(w.log, m)
  }

  /** The run a row folds to carries exactly what its sessions reported. */
  lemma RunCarriesItsReports(o: Origin, m: Metric)
    requires Reached(o).row.Some?
    ensures var row := Reached(o).row.value;
            SnapValue(RunOf(row.agents, row.counters).snap, m) == SpentIn(Reached(o), m)
  {
    var w := Reached(o);
    var row := w.row.value;
    SnapOfSummarizes(Lift(row.agents), row.counters);
    assert Summarizes(SnapOf(Lift(row.agents), row.counters), Lift(row.agents), row.counters, m);
    forall a, f
      ensures JobValue(row.agents, a, f) == JobHistory.Reported(JobHistory.Ledger(w.log), a, f)
    {
      JobTheorems.MetricsConserved(o.op, o.timeout, o.now, o.steps, a, f);
    }
    assert Lift(row.agents).Keys == row.agents.Keys;
    SharesAreReports(row.agents, JobHistory.Ledger(w.log), row.agents.Keys, m);
    JobTheorems.CountersConserved(o.op, o.timeout, o.now, o.steps);
  }

  /** An emission of the run of a reached row, or of nothing where the row was gone. */
  ghost predicate Carries(e: Emission, o: Option<Origin>) {
    match o
    case None => e.run == EMPTY_RUN
    case Some(origin) => Stems(e.run, origin)
  }

  ghost function SpentOn(log: seq<Emission>, origins: seq<Option<Origin>>, k: Epoch, m: Metric): real
    requires |log| == |origins|
  {
    if log == [] then 0.0 else
    var n := |log| - 1;
    SpentOn(log[..n], origins[..n], k, m)
    + if log[n].epoch == k && origins[n].Some? then SpentIn(Reached(origins[n].value), m) else 0.0
  }

  lemma {:induction false} EmittedIsSpent(log: seq<Emission>, origins: seq<Option<Origin>>, k: Epoch, m: Metric)
    requires |log| == |origins| && forall i :: 0 <= i < |log| ==> Carries(log[i], origins[i])
    ensures EmittedSum(log, k, m) == SpentOn(log, origins, k, m)
    decreases |log|
  {
    if log != [] {
      var n := |log| - 1;
      EmittedIsSpent(log[..n], origins[..n], k, m);
      assert Carries(log[n], origins[n]);
      if origins[n].Some? {
        RunCarriesItsReports(origins[n].value, m);
      }
    }
  }

  // ----- every emission's run is one the job row went through

  /** The runs the job row's moves carry, and the empty one. */
  function MovedRuns(steps: seq<ControlPlane.Step>): set<Run>
    decreases |steps|
  {
    if steps == [] then {EMPTY_RUN} else MovedRuns(steps[..|steps| - 1]) + CarriedBy(steps[|steps| - 1])
  }

  function CarriedBy(step: ControlPlane.Step): set<Run> {
    if step.Operator? && step.op.OpJobMoves? then {step.op.run} else {}
  }

  predicate RunsKnown(p: ControlPlane.Plane, runs: set<Run>) {
    && EMPTY_RUN in runs
    && (p.tables.job.Some? ==> p.tables.job.value.run in runs)
    && (forall pid :: pid in p.settlers ==> p.settlers[pid].run in runs)
    && (forall i :: 0 <= i < |p.emissions| ==> p.emissions[i].run in runs)
  }

  lemma OperateKnows(t: WorkflowTables.Tables, op: ControlPlane.Operation, runs: set<Run>)
    requires t.job.Some? ==> t.job.value.run in runs
    ensures var t' := ControlPlane.Operate(t, op);
            t'.job.Some? ==> t'.job.value.run in runs + CarriedBy(ControlPlane.Operator(op))
  {
  }

  lemma SettlerKnows(t: WorkflowTables.Tables, s: ControlPlane.Settler, d: WorkflowTables.Decision, runs: set<Run>)
    requires EMPTY_RUN in runs && s.run in runs && (t.job.Some? ==> t.job.value.run in runs)
    ensures ControlPlane.SettlerNext(t, s).run in runs
    ensures var t' := ControlPlane.SettlerTables(t, s, d); t'.job.Some? ==> t'.job.value.run in runs
    ensures forall e :: e in ControlPlane.Emits(t, s) ==> e.run in runs
  {
  }

  lemma SettleKnows(p: ControlPlane.Plane, pid: nat, d: WorkflowTables.Decision, runs: set<Run>)
    requires RunsKnown(p, runs) && pid in p.settlers
    ensures RunsKnown(ControlPlane.Settle(p, pid, d), runs)
  {
    SettlerKnows(p.tables, p.settlers[pid], d, runs);
  }

  lemma StepKnows(p: ControlPlane.Plane, step: ControlPlane.Step, runs: set<Run>)
    requires RunsKnown(p, runs)
    ensures RunsKnown(ControlPlane.Exec(p, step), runs + CarriedBy(step))
  {
    match step
    case Operator(op) => OperateKnows(p.tables, op, runs);
    case Proceed(pid, d) => if pid in p.settlers { SettleKnows(p, pid, d, runs); }
    case _ => if ControlPlane.IsTail(step) { TailKnows(p, step, runs); } else { ProcessKnows(p, step, runs); }
  }

  lemma TailKnows(p: ControlPlane.Plane, step: ControlPlane.Step, runs: set<Run>)
    requires RunsKnown(p, runs) && ControlPlane.IsTail(step)
    ensures RunsKnown(ControlPlane.Exec(p, step), runs)
  {
    ControlPlane.TailIsItsEffect(p, step);
  }

  lemma ProcessKnows(p: ControlPlane.Plane, step: ControlPlane.Step, runs: set<Run>)
    requires RunsKnown(p, runs) && !step.Operator? && !step.Proceed? && !ControlPlane.IsTail(step)
    ensures RunsKnown(ControlPlane.Exec(p, step), runs)
  {
  }

  lemma {:induction false} RunKnows(version: int, steps: seq<ControlPlane.Step>)
    ensures RunsKnown(ControlPlane.ExecAll(ControlPlane.Created(version), steps), MovedRuns(steps))
    decreases |steps|
  {
    if steps != [] {
      var front := steps[..|steps| - 1];
      RunKnows(version, front);
      StepKnows(ControlPlane.ExecAll(ControlPlane.Created(version), front), steps[|steps| - 1], MovedRuns(front));
    }
  }

  /** A run that some job row, from its insertion, really folds to. */
  ghost predicate Stems(run: Run, o: Origin) {
    Reached(o).row.Some? && run == RunOf(Reached(o).row.value.agents, Reached(o).row.value.counters)
  }

  ghost predicate StemsFromARow(run: Run) { exists o :: Stems(run, o) }

  ghost predicate MovesStem(steps: seq<ControlPlane.Step>) {
    forall i, run :: 0 <= i < |steps| && run in CarriedBy(steps[i]) ==> StemsFromARow(run)
  }

  lemma {:induction false} MovedRunsStem(steps: seq<ControlPlane.Step>, run: Run)
    requires MovesStem(steps) && run in MovedRuns(steps)
    ensures run == EMPTY_RUN || StemsFromARow(run)
    decreases |steps|
  {
    if steps != [] && run !in CarriedBy(steps[|steps| - 1]) {
      MovedRunsStem(steps[..|steps| - 1], run);
    }
  }

  lemma {:induction false} OriginsOf(log: seq<Emission>) returns (origins: seq<Option<Origin>>)
    requires forall i :: 0 <= i < |log| ==> log[i].run == EMPTY_RUN || StemsFromARow(log[i].run)
    ensures |origins| == |log| && forall i :: 0 <= i < |log| ==> Carries(log[i], origins[i])
    decreases |log|
  {
    if log == [] {
      origins := [];
    } else {
      var n := |log| - 1;
      var front := OriginsOf(log[..n]);
      if log[n].run == EMPTY_RUN {
        origins := front + [None];
      } else {
        var o :| Stems(log[n].run, o);
        origins := front + [Some(o)];
      }
    }
  }

  /**
    In an orderly run whose job rows move only through what sessions did to them, a version
    total is what the sessions behind its emissions reported.
  */
  lemma TotalsAreWhatSessionsReported(version: int, steps: seq<ControlPlane.Step>, k: Epoch, m: Metric)
    returns (origins: seq<Option<Origin>>)
    requires NoLostUpdate.OrderlyRun(ControlPlane.Created(version), steps) && MovesStem(steps)
    ensures var p := ControlPlane.ExecAll(ControlPlane.Created(version), steps);
            && |origins| == |p.emissions| && (forall i :: 0 <= i < |origins| ==> Carries(p.emissions[i], origins[i]))
            && TotalValue(TotalsAt(p.tables.wf.book, k), m) == SpentOn(p.emissions, origins, k, m)
  {
    var p := ControlPlane.ExecAll(ControlPlane.Created(version), steps);
    RunKnows(version, steps);
    forall i | 0 <= i < |p.emissions|
      ensures p.emissions[i].run == EMPTY_RUN || StemsFromARow(p.emissions[i].run)
    {
      MovedRunsStem(steps, p.emissions[i].run);
    }
    origins := OriginsOf(p.emissions);
    NoLostUpdate.TotalsCountEveryEmission(version, steps, k, m);
    EmittedIsSpent(p.emissions, origins, k, m);
  }
}

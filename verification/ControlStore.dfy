/**
  The workflow row, its requests and its job slot as storage updates them in place, and
  the multi-statement calls the schedulers make on them. Every statement is proved to be
  its function of module WorkflowTables, every call to be its sequence of statements.
*/
module ControlStore {
  import opened Options
  import opened WorkflowBook
  import opened WorkflowTables
  import Completion
  import ControlPlane
  import Jobs
  import JobRow
  import Resume
  import RunFolding
  import RollingHistory
  import AgentMetrics

  type Histories = map<string, seq<AgentMetrics.Agent>>

  /** Only the agents that ran are written, each with its trimmed history. */
  function Touched(read: Histories, ran: AgentMetrics.JobMetrics): Histories {
    map a | a in ran :: RunFolding.Remembered(read, a, ran[a])
  }

  lemma TouchedIsPosted(stored: Histories, read: Histories, ran: AgentMetrics.JobMetrics)
    ensures PostHistories(stored, read, ran) == stored + Touched(read, ran)
  {
  }

  function LatestAfter(latest: map<int, nat>, k: Epoch): nat {
    if k.version in latest then Max(latest[k.version], k.number) else k.number
  }

  /** What an emission writes once its values are computed. */
  function Written(t: Tables, at: nat, k: Epoch, newTotals: RunFolding.Totals, newRolling: seq<RunFolding.Snap>,
                   touched: Histories): Tables {
    if t.wf.emitted >= at then t else
    var b := t.wf.book;
    t.(wf := t.wf.(emitted := at, book := Book(
      b.totals[k := newTotals],
      b.latest[k.version := LatestAfter(b.latest, k)],
      newRolling,
      b.histories + touched)))
  }

  lemma EmissionIsWritten(t: Tables, m: ControlPlane.Memory, run: Run)
    ensures Completion.Emitted(t, m, run)
            == Written(t, m.current, m.epoch, RunFolding.AddRun(m.totals, run.snap),
                RollingHistory.Trimmed(m.rolling + [run.snap]), Touched(m.histories, run.agents))
  {
    TouchedIsPosted(t.wf.book.histories, m.histories, run.agents);
  }

  lemma StagesUpToEmission(t: Tables, v: nat, rules: Completion.Rules, stop: nat, applied: Tables, emitted: Tables)
    requires applied == ApplyCompletedJob(t, v)
    requires emitted == Completion.Emitted(applied, Completion.Read(applied), GetJobMetrics(applied, v))
    requires stop == Completion.EMITTED
    ensures Completion.Completes(t, v, rules, stop) == emitted
  {
  }

  /** ScheduleRequest of an existing request with nothing in between. */
  function ScheduledAlone(t: Tables, v: nat, queueMode: bool): Tables {
    if !MaySchedule(t.wf) || !MayWriteJob(t, v, t.wf.current, queueMode) then t else
    var written := WriteJob(t, v, t.wf.current, queueMode);
    var kept := if queueMode then written else SupercedeOlder(written, v);
    if kept.wf.lifecycle in {Deleted, Interrupted, Halted} then kept else MarkLifecycle(kept)
  }

  /** What a written schedule does to every request: its own is scheduled, older waiting ones give way unless queued. */
  lemma SchedulingSettlesTheQueue(t: Tables, v: nat, queueMode: bool, r: nat)
    requires MaySchedule(t.wf) && MayWriteJob(t, v, t.wf.current, queueMode) && r in t.requests
    ensures var t' := ScheduledAlone(t, v, queueMode);
            && t'.job.Some? && t'.job.value.version == v && t'.job.value.phase == Waiting
            && t'.job.value.run == (if t.job.Some? then t.job.value.run else EMPTY_RUN)
            && t'.requests.Keys == t.requests.Keys
            && (r == v ==> t'.requests[r] == RequestStatus.Scheduled)
            && (r != v ==>
                  var waiting := t.requests[r] in {Unscheduled, RequestStatus.Scheduled};
                  t'.requests[r] == if !queueMode && r < v && waiting then Superceded else t.requests[r])
  {
  }

  /** Once the tail of a suspension has run with nothing in between. */
  function SuspensionReconciled(t: Tables, readState: WorkflowState, id: nat): Tables {
    if readState != Suspended then AbortSuspension(t, id)
    else if NothingRunning(t.requests) then FinalizeSuspended(t, id)
    else t
  }

  function DeletionReconciled(t: Tables): Tables {
    var abandoned := AbandonQueued(t, t.requests.Keys);
    if NothingRunning(abandoned.requests) then FinalizeDeleted(abandoned) else abandoned
  }

  /** The job slot: the row's request, its phase, and the metrics columns. */
  datatype Slot = Slot(version: nat, phase: JobPhase, ended: bool, agents: AgentMetrics.JobMetrics,
      counters: JobRow.RunCounters)

  ghost function JobOf(slot: Option<Slot>): Option<Job> {
    if slot.None? then None
    else Some(Job(slot.value.version, slot.value.phase, slot.value.ended,
        RunOf(slot.value.agents, slot.value.counters)))
  }

  lemma TouchedAreAll(histories: Histories, agents: AgentMetrics.JobMetrics)
    ensures RunFolding.TouchedHistories(histories, AgentMetrics.Lift(agents), AgentMetrics.Lift(agents).Keys)
            == Touched(histories, agents)
  {
  }

  /** The handler's loops over a job row's metrics, giving what the emission is to write. */
  method FoldRun(agents: AgentMetrics.JobMetrics, counters: JobRow.RunCounters, readTotals: RunFolding.Totals,
                 histories: Histories, rolling: seq<RunFolding.Snap>)
    returns (run: Run, newTotals: RunFolding.Totals, touched: Histories, newRolling: seq<RunFolding.Snap>)
    ensures run == RunOf(agents, counters)
    ensures newTotals == RunFolding.AddRun(readTotals, run.snap) && touched == Touched(histories, run.agents)
    ensures newRolling == RollingHistory.Trimmed(rolling + [run.snap])
  {
    var panicked, snapshot;
    panicked, snapshot, newTotals, touched, newRolling :=
      RunFolding.HandleAgentMetrics(AgentMetrics.Lift(agents), counters, readTotals, histories, rolling);
    run := Run(snapshot, agents);
    RunFolding.RowMetricsNeverPanic(agents, histories);
    assert !panicked;
    TouchedAreAll(histories, agents);
  }

  class WorkflowStore {
    var state: WorkflowState
    var lifecycle: Lifecycle
    var suspension: Option<nat>
    var finalized: bool
    var deleting: bool
    var target: nat
    var current: nat
    var emitted: nat
    var resolved: nat
    var version: int
    var totals: map<Epoch, RunFolding.Totals>
    var latest: map<int, nat>
    var rolling: seq<RunFolding.Snap>
    var histories: Histories
    var requests: Requests
    var slot: Option<Slot>

    ghost function View(): Tables
      reads this
    {
      Tables(
        Workflow(state, lifecycle, suspension, finalized, deleting, target, current, emitted, resolved, version,
            Book(totals, latest, rolling, histories)),
        requests, JobOf(slot))
    }

    constructor (workflowVersion: int)
      ensures View() == CreatedTables(workflowVersion)
    {
      state, lifecycle, suspension, finalized, deleting := Paused, Ready, None, false, false;
      target, current, emitted, resolved, version := 0, 0, 0, 0, workflowVersion;
      totals, latest, rolling, histories := map[], map[], [], map[];
      requests, slot := map[], None;
    }

    // ----- statements

    method ApplyCompletedJob(v: nat) returns (applied: bool)
      modifies this`current, this`lifecycle
      ensures View() == WorkflowTables.ApplyCompletedJob(old(View()), v) && applied == (old(current) < v)
    {
      applied := current < v;
      if applied {
        current := v;
        if target == v {
          lifecycle := Ready;
        }
      }
    }

    /** The gate, the totals row, then one upsert per agent that ran. */
    method EmitMetrics(at: nat, k: Epoch, newTotals: RunFolding.Totals, newRolling: seq<RunFolding.Snap>,
                       touched: Histories)
      returns (applied: bool)
      modifies this`emitted, this`totals, this`latest, this`rolling, this`histories
      ensures View() == Written(old(View()), at, k, newTotals, newRolling, touched) && applied == (old(emitted) < at)
    {
      applied := emitted < at;
      if !applied { return; }
      emitted, rolling := at, newRolling;
      UpsertTotals(k, newTotals);
      UpsertHistories(touched);
    }

    method UpsertTotals(k: Epoch, newTotals: RunFolding.Totals)
      modifies this`totals, this`latest
      ensures totals == old(totals)[k := newTotals]
      ensures latest == old(latest)[k.version := LatestAfter(old(latest), k)]
    {
      totals := totals[k := newTotals];
      latest := latest[k.version := if k.version in latest then Max(latest[k.version], k.number) else k.number];
    }

    method UpsertHistories(touched: Histories)
      modifies this`histories
      ensures histories == old(histories) + touched
    {
      ghost var stored := histories;
      var left := touched.Keys;
      while left != {}
        invariant left <= touched.Keys
        invariant histories.Keys == stored.Keys + (touched.Keys - left)
        invariant forall a :: a in histories ==>
                    histories[a] == if a in touched && a !in left then touched[a] else stored[a]
      {
        var a :| a in left;
        left := left - {a};
        histories := histories[a := touched[a]];
      }
    }

    method TryApplyVersionResolution(at: nat, expected: int, to: int) returns (applied: bool)
      modifies this`resolved, this`version, this`totals, this`latest
      ensures View() == WorkflowTables.Resolve(old(View()), at, state, expected, ChangeVersion(to))
      ensures applied == MayResolve(old(View()).wf, at, expected, ChangeVersion(to))
    {
      applied := resolved < at && version == expected && state !in {Disabled, Suspended};
      if applied {
        resolved, version := at, to;
        if to != expected {
          StartNewMetricsEpoch(to);
        }
      }
    }

    method TryApplyStateResolution(at: nat, to: WorkflowState) returns (applied: bool)
      modifies this`resolved, this`state
      ensures View() == WorkflowTables.Resolve(old(View()), at, to, version, Keep)
              && applied == MayResolve(old(View()).wf, at, version, Keep)
    {
      applied := resolved < at && state !in {Disabled, Suspended};
      if applied {
        resolved, state := at, to;
      }
    }

    method StartNewMetricsEpoch(v: int)
      modifies this`totals, this`latest
      ensures Book(totals, latest, rolling, histories) == StartEpoch(old(Book(totals, latest, rolling, histories)), v)
    {
      var n := (if v in latest then latest[v] else 0) + 1;
      totals := totals[Epoch(v, n) := RunFolding.NO_TOTALS];
      latest := latest[v := n];
    }

    method DeleteTerminalJob(v: nat) returns (deleted: bool)
      modifies this`slot
      ensures View() == WorkflowTables.DeleteTerminalJob(old(View()), v) && deleted == (old(slot).Some? && slot.None?)
    {
      deleted := slot.Some? && slot.value.version == v && slot.value.phase in {Finished, Broken};
      if deleted {
        slot := None;
      }
    }

    method UpsertJobAndSchedule(v: nat, expected: nat, queueMode: bool) returns (written: bool)
      modifies this`slot, this`requests
      ensures View() == WriteJob(old(View()), v, expected, queueMode)
              && written == MayWriteJob(old(View()), v, expected, queueMode)
    {
      written := v in requests && requests[v] == Unscheduled && current == expected
                 && (slot.None? || (!queueMode && slot.value.version < v && slot.value.phase == Waiting));
      if written {
        NothingReported();
        slot := Some(if slot.Some? then slot.value.(version := v, phase := Waiting, ended := false)
                     else Slot(v, Waiting, false, map[], JobRow.RunCounters(0, None)));
        requests := requests[v := RequestStatus.Scheduled];
      }
    }

    method HasRunningRequest() returns (running: bool)
      ensures running == !NothingRunning(requests)
    {
      running := exists v :: v in requests && requests[v] in {RequestStatus.Scheduled, InProgress};
    }

    // ----- calls

    /** Reads the job's metrics, the workflow, its totals and its agents, folds the run in and emits. */
    method RecordRun(v: nat) returns (m: ControlPlane.Memory, run: Run)
      modifies this`emitted, this`totals, this`latest, this`rolling, this`histories
      ensures run == GetJobMetrics(old(View()), v) && m == Completion.Read(old(View()))
      ensures View() == Completion.Emitted(old(View()), m, run)
    {
      var agents, counters := ReadJobMetrics(v);
      var k := Epoch(version, if version in latest then latest[version] else 1);
      var stored := if k in totals then totals[k] else RunFolding.NO_TOTALS;
      m := ControlPlane.Memory(current, state, version, rolling, k, stored, histories);
      var newTotals, touched, newRolling;
      run, newTotals, touched, newRolling := FoldRun(agents, counters, m.totals, m.histories, m.rolling);
      EmissionIsWritten(View(), m, run);
      var _ := EmitMetrics(current, k, newTotals, newRolling, touched);
    }

    /** GetJobMetrics: a row that is gone, or another request's, reports nothing. */
    method ReadJobMetrics(v: nat) returns (agents: AgentMetrics.JobMetrics, counters: JobRow.RunCounters)
      ensures RunOf(agents, counters) == GetJobMetrics(View(), v)
    {
      agents, counters := map[], JobRow.RunCounters(0, None);
      NothingReported();
      if slot.Some? && slot.value.version == v {
        agents, counters := slot.value.agents, slot.value.counters;
      }
    }

    method CompleteRequest(v: nat, rules: Completion.Rules, stop: nat) returns (applied: bool)
      modifies this
      ensures View() == Completion.Completes(old(View()), v, rules, stop)
      ensures applied <==> stop >= Completion.MARKED && old(current) < v
    {
      applied := false;
      ghost var atFirst := View();
      if stop < Completion.APPLIED { return; }
      var advanced := ApplyCompletedJob(v);
      ghost var atApplied := View();
      if stop < Completion.EMITTED { return; }
      var m, run := RecordRun(v);
      ghost var atEmitted := View();
      if stop < Completion.RESOLVED {
        StagesUpToEmission(atFirst, v, rules, stop, atApplied, atEmitted);
        return;
      }
      Resolve(m, run, rules);
      ghost var atResolved := View();
      var marked := Finish(v, stop);
      applied := marked && advanced;
      Completion.StagesOfACall(atFirst, v, Completion.Decided(rules, m, run), stop, atApplied, atEmitted, atResolved,
          WorkflowTables.DeleteTerminalJob(atResolved, v));
    }

    method Finish(v: nat, stop: nat) returns (marked: bool)
      modifies this`slot, this`requests
      ensures marked == (stop >= Completion.MARKED)
      ensures View() ==
              if stop < Completion.CLEARED then old(View())
              else if stop < Completion.MARKED then WorkflowTables.DeleteTerminalJob(old(View()), v)
              else MarkRequest(WorkflowTables.DeleteTerminalJob(old(View()), v), v, Completed)
    {
      marked := false;
      if stop < Completion.CLEARED { return; }
      var _ := DeleteTerminalJob(v);
      if stop < Completion.MARKED { return; }
      if v in requests {
        requests := requests[v := Completed];
      }
      marked := true;
    }

    /** The policy on the caller's own metrics, applied against the caller's own read. */
    method Resolve(m: ControlPlane.Memory, run: Run, rules: Completion.Rules)
      modifies this`resolved, this`version, this`state, this`totals, this`latest
      ensures View() == Completion.ResolvedBy(old(View()), m, Completion.Decided(rules, m, run))
    {
      var goal := Resume.Decide(RollingHistory.Trimmed(m.rolling + [run.snap]), rules,
          RunFolding.AddRun(m.totals, run.snap));
      var applied;
      match goal
      case ChangeVersion(to) => applied := TryApplyVersionResolution(m.current, m.version, to);
      case EnterPause => applied := TryApplyStateResolution(m.current, Paused);
      case EnterCooldown(_) => applied := TryApplyStateResolution(m.current, WorkflowState.Cooldown);
      case KeepState => applied := TryApplyStateResolution(m.current, m.state);
    }

    method ScheduleRequest(v: nat, queueMode: bool) returns (written: bool)
      modifies this
      ensures View() == ScheduledAlone(old(View()), v, queueMode)
      ensures old(state) != Active || old(resolved) != old(current) ==> View() == old(View()) && !written
      ensures written ==> old(state) == Active && old(resolved) == old(current) && slot.Some? && slot.value.version == v
    {
      written := false;
      if state != Active || resolved != current { return; }
      written := UpsertJobAndSchedule(v, current, queueMode);
      if !written { return; }
      if !queueMode {
        requests := map r | r in requests :: if requests[r] in {Unscheduled, RequestStatus.Scheduled} && r < v
            then Superceded else requests[r];
      }
      if lifecycle !in {Deleted, Interrupted, Halted} {
        lifecycle := Ready;
      }
    }

    /** reconcileOne of the suspension reconciler, on the state, hold and choice it listed earlier. */
    method ReconcileSuspension(readState: WorkflowState, id: nat, stopCurrent: bool, jobs: Jobs.JobRepo, now: int)
      modifies this, jobs
      ensures View() == SuspensionReconciled(old(View()), readState, id)
      ensures jobs.View() == if readState == Suspended && stopCurrent && old(suspension) == Some(id)
                             then Jobs.Ran(old(jobs.View()), JobRow.MarkAbandon, now) else old(jobs.View())
      ensures !old(finalized) && finalized ==>
                NothingRunning(requests) && state == Suspended && suspension == Some(id) && lifecycle == Halted
      ensures readState == Suspended == old(state) && old(suspension) == Some(id) && NothingRunning(old(requests)) ==>
                finalized
      ensures readState != Suspended && old(state) != Suspended && old(suspension) == Some(id) ==>
                suspension == None && !finalized && forall v :: v in requests ==> requests[v] != Frozen
    {
      if readState != Suspended {
        AbortSuspension(id);
        return;
      }
      if stopCurrent {
        var _ := jobs.MarkAbandonRequested(now, suspension, id);
      }
      var running := HasRunningRequest();
      if !running {
        FinalizeSuspended(id);
      }
    }

    method AbortSuspension(id: nat)
      modifies this`suspension, this`finalized, this`requests
      ensures View() == WorkflowTables.AbortSuspension(old(View()), id)
    {
      if suspension == Some(id) && state != Suspended {
        suspension, finalized := None, false;
        requests := map v | v in requests :: if requests[v] == Frozen then Unscheduled else requests[v];
      }
    }

    method FinalizeSuspended(id: nat)
      modifies this`finalized, this`lifecycle
      ensures View() == WorkflowTables.FinalizeSuspended(old(View()), id)
    {
      if suspension == Some(id) && state == Suspended && !finalized {
        finalized, lifecycle := true, Halted;
      }
    }

    /** reconcileOne of the deletion reconciler. */
    method ReconcileDeletion()
      modifies this
      ensures View() == DeletionReconciled(old(View()))
      ensures old(lifecycle) != Deleted && lifecycle == Deleted ==> AllTerminal(requests)
      ensures NothingRunning(old(requests)) ==> lifecycle == Deleted
      ensures requests.Keys == old(requests).Keys
      ensures forall v :: v in requests ==>
                requests[v] == if IsQueued(old(requests)[v]) then Abandoned else old(requests)[v]
    {
      requests := map v | v in requests :: if requests[v] in {Unscheduled, Frozen} then Abandoned else requests[v];
      assert View().requests == AbandonQueued(old(View()), old(requests).Keys).requests;
      var running := HasRunningRequest();
      if !running {
        lifecycle := Deleted;
      }
    }
  }
}

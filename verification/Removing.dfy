/**
  Deletion over every run: a deletion is finalized only when every request is terminal,
  and stays that way (MarkDeletionRequested and FinalizeDeleted in
  internal/storage/postgres/workflow.go, reconcileOne in
  internal/scheduler/deletionreconciler.go).
*/
module Removing {
  import opened Options
  import opened WorkflowBook
  import opened WorkflowTables
  import opened ControlPlane
  import opened GateOrder
  import opened Holding
  import opened PlaneRuns

  predicate NoneQueued(requests: Requests) {
    forall v :: v in requests ==> !IsQueued(requests[v])
  }

  predicate RemovalSound(r: Removal, requests: Requests) {
    (r.abandoned ==> NoneQueued(requests)) && (r.idle ==> AllTerminal(requests))
  }

  predicate TablesRemoved(t: Tables) {
    && (t.wf.deleting ==> t.wf.state == Disabled)
    && (t.wf.lifecycle == Deleted ==> t.wf.deleting && AllTerminal(t.requests))
  }

  predicate RemovalInv(p: Plane) {
    && HoldInv(p)
    && TablesRemoved(p.tables)
    && (p.removals != map[] ==> p.tables.wf.deleting)
    && (forall pid :: pid in p.removals ==> RemovalSound(p.removals[pid], p.tables.requests))
  }

  /** No operator acknowledges an interruption of a workflow that is being deleted. */
  predicate Unacknowledged(p: Plane, step: Step) {
    step == Operator(OpAcknowledge) ==> !p.tables.wf.deleting || p.tables.wf.lifecycle != Interrupted
  }

  predicate UnacknowledgedRun(p: Plane, steps: seq<Step>)
    decreases |steps|
  {
    steps != [] ==>
      var front := steps[..|steps| - 1];
      UnacknowledgedRun(p, front) && Unacknowledged(ExecAll(p, front), steps[|steps| - 1])
  }

  /** Once deletion is requested, no request is queued or started that was not before. */
  predicate Winds(t: Tables, t': Tables) {
    && (t.wf.deleting ==> t'.wf.deleting && t'.wf.state == Disabled)
    && (t'.wf.deleting ==> t'.wf.state == Disabled)
    && (t.wf.deleting && NoneQueued(t.requests) ==> NoneQueued(t'.requests))
    && (t.wf.deleting && AllTerminal(t.requests) ==> AllTerminal(t'.requests))
  }

  lemma OperateWinds(t: Tables, op: Operation)
    requires TablesRemoved(t) && (op.OpAcknowledge? ==> !t.wf.deleting || t.wf.lifecycle != Interrupted)
    ensures Winds(t, Operate(t, op))
    ensures Operate(t, op).wf.lifecycle == Deleted ==> t.wf.lifecycle == Deleted
  {
  }

  lemma SettlerWinds(t: Tables, s: Settler, d: Decision)
    requires TablesRemoved(t)
    ensures Winds(t, SettlerTables(t, s, d))
    ensures SettlerTables(t, s, d).wf.lifecycle == Deleted ==> t.wf.lifecycle == Deleted
  {
  }

  lemma WindsKeeps(p: Plane, p': Plane)
    requires RemovalInv(p) && HoldInv(p') && Winds(p.tables, p'.tables) && p'.removals == p.removals
    requires p'.tables.wf.lifecycle == Deleted ==> p.tables.wf.lifecycle == Deleted
    ensures RemovalInv(p')
  {
    forall pid | pid in p'.removals
      ensures RemovalSound(p'.removals[pid], p'.tables.requests)
    {
      assert RemovalSound(p.removals[pid], p.tables.requests);
    }
  }

  lemma StepWinds(p: Plane, step: Step)
    requires RemovalInv(p) && Unacknowledged(p, step) && !step.FinalizeRemoval?
    ensures Winds(p.tables, Exec(p, step).tables)
    ensures Exec(p, step).tables.wf.lifecycle == Deleted ==> p.tables.wf.lifecycle == Deleted
  {
    match step
    case Operator(op) => OperateWinds(p.tables, op);
    case Proceed(pid, d) => if pid in p.settlers { SettlerWinds(p.tables, p.settlers[pid], d); }
    case Validate(pid, v) => SchedulerWinds(p, step);
    case Write(pid, q) => SchedulerWinds(p, step);
    case Supercede(pid) => SchedulerWinds(p, step);
    case _ =>
  }

  lemma SchedulerWinds(p: Plane, step: Step)
    requires TablesRemoved(p.tables) && (step.Validate? || step.Write? || step.Supercede?)
    ensures Winds(p.tables, Exec(p, step).tables) && Exec(p, step).tables.wf == p.tables.wf
  {
  }

  lemma RemovalStepKeeps(p: Plane, step: Step)
    requires RemovalInv(p) && HoldInv(Exec(p, step))
    requires step.BeginRemoval? || step.AbandonForRemoval? || step.LookForRemoval? || step.FinalizeRemoval?
    ensures RemovalInv(Exec(p, step))
  {
  }

  lemma RemovalsLeftAlone(p: Plane, step: Step)
    requires !step.BeginRemoval? && !step.AbandonForRemoval? && !step.LookForRemoval? && !step.FinalizeRemoval?
    ensures Exec(p, step).removals == p.removals
  {
  }

  lemma StepKeepsRemovals(p: Plane, step: Step)
    requires RemovalInv(p) && Unacknowledged(p, step)
    ensures RemovalInv(Exec(p, step))
  {
    var p' := Exec(p, step);
    StepHolds(p, step);
    if step.BeginRemoval? || step.AbandonForRemoval? || step.LookForRemoval? || step.FinalizeRemoval? {
      RemovalStepKeeps(p, step);
    } else {
      StepWinds(p, step);
      RemovalsLeftAlone(p, step);
      WindsKeeps(p, p');
    }
  }

  lemma {:induction false} RunKeepsRemovals(p: Plane, steps: seq<Step>)
    requires RemovalInv(p) && UnacknowledgedRun(p, steps)
    ensures RemovalInv(ExecAll(p, steps))
    decreases |steps|
  {
    if steps != [] {
      RunKeepsRemovals(p, steps[..|steps| - 1]);
      StepKeepsRemovals(ExecAll(p, steps[..|steps| - 1]), steps[|steps| - 1]);
    }
  }

  /** A deleted workflow has only terminal requests, from finalization on. */
  lemma DeletedMeansTerminal(version: int, steps: seq<Step>)
    requires UnacknowledgedRun(Created(version), steps)
    ensures var t := ExecAll(Created(version), steps).tables;
            t.wf.lifecycle == Deleted ==> t.wf.deleting && t.wf.state == Disabled && AllTerminal(t.requests)
  {
    RunKeepsRemovals(Created(version), steps);
  }

  /** The tail of a deletion runs up to its last step. */
  lemma TailRuns(p: Plane, pid: Pid) returns (q: Plane)
    requires p.tables.wf.deleting && NothingRunning(p.tables.requests)
    ensures q == Exec(Exec(Exec(p, BeginRemoval(pid)), AbandonForRemoval(pid)), LookForRemoval(pid))
    ensures q.tables.wf == p.tables.wf && pid in q.removals && q.removals[pid].idle
  {
    q := Exec(Exec(Exec(p, BeginRemoval(pid)), AbandonForRemoval(pid)), LookForRemoval(pid));
  }

  /**
    From any state in which an interrupted workflow is being deleted with nothing running, an
    acknowledgement between a tail's look and its finalization lets a new request outlive the deletion.
  */
  lemma AcknowledgementOutlivesDeletion(p: Plane, pid: Pid) returns (q: Plane)
    requires p.tables.wf.deleting && p.tables.wf.lifecycle == Interrupted && NothingRunning(p.tables.requests)
    ensures var idle := Exec(Exec(Exec(p, BeginRemoval(pid)), AbandonForRemoval(pid)), LookForRemoval(pid));
            q == Exec(Exec(Exec(idle, Operator(OpAcknowledge)), Operator(OpCreate)), FinalizeRemoval(pid))
    ensures q.tables.wf.lifecycle == Deleted && !AllTerminal(q.tables.requests)
  {
    var idle := TailRuns(p, pid);
    q := NewWorkOutlives(idle, pid);
  }

  lemma NewWorkOutlives(p: Plane, pid: Pid) returns (q: Plane)
    requires p.tables.wf.lifecycle == Interrupted && pid in p.removals && p.removals[pid].idle
    ensures q == Exec(Exec(Exec(p, Operator(OpAcknowledge)), Operator(OpCreate)), FinalizeRemoval(pid))
    ensures q.tables.wf.lifecycle == Deleted && !AllTerminal(q.tables.requests)
  {
    q := Exec(Exec(Exec(p, Operator(OpAcknowledge)), Operator(OpCreate)), FinalizeRemoval(pid));
    assert q.tables.requests[p.tables.wf.target + 1] == Unscheduled;
  }

  /** A workflow whose first run was interrupted, deleted by an operator, its deletion tail about to finalize. */
  lemma InterruptedThenDeleted(version: int) returns (q: Plane)
    ensures Reachable(version, q)
    ensures q == Plane(
      Tables(ActiveWorkflow(version).(target := 1, current := 1, lifecycle := Interrupted, state := Disabled,
          deleting := true), map[1 := Failed], None),
      map[0 := Settler(true, 1, Gone, EMPTY_RUN, NO_MEMORY)], map[0 := Scheduling(1, 0, true)], map[],
          map[0 := Removal(true, true)], [], [], {})
  {
    q := FirstRunTornDown(version);
    NothingAbandoned(Exec(q, Operator(OpDelete)).tables);
    q := Play(version, q, Operator(OpDelete));
    q := Play(version, q, BeginRemoval(0));
    q := Play(version, q, AbandonForRemoval(0));
    q := Play(version, q, LookForRemoval(0));
  }

  lemma NothingAbandoned(t: Tables)
    requires NoneQueued(t.requests)
    ensures AbandonQueued(t, t.requests.Keys) == t
  {
    assert AbandonQueued(t, t.requests.Keys).requests == t.requests;
  }

  /**
    Without that condition it is false: acknowledging an interruption reactivates a workflow
    whose deletion is pending, and a run started then survives the deletion.
  */
  lemma AcknowledgedDeletionLeavesARun(version: int) returns (q: Plane, steps: seq<Step>)
    ensures q == ExecAll(Created(version), steps)
    ensures q.tables.wf.lifecycle == Deleted && !AllTerminal(q.tables.requests)
  {
    q := DeletedOverARun(version);
    steps := ReachedByARun(version, q);
  }

  lemma DeletedOverARun(version: int) returns (q: Plane)
    ensures Reachable(version, q)
    ensures q.tables.wf.lifecycle == Deleted && !AllTerminal(q.tables.requests)
  {
    q := InterruptedThenDeleted(version);
    q := Play(version, q, Operator(OpAcknowledge));
    q := Play(version, q, Operator(OpCreate));
    q := Play(version, q, Validate(1, 2));
    q := Play(version, q, Write(1, true));
    assert q.tables.requests[2] == Scheduled;
    q := Play(version, q, FinalizeRemoval(0));
  }
}

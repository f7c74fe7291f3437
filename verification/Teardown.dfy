/**
  FailRequest (internal/scheduler/scheduler.go): arbitrate by the attempts counter, then
  tear the run down. A call may die after any of its statements and be repeated by a
  later sweep. Repeating it reaches what an uninterrupted call reaches unless it died
  between deleting the job row and marking the request.
*/
module Teardown {
  import opened Options
  import opened WorkflowTables
  import opened JobRow
  import opened Jobs
  import WorkflowBook
  import RunFolding
  import AgentMetrics
  import JobProtocol

  /** The workflow row, its requests, and the row in its job slot with the request it is for. */
  datatype Site = Site(wf: Workflow, requests: Requests, row: Option<Row>, rowVersion: nat)

  /** The failure being acted on, as the caller read it. */
  datatype Failure = Failure(version: nat, attempts: nat, resumable: bool)

  /** The interrupted run's emission, computed from whatever the call read. */
  datatype Posting = Posting(epoch: WorkflowBook.Epoch, totals: RunFolding.Totals, rolling: seq<RunFolding.Snap>,
      histories: map<string, seq<AgentMetrics.Agent>>, run: WorkflowBook.Run)

  /** One call: how far it gets, whether it records metrics, whether its job deletion fails. */
  datatype Call = Call(stop: nat, posting: Option<Posting>, deleteFails: bool)

  const REQUEUED: nat := 1
  const CLAIMED: nat := 2
  const APPLIED: nat := 3
  const RECORDED: nat := 4
  const CLEARED: nat := 5
  const MARKED: nat := 6

  function TablesOf(t: Site): Tables { Tables(t.wf, t.requests, None) }

  function WithTables(t: Site, u: Tables): Site { t.(wf := u.wf, requests := u.requests) }

  function OnRow(t: Site, v: nat, s: Statement): Site {
    if t.rowVersion == v then t.(row := Ran(t.row, s, 0)) else t
  }

  predicate HitsRow(t: Site, v: nat, s: Statement) {
    t.rowVersion == v && Affected(t.row, s, 0)
  }

  // ----- one call

  predicate Requeues(t: Site, f: Failure) {
    f.resumable && f.attempts < JobProtocol.MAX_JOB_ATTEMPTS && HitsRow(t, f.version, Requeue(f.attempts))
  }

  /** The caller that claims the failure, and so tears the run down. */
  predicate Owns(t: Site, f: Failure) {
    !Requeues(t, f) && HitsRow(t, f.version, Claim(f.attempts))
  }

  function Recorded(t: Site, posting: Option<Posting>): Site {
    match posting
    case None => t
    case Some(p) => WithTables(t, EmitMetrics(TablesOf(t), t.wf.current, p.epoch, p.totals, p.rolling, p.histories,
        p.run))
  }

  /** The owner's first statements: claim, interrupt, record. */
  function Interrupted(t: Site, f: Failure, c: Call): Site {
    if c.stop < CLAIMED then t else
    var claimed := OnRow(t, f.version, Claim(f.attempts));
    if c.stop < APPLIED then claimed else
    var applied := WithTables(claimed, ApplyFailedJob(TablesOf(claimed), f.version));
    if c.stop < RECORDED then applied else
    if t.wf.current < f.version then Recorded(applied, c.posting) else applied
  }

  /** Its last ones: clear the job row, mark the request. */
  function Closed(t: Site, f: Failure, c: Call): Site {
    if c.stop < CLEARED then t else
    var cleared := if c.deleteFails then t else OnRow(t, f.version, DeleteTerminal);
    if c.stop < MARKED then cleared else
    WithTables(cleared, MarkRequest(TablesOf(cleared), f.version, WorkflowTables.Failed))
  }

  /** The owner's statements, in order, up to the point where the call stops. */
  function TornDown(t: Site, f: Failure, c: Call): Site {
    Closed(Interrupted(t, f, c), f, c)
  }

  function Attempted(t: Site, f: Failure, c: Call): Site {
    if Requeues(t, f) then (if c.stop < REQUEUED then t else OnRow(t, f.version, Requeue(f.attempts)))
    else if Owns(t, f) then TornDown(t, f, c)
    else t
  }

  /** Whether the call's ApplyFailedJob takes effect. */
  predicate Interrupts(t: Site, f: Failure, c: Call) {
    Owns(t, f) && c.stop >= APPLIED && t.wf.current < f.version
  }

  // ----- repeating it

  /** The state but for the metrics, which are best-effort. */
  function Settled(t: Site): Site {
    t.(wf := t.wf.(emitted := 0, book := WorkflowBook.EMPTY_BOOK))
  }

  /** A call that gets all the way through. */
  predicate Through(c: Call) { c.stop >= MARKED && !c.deleteFails }

  /** The one place a call must not die: its job row gone, its request not yet marked. */
  predicate Strands(t: Site, f: Failure, c: Call) {
    && Owns(t, f) && c.stop == CLEARED && !c.deleteFails
    && f.version in t.requests && t.requests[f.version] != WorkflowTables.Failed
  }

  /**
    What a call that gets through leaves: a requeued row, or an interrupted workflow without job whose
    request failed.
  */
  function Outcome(t: Site, f: Failure): Site {
    if Requeues(t, f) then Settled(OnRow(t, f.version, Requeue(f.attempts)))
    else if Owns(t, f) then
      var u := MarkRequest(ApplyFailedJob(TablesOf(t), f.version), f.version, WorkflowTables.Failed);
      Settled(WithTables(t.(row := None), u))
    else Settled(t)
  }

  lemma ThroughReaches(t: Site, f: Failure, c: Call)
    requires Through(c)
    ensures Settled(Attempted(t, f, c)) == Outcome(t, f)
  {
    if Owns(t, f) {
      OwnerGetsThrough(t, f, c);
    }
  }

  lemma RecordingIsAside(t: Site, posting: Option<Posting>)
    ensures var u := Recorded(t, posting);
            Settled(u) == Settled(t) && u.wf.current == t.wf.current
  {
  }

  /** From the interruption on, the tables hold what it leaves, and the row is claimed. */
  lemma InterruptionStands(t: Site, f: Failure, c: Call)
    requires Owns(t, f) && c.stop >= APPLIED
    ensures var u, applied := Interrupted(t, f, c), ApplyFailedJob(TablesOf(t), f.version);
            && Settled(u) == Settled(WithTables(t.(row := u.row), applied))
            && u.wf.current >= f.version
            && u.row.Some? && u.row.value == t.row.value.(status := TerminalFailed)
  {
    var claimed := OnRow(t, f.version, Claim(f.attempts));
    RecordingIsAside(WithTables(claimed, ApplyFailedJob(TablesOf(claimed), f.version)), c.posting);
  }

  lemma OwnerGetsThrough(t: Site, f: Failure, c: Call)
    requires Through(c) && Owns(t, f)
    ensures Settled(TornDown(t, f, c)) == Outcome(t, f)
  {
    InterruptionStands(t, f, c);
    ClosingMarks(Interrupted(t, f, c), f, c);
  }

  lemma ClosingMarks(t: Site, f: Failure, c: Call)
    requires Through(c) && t.row.Some? && t.row.value.status == TerminalFailed && t.rowVersion == f.version
    ensures var u := Closed(t, f, c);
            u == t.(row := None, requests := MarkRequest(TablesOf(t), f.version, WorkflowTables.Failed).requests)
  {
  }

  /** While the job row stands, the owner's failure is still there to be torn down, and is torn down to the same end. */
  lemma RowStands(t: Site, f: Failure, c: Call)
    requires Owns(t, f) && (c.stop < CLEARED || c.deleteFails)
    ensures Outcome(TornDown(t, f, c), f) == Outcome(t, f)
  {
    StillOwned(t, f, c);
    if c.stop >= APPLIED {
      TablesStand(t, f, c);
    }
  }

  /** From the interruption on, the tables already hold what a repetition would write, but for the mark. */
  lemma TablesStand(t: Site, f: Failure, c: Call)
    requires Owns(t, f) && c.stop >= APPLIED
    ensures var u, applied := TornDown(t, f, c), ApplyFailedJob(TablesOf(t), f.version);
            && u.wf.current >= f.version
            && Settled(u).wf == Settled(WithTables(t, applied)).wf
            && u.requests == (if c.stop < MARKED then applied.requests
                              else MarkRequest(applied, f.version, WorkflowTables.Failed).requests)
            && u.rowVersion == t.rowVersion
  {
    InterruptionStands(t, f, c);
    ClosingLeavesWorkflow(Interrupted(t, f, c), f, c);
  }

  lemma ClosingLeavesWorkflow(t: Site, f: Failure, c: Call)
    ensures var u := Closed(t, f, c);
            && u.wf == t.wf && u.rowVersion == t.rowVersion
            && u.requests == (if c.stop < MARKED then t.requests
                              else MarkRequest(TablesOf(t), f.version, WorkflowTables.Failed).requests)
  {
  }

  lemma StillOwned(t: Site, f: Failure, c: Call)
    requires Owns(t, f) && (c.stop < CLEARED || c.deleteFails)
    ensures Owns(TornDown(t, f, c), f)
  {
  }

  /** Once it is gone, nothing more is done. */
  lemma RowGone(t: Site, f: Failure, c: Call)
    requires Owns(t, f) && c.stop >= CLEARED && !c.deleteFails
    ensures Outcome(TornDown(t, f, c), f) == Settled(TornDown(t, f, c))
  {
  }

  lemma StoppedUnmarked(t: Site, f: Failure, c: Call)
    requires Owns(t, f) && c.stop == CLEARED && !c.deleteFails
    ensures Settled(TornDown(t, f, c)) == Outcome(t, f) <==> !Strands(t, f, c)
  {
    InterruptionStands(t, f, c);
    UnmarkedTells(ApplyFailedJob(TablesOf(t), f.version).requests, t.requests, f.version);
  }

  /** The interruption leaves the request's own failure mark as it was. */
  lemma UnmarkedTells(applied: Requests, before: Requests, v: nat)
    requires applied == before || applied == Moved(before, Frozen, Unscheduled)
    ensures MarkRequest(Tables(CreatedTables(0).wf, applied, None), v, WorkflowTables.Failed).requests == applied
            <==> !(v in before && before[v] != WorkflowTables.Failed)
  {
  }

  /** Repeating a call converges exactly when it does not strand its request. */
  lemma RepeatConverges(t: Site, f: Failure, c: Call)
    ensures Outcome(Attempted(t, f, c), f) == Outcome(t, f) <==> !Strands(t, f, c)
  {
    if Owns(t, f) {
      if c.stop < CLEARED || c.deleteFails {
        RowStands(t, f, c);
      } else {
        RowGone(t, f, c);
        if Through(c) { ThroughReaches(t, f, c); } else { StoppedUnmarked(t, f, c); }
      }
    }
  }

  /** Any number of calls cut short, then one that gets through. */
  function Repeated(t: Site, f: Failure, calls: seq<Call>): Site
    decreases |calls|
  {
    if calls == [] then t else Attempted(Repeated(t, f, calls[..|calls| - 1]), f, calls[|calls| - 1])
  }

  /** If none of them strands the request, they end where one uninterrupted call ends. */
  lemma {:induction false} CrashesConverge(t: Site, f: Failure, calls: seq<Call>, last: Call)
    requires Through(last)
    requires forall i :: 0 <= i < |calls| ==> !Strands(Repeated(t, f, calls[..i]), f, calls[i])
    ensures Settled(Attempted(Repeated(t, f, calls), f, last)) == Settled(Attempted(t, f, last))
    decreases |calls|
  {
    ThroughReaches(t, f, last);
    ThroughReaches(Repeated(t, f, calls), f, last);
    if calls != [] {
      var front := calls[..|calls| - 1];
      assert forall i :: 0 <= i < |front| ==> front[..i] == calls[..i];
      CrashesConverge(t, f, front, last);
      ThroughReaches(Repeated(t, f, front), f, last);
      RepeatConverges(Repeated(t, f, front), f, calls[|calls| - 1]);
    }
  }

  function Interruptions(t: Site, f: Failure, calls: seq<Call>): nat
    decreases |calls|
  {
    if calls == [] then 0 else
    var front := calls[..|calls| - 1];
    Interruptions(t, f, front) + if Interrupts(Repeated(t, f, front), f, calls[|calls| - 1]) then 1 else 0
  }

  /** However often the call is repeated, the workflow is interrupted once. */
  lemma {:induction false} InterruptsOnce(t: Site, f: Failure, calls: seq<Call>)
    ensures Interruptions(t, f, calls) <= 1
    ensures Interruptions(t, f, calls) == 1 ==> Repeated(t, f, calls).wf.current >= f.version
    decreases |calls|
  {
    if calls != [] {
      InterruptsOnce(t, f, calls[..|calls| - 1]);
      CurrentAdvances(Repeated(t, f, calls[..|calls| - 1]), f, calls[|calls| - 1]);
    }
  }

  lemma CurrentAdvances(t: Site, f: Failure, c: Call)
    ensures Attempted(t, f, c).wf.current >= t.wf.current
    ensures Interrupts(t, f, c) ==> Attempted(t, f, c).wf.current == f.version
  {
  }

  // ----- which failures are retried

  /** The row is this request's, and failed at the attempt the caller read. */
  predicate FailedAt(t: Site, f: Failure) {
    t.rowVersion == f.version && t.row.Some? && t.row.value.status == JobRow.Failed
        && t.row.value.attempts == f.attempts
  }

  /** A resumable run with attempts left goes back to pending, for anyone, and nothing else changes. */
  lemma ResumableIsRetried(t: Site, f: Failure, c: Call)
    requires Through(c) && FailedAt(t, f) && f.resumable && f.attempts < 20
    ensures var t' := Attempted(t, f, c);
            && t'.row == Some(t.row.value.(status := JobRow.Pending, owner := None, leaseUntil := None,
                attempts := f.attempts + 1))
            && t' == t.(row := t'.row)
  {
  }

  /** Any other is interrupted: no job left, its request failed, the workflow stopped if it had not moved past it. */
  lemma OthersAreInterrupted(t: Site, f: Failure, c: Call)
    requires Through(c) && FailedAt(t, f) && (!f.resumable || f.attempts >= 20)
    ensures var t' := Attempted(t, f, c);
            && t'.row.None?
            && (f.version in t.requests ==> f.version in t'.requests && t'.requests[f.version] == WorkflowTables.Failed)
            && (t.wf.current >= f.version ==> t'.wf == t.wf)
            && (t.wf.current < f.version ==>
                  && t'.wf.current == f.version && t'.wf.lifecycle == WorkflowTables.Interrupted
                  && t'.wf.state == Disabled
                  && (c.posting.None? ==> t'.wf.emitted == t.wf.emitted && t'.wf.book == t.wf.book)
                  && (c.posting.Some? && t.wf.emitted < f.version ==> t'.wf.emitted == f.version))
  {
    InterruptionStands(t, f, c);
    ClosingMarks(Interrupted(t, f, c), f, c);
    InterruptionRecords(t, f, c);
  }

  lemma InterruptionRecords(t: Site, f: Failure, c: Call)
    requires Through(c) && Owns(t, f)
    ensures var u := Interrupted(t, f, c);
            && (t.wf.current >= f.version ==> u.wf == t.wf)
            && (t.wf.current < f.version && c.posting.None? ==> u.wf.emitted == t.wf.emitted && u.wf.book == t.wf.book)
            && (t.wf.current < f.version && c.posting.Some? && t.wf.emitted < f.version ==> u.wf.emitted == f.version)
  {
  }

  /** Whatever another request's row, or a row that moved on, is left alone. */
  lemma MovedOnIsLeftAlone(t: Site, f: Failure, c: Call)
    requires t.rowVersion != f.version || t.row.None? || t.row.value.attempts != f.attempts
             || t.row.value.status !in {JobRow.Failed, TerminalFailed}
    ensures Attempted(t, f, c) == t
  {
  }

  /** A run that is not resumable is never retried, however its calls are cut short. */
  lemma {:induction false} NotResumableKeepsAttempts(t: Site, f: Failure, calls: seq<Call>)
    requires !f.resumable
    ensures var t' := Repeated(t, f, calls);
            t'.row.Some? ==> t.row.Some? && t'.row.value.attempts == t.row.value.attempts
    decreases |calls|
  {
    if calls != [] {
      NotResumableKeepsAttempts(t, f, calls[..|calls| - 1]);
      CallKeepsAttempts(Repeated(t, f, calls[..|calls| - 1]), f, calls[|calls| - 1]);
    }
  }

  lemma CallKeepsAttempts(t: Site, f: Failure, c: Call)
    requires !f.resumable
    ensures var t' := Attempted(t, f, c);
            t'.row.Some? ==> t.row.Some? && t'.row.value.attempts == t.row.value.attempts
  {
  }

  // ----- the call as the scheduler makes it

  class FailingScheduler {
    var wf: Workflow
    var requests: Requests
    const jobs: JobRepo
    const rowVersion: nat

    function View(): Site
      reads this, jobs
    {
      Site(wf, requests, jobs.View(), rowVersion)
    }

    constructor (workflow: Workflow, reqs: Requests, repo: JobRepo, version: nat)
      ensures wf == workflow && requests == reqs && jobs == repo && rowVersion == version
    {
      wf, requests, jobs, rowVersion := workflow, reqs, repo, version;
    }

    method ApplyFailed(version: nat) returns (applied: bool)
      modifies this
      ensures TablesOf(View()) == ApplyFailedJob(old(TablesOf(View())), version)
              && applied == (old(wf.current) < version)
    {
      applied := wf.current < version;
      if applied {
        wf := wf.(current := version, lifecycle := Interrupted, state := Disabled, suspension := None,
            finalized := false);
        requests := map v | v in requests :: if requests[v] == Frozen then Unscheduled else requests[v];
      }
    }

    method RecordInterruptedMetrics(posting: Option<Posting>)
      modifies this
      ensures View() == Recorded(old(View()), posting)
    {
      if posting.Some? && wf.emitted < wf.current {
        var p := posting.value;
        wf := wf.(emitted := wf.current, book :=
            WorkflowBook.Post(wf.book, p.epoch, p.totals, p.rolling, p.histories, p.run));
      }
    }

    method FailRequest(f: Failure, c: Call) returns (applied: bool)
      modifies this, jobs
      ensures View() == Attempted(old(View()), f, c)
      ensures applied <==> Interrupts(old(View()), f, c) && c.stop >= MARKED
    {
      applied := false;
      var mine := rowVersion == f.version;
      if f.resumable && f.attempts < JobProtocol.MAX_JOB_ATTEMPTS {
        if c.stop < REQUEUED { return; }
        if mine {
          var requeued := jobs.RequeueJob(0, f.attempts);
          if requeued { return; }
        }
      }
      if c.stop < CLAIMED || !mine { return; }
      var owned := jobs.ClaimFailedJob(0, f.attempts);
      if !owned || c.stop < APPLIED { return; }
      var interrupts := ApplyFailed(f.version);
      if c.stop < RECORDED { return; }
      if interrupts {
        RecordInterruptedMetrics(c.posting);
      }
      if c.stop < CLEARED { return; }
      if !c.deleteFails {
        var _ := jobs.DeleteTerminalJob(0);
      }
      if c.stop < MARKED { return; }
      if f.version in requests {
        requests := requests[f.version := WorkflowTables.Failed];
      }
      applied := interrupts;
    }
  }
}

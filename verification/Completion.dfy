/**
  One CompleteRequest call taken alone (internal/scheduler/scheduler.go): the stages of a
  completing settler with nothing in between, its policy decision taken from the metrics
  it has just folded. The call may die after any statement and be repeated by a sweep.
*/
module Completion {
  import opened Options
  import opened WorkflowBook
  import opened WorkflowTables
  import opened ControlPlane
  import LifecyclePolicy
  import Resume
  import RunFolding
  import RollingHistory

  type Rules = seq<LifecyclePolicy.Rule>

  /** The policy on what the call holds: the metrics it read with its run folded in, emitted or not. */
  ghost function Decided(rules: Rules, m: Memory, run: Run): Decision {
    Resume.DecisionFor(Resume.Wanted(RollingHistory.Trimmed(m.rolling + [run.snap]), rules,
        RunFolding.AddRun(m.totals, run.snap)))
  }

  // ----- the call, statement by statement

  const APPLIED: nat := 1
  const EMITTED: nat := 2
  const RESOLVED: nat := 3
  const CLEARED: nat := 4
  const MARKED: nat := 5

  /** What the call has read once it has applied its version. */
  function Read(t: Tables): Memory {
    var k := CurrentEpoch(t.wf.book, t.wf.version);
    Memory(t.wf.current, t.wf.state, t.wf.version, t.wf.book.rolling, k, TotalsAt(t.wf.book, k), t.wf.book.histories)
  }

  function Emitted(t: Tables, m: Memory, run: Run): Tables {
    EmitMetrics(t, m.current, m.epoch, m.totals, m.rolling, m.histories, run)
  }

  function ResolvedBy(t: Tables, m: Memory, d: Decision): Tables {
    WorkflowTables.Resolve(t, m.current, m.state, m.version, d)
  }

  /** The call with its decision given, stopped after some of its writes. */
  function CompletedWith(t: Tables, v: nat, d: Decision, stop: nat): Tables {
    if stop < APPLIED then t else
    var applied := ApplyCompletedJob(t, v);
    var run, m := GetJobMetrics(applied, v), Read(applied);
    if stop < EMITTED then applied else
    var emitted := Emitted(applied, m, run);
    if stop < RESOLVED then emitted else
    var resolved := ResolvedBy(emitted, m, d);
    if stop < CLEARED then resolved else
    var cleared := DeleteTerminalJob(resolved, v);
    if stop < MARKED then cleared else
    MarkRequest(cleared, v, Completed)
  }

  ghost function OwnDecision(t: Tables, v: nat, rules: Rules): Decision {
    var applied := ApplyCompletedJob(t, v);
    Decided(rules, Read(applied), GetJobMetrics(applied, v))
  }

  ghost function Completes(t: Tables, v: nat, rules: Rules, stop: nat): Tables {
    CompletedWith(t, v, OwnDecision(t, v, rules), stop)
  }

  /** The stages of a call, each given as the state after it. */
  lemma StagesOfACall(t: Tables, v: nat, d: Decision, stop: nat, applied: Tables, emitted: Tables, resolved: Tables,
      cleared: Tables)
    requires applied == ApplyCompletedJob(t, v)
    requires emitted == Emitted(applied, Read(applied), GetJobMetrics(applied, v))
    requires resolved == ResolvedBy(emitted, Read(applied), d)
    requires cleared == DeleteTerminalJob(resolved, v)
    ensures CompletedWith(t, v, d, stop)
            == if stop < APPLIED then t else if stop < EMITTED then applied else if stop < RESOLVED then emitted
               else if stop < CLEARED then resolved else if stop < MARKED then cleared
                   else MarkRequest(cleared, v, Completed)
  {
  }

  // ----- it is the settler of the control plane

  function Settled(t: Tables, s: Settler, d: Decision, n: nat): (Tables, Settler)
  {
    if n == 0 then (t, s) else
    var (t', s') := Settled(t, s, d, n - 1);
    (SettlerTables(t', s', d), SettlerNext(t', s'))
  }

  function NewSettler(v: nat): Settler { Settler(false, v, Applying, EMPTY_RUN, NO_MEMORY) }

  /** How many of a settler's stages the call's writes stand for. */
  function StagesOf(stop: nat): nat {
    if stop == 0 then 0 else if stop == APPLIED then 5 else if stop < MARKED then stop + 4 else 9
  }

  lemma SettlerReads(t: Tables, v: nat, d: Decision)
    ensures var applied := ApplyCompletedJob(t, v);
            Settled(t, NewSettler(v), d, 5) == (applied,
                Settler(false, v, Emitting, GetJobMetrics(applied, v), Read(applied)))
  {
    var applied := ApplyCompletedJob(t, v);
    assert Settled(t, NewSettler(v), d, 1) == (applied, NewSettler(v).(stage := ReadingJob));
    assert Settled(t, NewSettler(v), d, 2) == (applied,
        NewSettler(v).(stage := ReadingWorkflow, run := GetJobMetrics(applied, v)));
    assert Settled(t, NewSettler(v), d, 3).1.stage == ReadingTotals;
    assert Settled(t, NewSettler(v), d, 4).1.stage == ReadingAgents;
  }

  lemma SettlerTakesAStage(t: Tables, s: Settler, d: Decision, n: nat, t1: Tables, s1: Settler)
    requires Settled(t, s, d, n) == (t1, s1)
    ensures Settled(t, s, d, n + 1) == (SettlerTables(t1, s1, d), SettlerNext(t1, s1))
  {
  }

  lemma SettlerEmits(t: Tables, s0: Settler, d: Decision, n: nat, applied: Tables, s: Settler)
    requires Settled(t, s0, d, n) == (applied, s) && !s.failing && s.stage == Emitting
    ensures Settled(t, s0, d, n + 1) == (Emitted(applied, s.memory, s.run), s.(stage := Resolving))
    ensures Settled(t, s0, d, n + 2) == (ResolvedBy(Emitted(applied, s.memory, s.run), s.memory, d),
            s.(stage := Deleting))
  {
    SettlerTakesAStage(t, s0, d, n, applied, s);
    SettlerTakesAStage(t, s0, d, n + 1, Emitted(applied, s.memory, s.run), s.(stage := Resolving));
  }

  lemma SettlerFinishes(t: Tables, s0: Settler, d: Decision, n: nat, resolved: Tables, s: Settler)
    requires Settled(t, s0, d, n) == (resolved, s) && !s.failing && s.stage == Deleting
    ensures Settled(t, s0, d, n + 1).0 == DeleteTerminalJob(resolved, s.version)
    ensures Settled(t, s0, d, n + 2).0 == MarkRequest(DeleteTerminalJob(resolved, s.version), s.version, Completed)
  {
    SettlerTakesAStage(t, s0, d, n, resolved, s);
    SettlerTakesAStage(t, s0, d, n + 1, DeleteTerminalJob(resolved, s.version), s.(stage := Marking));
  }

  lemma FromReadingOn(t: Tables, v: nat, d: Decision, stop: nat, n: nat, applied: Tables, s: Settler)
    requires stop >= APPLIED && n == StagesOf(APPLIED)
    requires applied == ApplyCompletedJob(t, v)
             && s == Settler(false, v, Emitting, GetJobMetrics(applied, v), Read(applied))
    requires Settled(t, NewSettler(v), d, n) == (applied, s)
    ensures CompletedWith(t, v, d, stop) == Settled(t, NewSettler(v), d, StagesOf(stop)).0
  {
    var emitted := Emitted(applied, s.memory, s.run);
    var resolved := ResolvedBy(emitted, s.memory, d);
    StagesOfACall(t, v, d, stop, applied, emitted, resolved, DeleteTerminalJob(resolved, v));
    var k := StagesOf(stop);
    if k > n {
      SettlerEmits(t, NewSettler(v), d, n, applied, s);
      if k > n + 2 {
        SettlerFinishes(t, NewSettler(v), d, n + 2, resolved, s.(stage := Deleting));
        assert k == n + 3 || k == n + 4;
      } else {
        assert k == n + 1 || k == n + 2;
      }
    }
  }

  /** The call, stopped anywhere, is the settler's stages up to there. */
  lemma SettlerRunsTheCall(t: Tables, v: nat, d: Decision, stop: nat)
    ensures CompletedWith(t, v, d, stop) == Settled(t, NewSettler(v), d, StagesOf(stop)).0
  {
    if stop >= APPLIED {
      var applied := ApplyCompletedJob(t, v);
      SettlerReads(t, v, d);
      FromReadingOn(t, v, d, stop, 5, applied, Settler(false, v, Emitting, GetJobMetrics(applied, v), Read(applied)));
    }
  }

  // ----- what it achieves

  predicate GatesInOrder(t: Tables) { t.wf.emitted <= t.wf.current && t.wf.resolved <= t.wf.current }

  predicate Ready(t: Tables, v: nat) {
    GatesInOrder(t) && t.job.Some? && t.job.value.version == v && t.job.value.phase == Finished
  }

  /** The memory is of this very state. */
  predicate Current(m: Memory, wf: Workflow) {
    m.current == wf.current && m.state == wf.state && m.version == wf.version
  }

  /** An emission at the current version leaves only the books and their gate changed, and the gate closed. */
  lemma EmissionCloses(t: Tables, m: Memory, run: Run)
    requires GatesInOrder(t) && Current(m, t.wf)
    ensures var t' := Emitted(t, m, run);
            t' == t.(wf := t.wf.(emitted := t.wf.current, book := t'.wf.book))
  {
  }

  lemma ResolutionCloses(t: Tables, m: Memory, d: Decision)
    requires GatesInOrder(t) && Current(m, t.wf)
    ensures var t' := ResolvedBy(t, m, d);
            && t' == t.(wf := t'.wf) && t'.wf.current == t.wf.current && t'.wf.emitted == t.wf.emitted
            && RuledOut(t'.wf.state) == RuledOut(t.wf.state)
            && (if RuledOut(t.wf.state) then t' == t else t'.wf.resolved == t.wf.current)
  {
  }

  /** Every gate is shut for the version. */
  predicate Shut(t: Tables, v: nat) {
    GatesInOrder(t) && v <= t.wf.current == t.wf.emitted && (t.wf.resolved == t.wf.current || RuledOut(t.wf.state))
  }

  /** The call's writes up to the resolution, which leave job and requests alone and shut every gate. */
  lemma ResolvedShuts(t: Tables, v: nat, d: Decision)
    requires Ready(t, v)
    ensures var t' := CompletedWith(t, v, d, RESOLVED);
            Shut(t', v) && t'.job == t.job && t'.requests == t.requests && t'.wf.current == Max(t.wf.current, v)
            && RuledOut(t'.wf.state) == RuledOut(t.wf.state)
  {
    var applied := ApplyCompletedJob(t, v);
    var m := Read(applied);
    EmissionCloses(applied, m, GetJobMetrics(applied, v));
    ResolutionCloses(Emitted(applied, m, GetJobMetrics(applied, v)), m, d);
  }

  /** The rest of the call. */
  function WoundUp(t: Tables, v: nat): Tables { MarkRequest(DeleteTerminalJob(t, v), v, Completed) }

  lemma CallFinishes(t: Tables, v: nat, d: Decision, stop: nat)
    ensures CompletedWith(t, v, d, CLEARED) == DeleteTerminalJob(CompletedWith(t, v, d, RESOLVED), v)
    ensures CompletedWith(t, v, d, MARKED) == WoundUp(CompletedWith(t, v, d, RESOLVED), v)
    ensures stop >= MARKED ==> CompletedWith(t, v, d, stop) == CompletedWith(t, v, d, MARKED)
  {
  }

  /** A call that gets through closes every gate, clears the job and marks the request. */
  lemma CompletionSettles(t: Tables, v: nat, d: Decision)
    requires Ready(t, v)
    ensures var t' := CompletedWith(t, v, d, MARKED);
            && t'.wf.current == Max(t.wf.current, v) == t'.wf.emitted
            && t'.wf.lifecycle == (if t.wf.current < v && t.wf.target == v then Lifecycle.Ready else t.wf.lifecycle)
            && (t'.wf.resolved == t'.wf.current || RuledOut(t.wf.state))
            && t'.job.None? && (v in t.requests ==> t'.requests == t.requests[v := Completed])
  {
    ResolvedShuts(t, v, d);
    CallFinishes(t, v, d, MARKED);
  }

  // ----- repeating it

  /** Where every gate is shut, a call changes nothing but the job row and the request's status. */
  lemma ShutGates(t: Tables, v: nat, d: Decision)
    requires Shut(t, v)
    ensures CompletedWith(t, v, d, MARKED) == WoundUp(t, v)
  {
    var m := Read(t);
    EmissionCloses(t, m, GetJobMetrics(t, v));
    ResolutionCloses(t, m, d);
  }

  /** Finishing, in whole or in part, is finished once and keeps the gates shut. */
  lemma FinishingIsFinal(t: Tables, v: nat)
    requires Shut(t, v)
    ensures Shut(DeleteTerminalJob(t, v), v) && Shut(WoundUp(t, v), v)
    ensures WoundUp(DeleteTerminalJob(t, v), v) == WoundUp(t, v) && WoundUp(WoundUp(t, v), v) == WoundUp(t, v)
  {
  }

  lemma ShutAndFinished(t: Tables, u: Tables, v: nat, d: Decision)
    requires Shut(t, v) && u in {t, DeleteTerminalJob(t, v), WoundUp(t, v)}
    ensures CompletedWith(u, v, d, MARKED) == WoundUp(t, v)
  {
    FinishingIsFinal(t, v);
    ShutGates(u, v, d);
  }

  /** A completed call repeated, whatever its policy decides then, changes nothing. */
  lemma CompletionIdempotent(t: Tables, v: nat, d: Decision, again: Decision)
    requires Ready(t, v)
    ensures CompletedWith(CompletedWith(t, v, d, MARKED), v, again, MARKED) == CompletedWith(t, v, d, MARKED)
  {
    ResolvedShuts(t, v, d);
    CallFinishes(t, v, d, MARKED);
    ShutAndFinished(CompletedWith(t, v, d, RESOLVED), CompletedWith(t, v, d, MARKED), v, again);
  }

  /** Cut short before it emits, the call is repeated as if for the first time. */
  lemma CutBeforeEmission(t: Tables, v: nat, rules: Rules, stop: nat)
    requires Ready(t, v) && stop < EMITTED
    ensures Completes(Completes(t, v, rules, stop), v, rules, MARKED) == Completes(t, v, rules, MARKED)
  {
    if stop == APPLIED {
      AppliedOnce(t, v, rules);
    }
  }

  /** A call on a version already applied does the rest of it. */
  lemma AppliedOnce(t: Tables, v: nat, rules: Rules)
    ensures Completes(ApplyCompletedJob(t, v), v, rules, MARKED) == Completes(t, v, rules, MARKED)
  {
    var applied := ApplyCompletedJob(t, v);
    assert ApplyCompletedJob(applied, v) == applied;
    assert OwnDecision(applied, v, rules) == OwnDecision(t, v, rules);
    AppliedOnceWith(t, v, OwnDecision(t, v, rules));
  }

  lemma AppliedOnceWith(t: Tables, v: nat, d: Decision)
    ensures CompletedWith(ApplyCompletedJob(t, v), v, d, MARKED) == CompletedWith(t, v, d, MARKED)
  {
    var applied := ApplyCompletedJob(t, v);
    assert ApplyCompletedJob(applied, v) == applied;
  }

  /** Cut short once it has resolved, its repetition only finishes: the decision taken stands. */
  lemma CutAfterResolution(t: Tables, v: nat, rules: Rules, stop: nat)
    requires Ready(t, v) && RESOLVED <= stop
    ensures Completes(Completes(t, v, rules, stop), v, rules, MARKED) == Completes(t, v, rules, MARKED)
  {
    var d := OwnDecision(t, v, rules);
    var t' := CompletedWith(t, v, d, stop);
    ResolvedShuts(t, v, d);
    CallFinishes(t, v, d, stop);
    ShutAndFinished(CompletedWith(t, v, d, RESOLVED), t', v, OwnDecision(t', v, rules));
  }

  /** No job row for a sweep to find, and the request not marked. */
  predicate Stranded(t: Tables, v: nat) { t.job.None? && v in t.requests && t.requests[v] != Completed }

  lemma EarlyStopsLeaveTheJob(t: Tables, v: nat, d: Decision, stop: nat)
    requires stop <= RESOLVED
    ensures CompletedWith(t, v, d, stop).job == t.job
  {
  }

  lemma StrandsWith(t: Tables, v: nat, d: Decision, stop: nat)
    requires Ready(t, v) && v in t.requests && t.requests[v] != Completed
    ensures Stranded(CompletedWith(t, v, d, stop), v) <==> stop == CLEARED
  {
    if stop <= RESOLVED {
      EarlyStopsLeaveTheJob(t, v, d, stop);
    } else {
      ResolvedShuts(t, v, d);
      CallFinishes(t, v, d, stop);
      assert stop == CLEARED || stop >= MARKED;
    }
  }

  /** A call strands its request exactly when it dies between deleting the job row and marking the request. */
  lemma StrandsExactly(t: Tables, v: nat, rules: Rules, stop: nat)
    requires Ready(t, v) && v in t.requests && t.requests[v] != Completed
    ensures Stranded(Completes(t, v, rules, stop), v) <==> stop == CLEARED
  {
    StrandsWith(t, v, OwnDecision(t, v, rules), stop);
  }

  /** Any number of calls, each cut short somewhere. */
  ghost function Repeated(t: Tables, v: nat, rules: Rules, stops: seq<nat>): Tables
    decreases |stops|
  {
    if stops == [] then t else Completes(Repeated(t, v, rules, stops[..|stops| - 1]), v, rules, stops[|stops| - 1])
  }

  lemma ShutStays(t: Tables, v: nat, d: Decision, stop: nat)
    requires Shut(t, v)
    ensures CompletedWith(t, v, d, stop) in {t, DeleteTerminalJob(t, v), WoundUp(t, v)}
  {
    var m := Read(t);
    EmissionCloses(t, m, GetJobMetrics(t, v));
    ResolutionCloses(t, m, d);
  }

  predicate Completable(t: Tables, v: nat) { Ready(t, v) || Shut(t, v) }

  lemma CallOnShut(t: Tables, v: nat, rules: Rules, stop: nat)
    requires Shut(t, v)
    ensures var t' := Completes(t, v, rules, stop); Shut(t', v) && Completes(t', v, rules, MARKED) == WoundUp(t, v)
  {
    var t' := Completes(t, v, rules, stop);
    ShutStays(t, v, OwnDecision(t, v, rules), stop);
    FinishingIsFinal(t, v);
    ShutAndFinished(t, t', v, OwnDecision(t', v, rules));
  }

  lemma EarlyCall(t: Tables, v: nat, rules: Rules, stop: nat)
    requires Ready(t, v) && stop < EMITTED
    ensures Ready(Completes(t, v, rules, stop), v)
  {
  }

  lemma LateCall(t: Tables, v: nat, rules: Rules, stop: nat)
    requires Ready(t, v) && stop >= RESOLVED
    ensures Shut(Completes(t, v, rules, stop), v)
  {
    LateCallShuts(t, v, OwnDecision(t, v, rules), stop);
  }

  lemma LateCallShuts(t: Tables, v: nat, d: Decision, stop: nat)
    requires Ready(t, v) && stop >= RESOLVED
    ensures Shut(CompletedWith(t, v, d, stop), v)
  {
    ResolvedShuts(t, v, d);
    CallFinishes(t, v, d, stop);
    FinishingIsFinal(CompletedWith(t, v, d, RESOLVED), v);
    assert stop == RESOLVED || stop == CLEARED || stop >= MARKED;
  }

  /** One more call keeps the run completable, and its end where it was. */
  lemma OneMoreCall(t: Tables, v: nat, rules: Rules, stop: nat)
    requires Completable(t, v) && stop != EMITTED
    ensures Completable(Completes(t, v, rules, stop), v)
    ensures Completes(Completes(t, v, rules, stop), v, rules, MARKED) == Completes(t, v, rules, MARKED)
  {
    if Shut(t, v) {
      CallOnShut(t, v, rules, stop);
      ShutGates(t, v, OwnDecision(t, v, rules));
    } else if stop < EMITTED {
      EarlyCall(t, v, rules, stop);
      CutBeforeEmission(t, v, rules, stop);
    } else {
      LateCall(t, v, rules, stop);
      CutAfterResolution(t, v, rules, stop);
    }
  }

  /**
    However many calls were cut short, none of them between emission and resolution, the last ends as
    the first would have.
  */
  lemma {:induction false} CallsConverge(t: Tables, v: nat, rules: Rules, stops: seq<nat>)
    requires Ready(t, v) && EMITTED !in stops
    ensures var t' := Repeated(t, v, rules, stops);
            Completable(t', v) && Completes(t', v, rules, MARKED) == Completes(t, v, rules, MARKED)
    decreases |stops|
  {
    if stops != [] {
      var front := stops[..|stops| - 1];
      assert stops[|stops| - 1] in stops;
      CallsConverge(t, v, rules, front);
      OneMoreCall(Repeated(t, v, rules, front), v, rules, stops[|stops| - 1]);
    }
  }

  /**
    Cut short between emission and resolution, its repetition decides anew, on histories and
    totals that count the run twice: once as stored, once as folded in again.
  */
  lemma CutBeforeResolution(t: Tables, v: nat, rules: Rules)
    requires Ready(t, v) && t.wf.emitted < Max(t.wf.current, v)
    ensures var t' := Completes(t, v, rules, EMITTED);
            && Completes(t', v, rules, MARKED) == CompletedWith(t, v, OwnDecision(t', v, rules), MARKED)
            && var applied := ApplyCompletedJob(t, v);
               var snap, once := GetJobMetrics(applied, v).snap,
                   RollingHistory.Trimmed(Read(applied).rolling + [GetJobMetrics(applied, v).snap]);
               OwnDecision(t', v, rules)
               == Resume.DecisionFor(Resume.Wanted(RollingHistory.Trimmed(once + [snap]), rules,
                   RunFolding.AddRun(RunFolding.AddRun(Read(applied).totals, snap), snap)))
  {
    var applied := ApplyCompletedJob(t, v);
    var m, run := Read(applied), GetJobMetrics(applied, v);
    EmissionCloses(applied, m, run);
    var t' := Emitted(applied, m, run);
    assert ApplyCompletedJob(t', v) == t';
    EmissionCloses(t', Read(t'), run);
  }

  /** The state and version a decision leaves. */
  function Effect(wf: Workflow, d: Decision): (WorkflowState, int) {
    match d
    case Keep => (wf.state, wf.version)
    case EnterPaused => (Paused, wf.version)
    case EnterCooldown => (WorkflowState.Cooldown, wf.version)
    case ChangeVersion(v) => (wf.state, v)
  }

  /** Through an open gate a resolution is its effect, with a new epoch for a new version. */
  lemma ResolutionIsItsEffect(t: Tables, m: Memory, d: Decision)
    requires Current(m, t.wf) && !RuledOut(t.wf.state) && t.wf.resolved < t.wf.current
    ensures var (state, version) := Effect(t.wf, d);
            ResolvedBy(t, m, d) == t.(wf := t.wf.(resolved := t.wf.current, state := state, version := version,
                                                  book := if version != t.wf.version
                                                      then StartEpoch(t.wf.book, version) else t.wf.book))
  {
  }

  /** Two resolutions of one state wind up alike exactly when their effects are the same. */
  lemma EffectsTell(t: Tables, v: nat, m: Memory, d: Decision, other: Decision)
    requires Current(m, t.wf) && !RuledOut(t.wf.state) && t.wf.resolved < t.wf.current
    ensures WoundUp(ResolvedBy(t, m, d), v) == WoundUp(ResolvedBy(t, m, other), v)
            <==> Effect(t.wf, d) == Effect(t.wf, other)
  {
    ResolutionIsItsEffect(t, m, d);
    ResolutionIsItsEffect(t, m, other);
    WoundUpKeepsWorkflow(ResolvedBy(t, m, d), v);
    WoundUpKeepsWorkflow(ResolvedBy(t, m, other), v);
  }

  lemma WoundUpKeepsWorkflow(t: Tables, v: nat)
    ensures WoundUp(t, v).wf == t.wf
  {
  }

  /** The state a call resolves in: its version applied, its books closed. */
  function BeforeResolution(t: Tables, v: nat): Tables {
    var applied := ApplyCompletedJob(t, v);
    Emitted(applied, Read(applied), GetJobMetrics(applied, v))
  }

  /** All a resolution looks at. */
  predicate SameStanding(w: Workflow, w': Workflow) {
    w'.state == w.state && w'.version == w.version && w'.resolved == w.resolved
  }

  lemma EmissionStands(applied: Tables, m: Memory, run: Run)
    requires GatesInOrder(applied) && Current(m, applied.wf)
    ensures var e := Emitted(applied, m, run);
            Current(m, e.wf) && SameStanding(applied.wf, e.wf) && e.wf.current == applied.wf.current
  {
    EmissionCloses(applied, m, run);
  }

  lemma BeforeResolutionStands(t: Tables, v: nat)
    requires Ready(t, v)
    ensures var e := BeforeResolution(t, v);
            && Current(Read(ApplyCompletedJob(t, v)), e.wf)
            && SameStanding(t.wf, e.wf) && e.wf.current == Max(t.wf.current, v)
  {
    var applied := ApplyCompletedJob(t, v);
    EmissionStands(applied, Read(applied), GetJobMetrics(applied, v));
  }

  lemma SameStandingSameEffect(w: Workflow, w': Workflow, d: Decision)
    requires SameStanding(w, w')
    ensures Effect(w, d) == Effect(w', d)
  {
  }

  lemma DecisionsTellExactly(t: Tables, v: nat, d: Decision, other: Decision)
    requires Ready(t, v) && !RuledOut(t.wf.state) && t.wf.resolved < Max(t.wf.current, v)
    ensures CompletedWith(t, v, d, MARKED) == CompletedWith(t, v, other, MARKED)
            <==> Effect(t.wf, d) == Effect(t.wf, other)
  {
    var e, m := BeforeResolution(t, v), Read(ApplyCompletedJob(t, v));
    BeforeResolutionStands(t, v);
    SameStandingSameEffect(t.wf, e.wf, d);
    SameStandingSameEffect(t.wf, e.wf, other);
    WindsUpAfter(t, v, d, e, m);
    WindsUpAfter(t, v, other, e, m);
    EffectsTell(e, v, m, d, other);
  }

  lemma WindsUpAfter(t: Tables, v: nat, d: Decision, e: Tables, m: Memory)
    requires e == BeforeResolution(t, v) && m == Read(ApplyCompletedJob(t, v))
    ensures CompletedWith(t, v, d, MARKED) == WoundUp(ResolvedBy(e, m, d), v)
  {
    EndsWithItsResolution(t, v, d, ResolvedBy(e, m, d));
  }

  lemma EndsWithItsResolution(t: Tables, v: nat, d: Decision, resolved: Tables)
    requires var applied := ApplyCompletedJob(t, v);
             resolved == ResolvedBy(Emitted(applied, Read(applied), GetJobMetrics(applied, v)), Read(applied), d)
    ensures CompletedWith(t, v, d, MARKED) == WoundUp(resolved, v)
  {
    CallFinishes(t, v, d, MARKED);
  }

  /**
    So the repetition ends as an uninterrupted call exactly when the decision on the metrics
    with the run folded in twice has the effect of the one with it folded in once.
  */
  lemma RetryConvergesExactly(t: Tables, v: nat, rules: Rules)
    requires Ready(t, v) && !RuledOut(t.wf.state)
    requires t.wf.emitted < Max(t.wf.current, v) && t.wf.resolved < Max(t.wf.current, v)
    ensures var t' := Completes(t, v, rules, EMITTED);
            Completes(t', v, rules, MARKED) == Completes(t, v, rules, MARKED)
            <==> Effect(t.wf, OwnDecision(t', v, rules)) == Effect(t.wf, OwnDecision(t, v, rules))
  {
    CutBeforeResolution(t, v, rules);
    DecisionsTellExactly(t, v, OwnDecision(Completes(t, v, rules, EMITTED), v, rules), OwnDecision(t, v, rules));
  }

  // ----- the run counted twice

  /** A first run whose metric stays below a pausing rule's threshold once, but not twice. */
  predicate Innocent(snap: RunFolding.Snap, r: LifecyclePolicy.Rule) {
    && r.action == LifecyclePolicy.Pause && r.window >= 2
    && RunFolding.MetricEmitted(snap, r.metric)
    && RunFolding.SnapValue(snap, r.metric) < r.threshold <= 2.0 * RunFolding.SnapValue(snap, r.metric)
  }

  lemma SumOnceAndTwice(snap: RunFolding.Snap, r: LifecyclePolicy.Rule)
    requires Innocent(snap, r)
    ensures LifecyclePolicy.WindowSum([snap], r.metric, r.window) == RunFolding.SnapValue(snap, r.metric)
    ensures LifecyclePolicy.WindowSum([snap, snap], r.metric, r.window) == 2.0 * RunFolding.SnapValue(snap, r.metric)
  {
    assert [snap][..0] == [] && [snap, snap][..1] == [snap];
    assert LifecyclePolicy.Observed([snap], r.metric) == [snap];
    assert LifecyclePolicy.Observed([snap, snap], r.metric) == [snap, snap];
    assert LifecyclePolicy.Sum([snap], r.metric) == RunFolding.SnapValue(snap, r.metric);
  }

  lemma WantedOnceAndTwice(snap: RunFolding.Snap, r: LifecyclePolicy.Rule, totals: RunFolding.Totals)
    requires Innocent(snap, r)
    ensures Resume.Wanted([snap], [r], totals) == LifecyclePolicy.KeepState
    ensures Resume.Wanted([snap, snap], [r], totals) == LifecyclePolicy.EnterPause
  {
    SumOnceAndTwice(snap, r);
    assert !LifecyclePolicy.Fires([snap], totals, [r][0]);
    assert LifecyclePolicy.Fires([snap, snap], totals, [r][0]);
    assert LifecyclePolicy.Wins([snap, snap], totals, [r], 0);
  }

  function FirstRun(version: int, snap: RunFolding.Snap): Tables {
    Tables(CreatedTables(version).wf.(state := Active, target := 1), map[1 := InProgress],
        Some(Job(1, JobPhase.Finished, true, Run(snap, map[]))))
  }

  /**
    A call cut short between emission and resolution, and repeated, pauses a workflow that an
    uninterrupted one leaves active.
  */
  lemma RetryPausesAnInnocentWorkflow(version: int, snap: RunFolding.Snap, r: LifecyclePolicy.Rule)
    requires Innocent(snap, r)
    ensures Ready(FirstRun(version, snap), 1)
    ensures Completes(FirstRun(version, snap), 1, [r], MARKED).wf.state == Active
    ensures Completes(Completes(FirstRun(version, snap), 1, [r], EMITTED), 1, [r], MARKED).wf.state == Paused
  {
    var t := FirstRun(version, snap);
    DecidedOnceAndTwice(version, snap, r);
    CutBeforeResolution(t, 1, [r]);
    DecisionTells(t, 1, Keep);
    DecisionTells(t, 1, EnterPaused);
  }

  lemma DecidedOnceAndTwice(version: int, snap: RunFolding.Snap, r: LifecyclePolicy.Rule)
    requires Innocent(snap, r)
    ensures OwnDecision(FirstRun(version, snap), 1, [r]) == Keep
    ensures OwnDecision(Completes(FirstRun(version, snap), 1, [r], EMITTED), 1, [r]) == EnterPaused
  {
    var t := FirstRun(version, snap);
    var totals := Read(ApplyCompletedJob(t, 1)).totals;
    assert RollingHistory.Trimmed([] + [snap]) == [snap] && RollingHistory.Trimmed([snap] + [snap]) == [snap, snap];
    WantedOnceAndTwice(snap, r, RunFolding.AddRun(totals, snap));
    WantedOnceAndTwice(snap, r, RunFolding.AddRun(RunFolding.AddRun(totals, snap), snap));
    CutBeforeResolution(t, 1, [r]);
  }

  lemma ResolutionTells(t: Tables, m: Memory, d: Decision)
    requires Current(m, t.wf) && t.wf.state == Active && t.wf.resolved < t.wf.current && d in {Keep, EnterPaused}
    ensures ResolvedBy(t, m, d).wf.state == if d == EnterPaused then Paused else Active
  {
  }

  lemma DecisionTells(t: Tables, v: nat, d: Decision)
    requires Ready(t, v) && t.wf.state == Active && t.wf.resolved < Max(t.wf.current, v) && d in {Keep, EnterPaused}
    ensures CompletedWith(t, v, d, MARKED).wf.state == if d == EnterPaused then Paused else Active
  {
    var applied := ApplyCompletedJob(t, v);
    var m, run := Read(applied), GetJobMetrics(applied, v);
    EmissionCloses(applied, m, run);
    ResolutionTells(Emitted(applied, m, run), m, d);
    CallFinishes(t, v, d, MARKED);
    assert CompletedWith(t, v, d, RESOLVED) == ResolvedBy(Emitted(applied, m, run), m, d);
  }
}

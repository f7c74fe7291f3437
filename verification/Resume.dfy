/**
  The lifecycle policy applied to a workflow, and re-applied when a suspension ends
  (ResolveLifecyclePolicy in internal/scheduler/lifecycleresolver.go, resolveResumeState
  and ResumeWorkflow in internal/service/lifecycle.go, with the statements they end in).
*/
module Resume {
  import opened Options
  import opened WorkflowTables
  import opened LifecyclePolicy
  import opened RunFolding

  /** A hold in force: suspension_id and suspension_requested_at. */
  datatype Hold = Hold(id: nat, since: int)

  datatype Standing = Standing(
    state: WorkflowState,
    version: int,
    cooldownUntil: Option<int>,
    hold: Option<Hold>,
    finalized: bool,
    current: nat,
    resolved: nat)

  // ----- what the policy wants

  /** The winning rule's goal, whatever loop finds it. */
  ghost function Wanted(runs: seq<Snap>, rules: seq<Rule>, totals: Totals): Goal {
    if exists i :: 0 <= i < |rules| && Wins(runs, totals, rules, i)
    then var i :| 0 <= i < |rules| && Wins(runs, totals, rules, i); GoalOf(rules[i].action)
    else KeepState
  }

  lemma OneWinner(runs: seq<Snap>, rules: seq<Rule>, totals: Totals, i: nat, j: nat)
    requires i < |rules| && j < |rules| && Wins(runs, totals, rules, i) && Wins(runs, totals, rules, j)
    ensures i == j
  {
  }

  method Decide(runs: seq<Snap>, rules: seq<Rule>, totals: Totals) returns (goal: Goal)
    ensures goal == Wanted(runs, rules, totals)
  {
    var winner, value;
    goal, winner, value := ResolvePolicy(runs, rules, totals);
    if winner.Some? {
      WinnerIsWanted(runs, rules, totals, winner.value);
    }
  }

  lemma WinnerIsWanted(runs: seq<Snap>, rules: seq<Rule>, totals: Totals, winner: nat)
    requires winner < |rules| && Wins(runs, totals, rules, winner)
    ensures Wanted(runs, rules, totals) == GoalOf(rules[winner].action)
  {
    forall i | 0 <= i < |rules| && Wins(runs, totals, rules, i)
      ensures i == winner
    {
      OneWinner(runs, rules, totals, i, winner);
    }
  }

  // ----- the statements

  /** TryApplyVersionResolution and TryApplyStateResolution, on a workflow read earlier. */
  function Resolved(s: Standing, read: Standing, goal: Goal, now: int): Standing {
    if s.resolved >= read.current || RuledOut(s.state) then s else
    match goal
    case ChangeVersion(v) => if s.version == read.version then s.(resolved := read.current, version := v) else s
    case EnterCooldown(seconds) => s.(resolved := read.current, state := WorkflowState.Cooldown,
        cooldownUntil := Some(now + seconds))
    case EnterPause => s.(resolved := read.current, state := Paused, cooldownUntil := read.cooldownUntil)
    case KeepState => s.(resolved := read.current, state := read.state, cooldownUntil := read.cooldownUntil)
  }

  /** A fired rule that differs from the state and version the caller read: the ones that are audited. */
  predicate Moves(read: Standing, goal: Goal) {
    match goal
    case KeepState => false
    case ChangeVersion(v) => v != read.version
    case EnterCooldown(_) => read.state != WorkflowState.Cooldown
    case EnterPause => read.state != Paused
  }

  function Suspend(s: Standing, id: nat, now: int): Standing {
    if s.state == Disabled || s.finalized || (s.hold.Some? && s.hold.value.id != id) then s
    else s.(state := Suspended, hold := Some(Hold(id, if s.hold.Some? then s.hold.value.since else now)))
  }

  function Finalize(s: Standing, id: nat): Standing {
    if s.state == Suspended && s.hold.Some? && s.hold.value.id == id then s.(finalized := true) else s
  }

  function Max0(x: int): int { if x < 0 then 0 else x }

  /** The cooldown left when the hold began. */
  function LeftAtHold(s: Standing): int {
    if s.cooldownUntil.Some? && s.hold.Some? then Max0(s.cooldownUntil.value - s.hold.value.since) else 0
  }

  /** RestoreFromSuspension, with the state, version and cooldown its caller made of an earlier read. */
  function Resumed(s: Standing, read: Standing, id: nat, goal: Goal, now: int): Standing {
    if s.state != Suspended || s.hold.None? || s.hold.value.id != id || !s.finalized then s else
    var free := s.(hold := None, finalized := false, resolved := s.current, version := read.version);
    match goal
    case KeepState => free.(state := Active, cooldownUntil := None)
    case ChangeVersion(v) => free.(state := Active, version := v, cooldownUntil := None)
    case EnterPause => free.(state := Paused, cooldownUntil := None)
    case EnterCooldown(_) => free.(state := WorkflowState.Cooldown, cooldownUntil := Some(now + LeftAtHold(read)))
  }

  function Expired(s: Standing, now: int): Standing {
    if s.state == WorkflowState.Cooldown && s.cooldownUntil.Some? && s.cooldownUntil.value <= now
    then s.(state := Active, cooldownUntil := None) else s
  }

  // ----- the same statements as on the control plane's tables

  /** The columns both models keep. */
  predicate Agrees(s: Standing, wf: Workflow) {
    && s.state == wf.state && s.version == wf.version && s.finalized == wf.finalized && s.current == wf.current
    && s.resolved == wf.resolved
    && wf.suspension == (if s.hold.Some? then Some(s.hold.value.id) else None)
  }

  function TargetOf(goal: Goal): ResumeState {
    match goal case EnterPause => ToPaused case EnterCooldown(_) => ToCooldown case _ => ToActive
  }

  function DecisionFor(goal: Goal): Decision {
    match goal
    case KeepState => Keep
    case ChangeVersion(v) => Decision.ChangeVersion(v)
    case EnterCooldown(_) => Decision.EnterCooldown
    case EnterPause => EnterPaused
  }

  /** Suspending, finalizing, resolving and resuming here is what their statements do there. */
  lemma SameStatements(s: Standing, t: Tables, read: Standing, id: nat, goal: Goal, now: int)
    requires Agrees(s, t.wf)
    ensures Agrees(Suspend(s, id, now), MarkSuspension(t, id).wf)
    ensures Agrees(Finalize(s, id), FinalizeSuspended(t, id).wf)
    ensures Agrees(Resolved(s, read, goal, now),
            WorkflowTables.Resolve(t, read.current, read.state, read.version, DecisionFor(goal)).wf)
    ensures var version := if goal.ChangeVersion? then goal.version else read.version;
            Agrees(Resumed(s, read, id, goal, now),
                RestoreFromSuspension(t, id, TargetOf(goal), version, version != read.version).wf)
  {
  }

  // ----- resume agrees with resolution

  /**
    On the same metrics, resuming chooses the state and version a resolution would have
    chosen before the hold exactly when the workflow was active, or the policy enters a state.
  */
  lemma ResumeAgreesExactly(s: Standing, id: nat, goal: Goal, at: int, suspendedAt: int, resumedAt: int)
    requires s.state != Disabled && s.state != Suspended && s.hold.None? && !s.finalized && s.resolved < s.current
    ensures var resolved := Resolved(s, s, goal, at);
            var held := Finalize(Suspend(s, id, suspendedAt), id);
            var resumed := Resumed(held, held, id, goal, resumedAt);
            && (resumed.state == resolved.state && resumed.version == resolved.version
                <==> s.state == Active || goal.EnterCooldown? || goal.EnterPause?)
            && resumed.resolved == resolved.resolved == s.current
  {
  }

  // ----- a hold stops the cooldown's clock

  datatype Event =
    | Wait(time: nat)
    | SuspendNow(id: nat)
    | FinalizeNow(id: nat)
    | ResumeNow(id: nat, length: int)   // the policy still orders a cooldown, of any length
    | ExpireNow

  datatype Timed = Timed(standing: Standing, now: int, served: nat)

  /** served counts the time that passes outside holds. */
  function Happen(t: Timed, e: Event): Timed {
    match e
    case Wait(d) => t.(now := t.now + d, served := t.served + if t.standing.state == Suspended then 0 else d)
    case SuspendNow(id) => t.(standing := Suspend(t.standing, id, t.now))
    case FinalizeNow(id) => t.(standing := Finalize(t.standing, id))
    case ResumeNow(id, seconds) => t.(standing :=
        Resumed(t.standing, t.standing, id, Goal.EnterCooldown(seconds), t.now))
    case ExpireNow => t.(standing := Expired(t.standing, t.now))
  }

  function HappenAll(t: Timed, events: seq<Event>): Timed {
    if events == [] then t else Happen(HappenAll(t, events[..|events| - 1]), events[|events| - 1])
  }

  /** The cooldown left: at the hold if there is one, else now. */
  function Left(t: Timed): int {
    if t.standing.state == Suspended then LeftAtHold(t.standing)
    else if t.standing.cooldownUntil.Some? then Max0(t.standing.cooldownUntil.value - t.now) else 0
  }

  predicate HoldMatchesState(s: Standing) { s.hold.Some? <==> s.state == Suspended }

  /** However often the workflow is held and resumed, its cooldown runs down by the time served outside holds. */
  lemma {:induction false} CooldownConserved(t: Timed, events: seq<Event>)
    requires HoldMatchesState(t.standing)
    ensures HoldMatchesState(HappenAll(t, events).standing)
    ensures Left(HappenAll(t, events)) == Max0(Left(t) - (HappenAll(t, events).served - t.served))
    decreases |events|
  {
    if events != [] {
      CooldownConserved(t, events[..|events| - 1]);
    }
  }

  /** A cooldown a resolution orders ends exactly when its seconds are over. */
  lemma CooldownLastsAsOrdered(s: Standing, read: Standing, seconds: int, at: int, later: int)
    requires s.resolved < read.current && !RuledOut(s.state)
    ensures var ordered := Resolved(s, read, Goal.EnterCooldown(seconds), at);
            && ordered.state == WorkflowState.Cooldown && ordered.resolved == read.current
            && (Expired(ordered, later).state == Active <==> later >= at + seconds)
            && (Expired(ordered, later).state == WorkflowState.Cooldown <==> later < at + seconds)
  {
  }

  /** One that orders none leaves the end of a cooldown as its caller read it, or, changing the version, as it is. */
  lemma OtherGoalsKeepTheCooldown(s: Standing, read: Standing, goal: Goal, at: int)
    requires !goal.EnterCooldown? && s.resolved < read.current && !RuledOut(s.state)
    ensures Resolved(s, read, goal, at).cooldownUntil == if goal.ChangeVersion? then s.cooldownUntil
        else read.cooldownUntil
  {
  }

  /** In particular each resume leaves what the matching suspension found. */
  lemma ResumeKeepsRemaining(t: Timed, id: nat, during: seq<Event>, seconds: int)
    requires t.standing.state != Suspended && HoldMatchesState(t.standing)
    requires var held := HappenAll(Happen(t, SuspendNow(id)), during);
             held.standing.state == Suspended && held.served == t.served
    ensures var held := HappenAll(Happen(t, SuspendNow(id)), during);
            Left(Happen(held, ResumeNow(id, seconds))) == Left(t)
  {
    CooldownConserved(Happen(t, SuspendNow(id)), during);
  }

  /**
    A cooldown ordered while the workflow is suspended is dropped. The resume enters a cooldown
    that is over at once exactly when none was running when the hold began.
  */
  lemma DroppedCooldownIsNotServed(s: Standing, read: Standing, id: nat, seconds: int, at: int, now: int)
    requires s.state == Suspended && s.hold.Some? && s.hold.value.id == id && s.finalized
    ensures var held := Resolved(s, read, Goal.EnterCooldown(seconds), at);
            var after := Resumed(held, held, id, Goal.EnterCooldown(seconds), now);
            && held == s && after.state == WorkflowState.Cooldown
            && (Expired(after, now).state == Active
                <==> s.cooldownUntil.None? || s.cooldownUntil.value <= s.hold.value.since)
  {
  }

  // ----- the calls

  class WorkflowHolder {
    var state: WorkflowState
    var version: int
    var cooldownUntil: Option<int>
    var hold: Option<Hold>
    var finalized: bool
    var current: nat
    var resolved: nat

    function View(): Standing
      reads this
    {
      Standing(state, version, cooldownUntil, hold, finalized, current, resolved)
    }

    constructor (initial: Standing)
      ensures View() == initial
    {
      state, version, cooldownUntil := initial.state, initial.version, initial.cooldownUntil;
      hold, finalized := initial.hold, initial.finalized;
      current, resolved := initial.current, initial.resolved;
    }

    method TryApplyVersionResolution(at: nat, expected: int, target: int) returns (applied: bool)
      modifies this
      ensures applied <==> old(resolved) < at && old(version) == expected && !RuledOut(old(state))
      ensures View() == if applied then old(View()).(resolved := at, version := target) else old(View())
    {
      applied := resolved < at && version == expected && state !in {Disabled, Suspended};
      if applied {
        resolved, version := at, target;
      }
    }

    method TryApplyStateResolution(at: nat, target: WorkflowState, until: Option<int>) returns (applied: bool)
      modifies this
      ensures applied <==> old(resolved) < at && !RuledOut(old(state))
      ensures View() == if applied then old(View()).(resolved := at, state := target, cooldownUntil := until)
          else old(View())
    {
      applied := resolved < at && state !in {Disabled, Suspended};
      if applied {
        resolved, state, cooldownUntil := at, target, until;
      }
    }

    /** Returns the goal to audit: a rule fired, was applied, and moved the state or version the caller had read. */
    method ResolveLifecyclePolicy(read: Standing, runs: seq<Snap>, rules: seq<Rule>, totals: Totals, now: int)
        returns (audited: Option<Goal>)
      modifies this
      ensures View() == Resolved(old(View()), read, Wanted(runs, rules, totals), now)
      ensures audited == if old(resolved) < resolved && Moves(read, Wanted(runs, rules, totals))
          then Some(Wanted(runs, rules, totals)) else None
    {
      var goal := Decide(runs, rules, totals);
      var newVersion, newState, cooldown := read.version, read.state, read.cooldownUntil;
      match goal {
        case KeepState =>
        case ChangeVersion(v) => newVersion := v;
        case EnterPause => newState := Paused;
        case EnterCooldown(seconds) => newState, cooldown := WorkflowState.Cooldown, Some(now + seconds);
      }
      var applied;
      if goal.ChangeVersion? {
        applied := TryApplyVersionResolution(read.current, read.version, newVersion);
      } else {
        applied := TryApplyStateResolution(read.current, newState, cooldown);
      }
      audited := if !applied || goal.KeepState? || (newVersion == read.version && newState == read.state) then None
          else Some(goal);
    }

    method SuspendWorkflow(id: nat, now: int) returns (marked: bool)
      modifies this
      ensures View() == Suspend(old(View()), id, now)
      ensures marked <==> old(state) != Disabled && !old(finalized) && (old(hold).None? || old(hold).value.id == id)
    {
      marked := state != Disabled && !finalized && (hold.None? || hold.value.id == id);
      if marked {
        state := Suspended;
        hold := Some(Hold(id, if hold.Some? then hold.value.since else now));
      }
    }

    /** Decides from what it read, then restores whatever hold of that id is in force by then. */
    method ResumeWorkflow(read: Standing, id: nat, runs: seq<Snap>, rules: seq<Rule>, totals: Totals, now: int)
      returns (restored: bool)
      modifies this
      ensures View() == Resumed(old(View()), read, id, Wanted(runs, rules, totals), now)
      ensures restored <==> old(state) == Suspended && old(hold).Some? && old(hold).value.id == id && old(finalized)
    {
      var goal := Decide(runs, rules, totals);
      var newState, newVersion, until := ResolveResumeState(read, goal, now);
      restored := RestoreFromSuspension(id, newState, newVersion, until);
    }

    method RestoreFromSuspension(id: nat, newState: WorkflowState, newVersion: int, until: Option<int>)
      returns (restored: bool)
      modifies this
      ensures restored <==> old(state) == Suspended && old(hold).Some? && old(hold).value.id == id && old(finalized)
      ensures View() == if !restored then old(View())
                        else Standing(newState, newVersion, until, None, false, old(current), old(current))
    {
      restored := state == Suspended && hold.Some? && hold.value.id == id && finalized;
      if restored {
        state, version, cooldownUntil, resolved := newState, newVersion, until, current;
        hold, finalized := None, false;
      }
    }
  }

  /** What a resume restores, from the workflow as read and the policy's goal on its metrics. */
  method ResolveResumeState(read: Standing, goal: Goal, now: int)
    returns (newState: WorkflowState, newVersion: int, until: Option<int>)
    ensures newState == StateOf(TargetOf(goal))
    ensures newVersion == if goal.ChangeVersion? then goal.version else read.version
    ensures until == if goal.EnterCooldown? then Some(now + LeftAtHold(read)) else None
  {
    newState, newVersion, until := Active, read.version, None;
    match goal {
      case KeepState =>
      case ChangeVersion(v) => newVersion := v;
      case EnterPause => newState := Paused;
      case EnterCooldown(_) =>
        var remaining := 0;
        if read.cooldownUntil.Some? && read.hold.Some? {
          remaining := Max0(read.cooldownUntil.value - read.hold.value.since);
        }
        newState, until := WorkflowState.Cooldown, Some(now + remaining);
    }
  }
}

/**
  The workflow lifecycle policy engine (internal/lifecyclepolicy/engine.go).

  ResolvePolicy runs the source's nested loops and is proved to pick the earliest fired
  rule of the highest priority, where a rule's value is declared as a plain sum.
*/
module LifecyclePolicy {
  import opened Options
  import opened AgentMetrics
  import opened RunFolding
  import opened RollingHistory

  datatype Action = SetVersion(target: int) | Cooldown(seconds: int) | Pause

  datatype Rule = Rule(metric: Metric, threshold: real, window: nat, action: Action)

  datatype Goal = KeepState | ChangeVersion(version: int) | EnterCooldown(seconds: int) | EnterPause

  function Priority(a: Action): int {
    match a
    case SetVersion(_) => 0
    case Cooldown(_) => 1
    case Pause => 2
  }

  function GoalOf(a: Action): Goal {
    match a
    case SetVersion(v) => ChangeVersion(v)
    case Cooldown(s) => EnterCooldown(s)
    case Pause => EnterPause
  }

  // ----- the declarative form

  /** The runs in which the metric was measured. */
  function Observed(runs: seq<Snap>, m: Metric): seq<Snap> {
    if runs == [] then []
    else Observed(runs[..|runs| - 1], m) + if MetricEmitted(runs[|runs| - 1], m) then [runs[|runs| - 1]] else []
  }

  function Sum(runs: seq<Snap>, m: Metric): real {
    if runs == [] then 0.0 else Sum(runs[..|runs| - 1], m) + SnapValue(runs[|runs| - 1], m)
  }

  /** A rolling rule's value: the sum over the last window runs that measured the metric. */
  function WindowSum(runs: seq<Snap>, m: Metric, window: nat): real {
    Sum(Last(window, Observed(runs, m)), m)
  }

  /** A rule's value, or None where it is not evaluated at all. */
  function RuleValue(runs: seq<Snap>, totals: Totals, r: Rule): Option<real> {
    if runs == [] || !MetricEmitted(runs[|runs| - 1], r.metric) then None
    else if !r.action.SetVersion? then Some(WindowSum(runs, r.metric, r.window))
    else if r.metric.ToolFailureRate? && r.metric.tool !in totals.toolFailures then None
    else Some(TotalValue(totals, r.metric))
  }

  predicate Fires(runs: seq<Snap>, totals: Totals, r: Rule) {
    RuleValue(runs, totals, r).Some? && RuleValue(runs, totals, r).value >= r.threshold
  }

  /** The winner: it fires, nothing that fires outranks it, and nothing earlier that fires equals it. */
  predicate Wins(runs: seq<Snap>, totals: Totals, rules: seq<Rule>, i: nat)
    requires i < |rules|
  {
    && Fires(runs, totals, rules[i])
    && (forall j :: 0 <= j < |rules| && Fires(runs, totals, rules[j])
                    ==> Priority(rules[j].action) <= Priority(rules[i].action))
    && (forall j :: 0 <= j < i && Fires(runs, totals, rules[j])
                    ==> Priority(rules[j].action) < Priority(rules[i].action))
  }

  /** Reordering the rules, or repeating some, never changes which kind of action wins. */
  lemma OrderKeepsPriority(runs: seq<Snap>, totals: Totals, rules: seq<Rule>, i: nat, reordered: seq<Rule>, k: nat)
    requires forall r :: r in rules <==> r in reordered
    requires i < |rules| && Wins(runs, totals, rules, i)
    requires k < |reordered| && Wins(runs, totals, reordered, k)
    ensures Priority(rules[i].action) == Priority(reordered[k].action)
  {
    assert rules[i] in reordered && reordered[k] in rules;
  }

  // ----- precedence, in the actions' own terms

  predicate FiresAt(runs: seq<Snap>, totals: Totals, rules: seq<Rule>, i: int) {
    0 <= i < |rules| && Fires(runs, totals, rules[i])
  }

  ghost predicate SomePause(runs: seq<Snap>, totals: Totals, rules: seq<Rule>) {
    exists i :: FiresAt(runs, totals, rules, i) && rules[i].action.Pause?
  }

  ghost predicate SomeCooldown(runs: seq<Snap>, totals: Totals, rules: seq<Rule>) {
    exists i :: FiresAt(runs, totals, rules, i) && rules[i].action.Cooldown?
  }

  ghost predicate SomeRule(runs: seq<Snap>, totals: Totals, rules: seq<Rule>) {
    exists i :: FiresAt(runs, totals, rules, i)
  }

  /** The earliest cooldown that fires orders this one. */
  ghost predicate FirstCooldown(runs: seq<Snap>, totals: Totals, rules: seq<Rule>, goal: Goal) {
    exists i ::
      && FiresAt(runs, totals, rules, i) && rules[i].action.Cooldown?
      && goal == EnterCooldown(rules[i].action.seconds)
      && (forall j :: 0 <= j < i && FiresAt(runs, totals, rules, j) ==> !rules[j].action.Cooldown?)
  }

  /** The earliest change of version that fires orders this one. */
  ghost predicate FirstVersion(runs: seq<Snap>, totals: Totals, rules: seq<Rule>, goal: Goal) {
    exists i ::
      && FiresAt(runs, totals, rules, i) && rules[i].action.SetVersion?
      && goal == ChangeVersion(rules[i].action.target)
      && (forall j :: 0 <= j < i && FiresAt(runs, totals, rules, j) ==> !rules[j].action.SetVersion?)
  }

  /** A pause beats a cooldown, a cooldown beats a change of version; among equals the earliest rule. */
  ghost predicate Precedes(runs: seq<Snap>, totals: Totals, rules: seq<Rule>, goal: Goal) {
    if SomePause(runs, totals, rules) then goal == EnterPause
    else if SomeCooldown(runs, totals, rules) then FirstCooldown(runs, totals, rules, goal)
    else if SomeRule(runs, totals, rules) then FirstVersion(runs, totals, rules, goal)
    else goal == KeepState
  }

  lemma WinnerOutranks(runs: seq<Snap>, totals: Totals, rules: seq<Rule>, i: nat, j: int)
    requires i < |rules| && Wins(runs, totals, rules, i) && FiresAt(runs, totals, rules, j)
    ensures rules[j].action.Pause? ==> rules[i].action.Pause?
    ensures rules[j].action.Cooldown? ==> !rules[i].action.SetVersion?
    ensures j < i ==> rules[j].action.Cooldown? ==> rules[i].action.Pause?
    ensures j < i ==> rules[j].action.SetVersion? ==> !rules[i].action.SetVersion?
  {
  }

  lemma WinnerPrecedes(runs: seq<Snap>, totals: Totals, rules: seq<Rule>, i: nat)
    requires i < |rules| && Wins(runs, totals, rules, i)
    ensures Precedes(runs, totals, rules, GoalOf(rules[i].action))
  {
    assert FiresAt(runs, totals, rules, i);
    forall j | FiresAt(runs, totals, rules, j)
      ensures rules[j].action.Pause? ==> rules[i].action.Pause?
      ensures rules[j].action.Cooldown? ==> !rules[i].action.SetVersion?
      ensures j < i ==> rules[j].action.Cooldown? ==> rules[i].action.Pause?
      ensures j < i ==> rules[j].action.SetVersion? ==> !rules[i].action.SetVersion?
    {
      WinnerOutranks(runs, totals, rules, i, j);
    }
  }

  lemma NothingPrecedes(runs: seq<Snap>, totals: Totals, rules: seq<Rule>)
    requires forall i :: 0 <= i < |rules| ==> !Fires(runs, totals, rules[i])
    ensures Precedes(runs, totals, rules, KeepState)
  {
  }

  // ----- the loops

  /** Reads a metric through its pointer: the caller must know it was emitted. */
  function Deref(s: Snap, m: Metric): real
    requires MetricEmitted(s, m)
    ensures Deref(s, m) == SnapValue(s, m)
  {
    match m
    case NumFailures => s.failures.value as real
    case TotalCost => s.cost.value
    case NumLlmCalls => s.llmCalls.value as real
    case TotalLatency => s.latency.value
    case ApprovalRejections => s.rejections.value as real
    case ToolFailureRate(t) => s.toolFailures[t] as real
  }

  method FilterObserved(runs: seq<Snap>, m: Metric) returns (observed: seq<Snap>)
    ensures observed == Observed(runs, m)
    ensures forall s :: s in observed ==> MetricEmitted(s, m)
  {
    observed := [];
    for i := 0 to |runs|
      invariant observed == Observed(runs[..i], m)
      invariant forall s :: s in observed ==> MetricEmitted(s, m)
    {
      assert runs[..i + 1][..i] == runs[..i];
      if MetricEmitted(runs[i], m) {
        observed := observed + [runs[i]];
      }
    }
    assert runs[..|runs|] == runs;
  }

  method RollingTotal(runs: seq<Snap>, m: Metric, window: nat) returns (total: real)
    ensures total == WindowSum(runs, m, window)
  {
    var observed := FilterObserved(runs, m);
    var lastN := observed;
    if |lastN| > window {
      lastN := lastN[|lastN| - window..];
    }
    total := 0.0;
    for i := 0 to |lastN|
      invariant total == Sum(lastN[..i], m)
    {
      assert lastN[..i + 1][..i] == lastN[..i];
      assert lastN[i] in observed;
      total := total + Deref(lastN[i], m);
    }
    assert lastN[..|lastN|] == lastN;
  }

  /** One rule: whether it fired, and the value it fired at. */
  method EvaluateRule(runs: seq<Snap>, totals: Totals, r: Rule) returns (fired: bool, value: real)
    ensures fired <==> Fires(runs, totals, r)
    ensures fired <==>
              && runs != [] && MetricEmitted(runs[|runs| - 1], r.metric)
              && (r.action.SetVersion? && r.metric.ToolFailureRate? ==> r.metric.tool in totals.toolFailures)
              && r.threshold <= if r.action.SetVersion? then TotalValue(totals, r.metric)
                                else Sum(Last(r.window, Observed(runs, r.metric)), r.metric)
    ensures fired ==> RuleValue(runs, totals, r) == Some(value)
  {
    fired, value := false, 0.0;
    if |runs| == 0 || !MetricEmitted(runs[|runs| - 1], r.metric) {
      return;
    }
    match r.action
    case SetVersion(_) =>
      if r.metric.ToolFailureRate? && r.metric.tool !in totals.toolFailures {
        return;
      }
      value := TotalValue(totals, r.metric);
      fired := value >= r.threshold;
    case _ =>
      value := RollingTotal(runs, r.metric, r.window);
      fired := value >= r.threshold;
  }

  /** The best rule among the first n, given which rules fire. */
  ghost predicate Leads(fires: seq<bool>, rules: seq<Rule>, n: nat, winner: Option<nat>)
    requires n <= |rules| == |fires|
  {
    match winner
    case None => forall j :: 0 <= j < n ==> !fires[j]
    case Some(i) =>
      && i < n && fires[i]
      && (forall j :: 0 <= j < n && fires[j] ==> Priority(rules[j].action) <= Priority(rules[i].action))
      && (forall j :: 0 <= j < i && fires[j] ==> Priority(rules[j].action) < Priority(rules[i].action))
  }

  lemma LeadsStep(fires: seq<bool>, rules: seq<Rule>, n: nat, winner: Option<nat>)
    requires n < |rules| == |fires| && Leads(fires, rules, n, winner)
    ensures var best := if winner.Some? then Priority(rules[winner.value].action) else -1;
            Leads(fires, rules, n + 1, if fires[n] && Priority(rules[n].action) > best then Some(n) else winner)
  {
  }

  ghost function Firing(runs: seq<Snap>, totals: Totals, rules: seq<Rule>): seq<bool> {
    seq(|rules|, i requires 0 <= i < |rules| => Fires(runs, totals, rules[i]))
  }

  lemma LeaderWins(runs: seq<Snap>, totals: Totals, rules: seq<Rule>, winner: Option<nat>)
    requires Leads(Firing(runs, totals, rules), rules, |rules|, winner)
    ensures winner.None? <==> forall i :: 0 <= i < |rules| ==> !Fires(runs, totals, rules[i])
    ensures winner.Some? ==> winner.value < |rules| && Wins(runs, totals, rules, winner.value)
  {
    var fires := Firing(runs, totals, rules);
    assert forall j :: 0 <= j < |rules| ==> fires[j] == Fires(runs, totals, rules[j]);
  }

  /** The engine: goal state, index of the winning rule and the value that crossed its threshold. */
  method ResolvePolicy(runs: seq<Snap>, rules: seq<Rule>, totals: Totals)
      returns (goal: Goal, winner: Option<nat>, value: real)
    ensures winner.None? <==> forall i :: 0 <= i < |rules| ==> !Fires(runs, totals, rules[i])
    ensures winner.None? ==> goal == KeepState
    ensures winner.Some? ==> winner.value < |rules| && Wins(runs, totals, rules, winner.value)
    ensures winner.Some? ==> goal == GoalOf(rules[winner.value].action)
    ensures winner.Some? ==> RuleValue(runs, totals, rules[winner.value]) == Some(value)
    ensures winner.Some? ==> value >= rules[winner.value].threshold
    ensures Precedes(runs, totals, rules, goal)
  {
    goal, winner, value := KeepState, None, 0.0;
    var best := -1;
    ghost var fires := Firing(runs, totals, rules);
    for i := 0 to |rules|
      invariant Leads(fires, rules, i, winner)
      invariant best == if winner.Some? then Priority(rules[winner.value].action) else -1
      invariant goal == if winner.Some? then GoalOf(rules[winner.value].action) else KeepState
      invariant winner.Some? ==> RuleValue(runs, totals, rules[winner.value]) == Some(value)
    {
      LeadsStep(fires, rules, i, winner);
      var fired, ruleValue := EvaluateRule(runs, totals, rules[i]);
      if fired && Priority(rules[i].action) > best {
        best, goal, winner, value := Priority(rules[i].action), GoalOf(rules[i].action), Some(i), ruleValue;
      }
    }
    LeaderWins(runs, totals, rules, winner);
    if winner.Some? {
      WinnerPrecedes(runs, totals, rules, winner.value);
    } else {
      NothingPrecedes(runs, totals, rules);
    }
  }

  // ----- windows over the trimmed history

  lemma {:induction false} ObservedSplits(a: seq<Snap>, b: seq<Snap>, m: Metric)
    ensures Observed(a + b, m) == Observed(a, m) + Observed(b, m)
    decreases |b|
  {
    if b == [] {
      assert a + b == a;
    } else {
      assert (a + b)[..|a + b| - 1] == a + b[..|b| - 1];
      ObservedSplits(a, b[..|b| - 1], m);
    }
  }

  /** The runs the trimmed history has forgotten. */
  function Forgotten(full: seq<Snap>): seq<Snap> {
    if |full| > MAX_WINDOW then full[..|full| - MAX_WINDOW] else []
  }

  /**
    A window over the trimmed history sees the same runs as over the full one exactly
    when the kept runs fill it, or no forgotten run measured the metric.
  */
  lemma WindowAgreesExactly(full: seq<Snap>, m: Metric, window: nat)
    requires 1 <= window <= MAX_WINDOW
    ensures Last(window, Observed(Trimmed(full), m)) == Last(window, Observed(full, m))
            <==> |Observed(Trimmed(full), m)| >= window || Observed(Forgotten(full), m) == []
  {
    assert full == Forgotten(full) + Trimmed(full);
    ObservedSplits(Forgotten(full), Trimmed(full), m);
    LastOfConcat(Observed(Forgotten(full), m), Observed(Trimmed(full), m), window);
  }

  lemma LastOfConcat(a: seq<Snap>, b: seq<Snap>, n: nat)
    ensures |b| >= n || a == [] ==> Last(n, a + b) == Last(n, b)
    ensures |b| < n && a != [] ==> |Last(n, a + b)| > |Last(n, b)|
  {
    if |b| >= n {
      assert Last(n, a + b) == Last(n, b);
    } else if a == [] {
      assert a + b == b;
    }
  }

  /** A metric measured in each of the last window runs is totalled as if nothing had been forgotten. */
  lemma SteadyMetricAgrees(full: seq<Snap>, m: Metric, window: nat)
    requires 1 <= window <= MAX_WINDOW
    requires forall s :: s in Last(window, full) ==> MetricEmitted(s, m)
    ensures WindowSum(Trimmed(full), m, window) == WindowSum(full, m, window)
  {
    if |full| >= window {
      var recent := Last(window, full);
      var kept := Trimmed(full);
      assert kept == kept[..|kept| - window] + recent;
      ObservedSplits(kept[..|kept| - window], recent, m);
      AllObserved(recent, m);
    } else {
      assert Trimmed(full) == full;
    }
    WindowAgreesExactly(full, m, window);
  }

  /** Failures are reported by every run, so their window always agrees. */
  lemma FailuresAgree(full: seq<Snap>, window: nat)
    requires 1 <= window <= MAX_WINDOW && forall s :: s in full ==> s.failures.Some?
    ensures WindowSum(Trimmed(full), NumFailures, window) == WindowSum(full, NumFailures, window)
  {
    SteadyMetricAgrees(full, NumFailures, window);
  }

  lemma {:induction false} AllObserved(runs: seq<Snap>, m: Metric)
    requires forall s :: s in runs ==> MetricEmitted(s, m)
    ensures Observed(runs, m) == runs
    decreases |runs|
  {
    if runs != [] {
      AllObserved(runs[..|runs| - 1], m);
    }
  }

  /** For non-negative values forgetting runs can only lower a window's total. */
  lemma TrimmingNeverRaises(full: seq<Snap>, m: Metric, window: nat)
    requires 1 <= window <= MAX_WINDOW
    requires forall s :: s in full ==> SnapValue(s, m) >= 0.0
    ensures WindowSum(Trimmed(full), m, window) <= WindowSum(full, m, window)
  {
    assert full == Forgotten(full) + Trimmed(full);
    ObservedSplits(Forgotten(full), Trimmed(full), m);
    var a, b := Observed(Forgotten(full), m), Observed(Trimmed(full), m);
    ObservedSubset(full, m);
    if |b| >= window || a == [] {
      LastOfConcat(a, b, window);
    } else {
      ShortWindowSum(a, b, m, window);
    }
  }

  /** Runs before a window that is not full can only add to it. */
  lemma ShortWindowSum(a: seq<Snap>, b: seq<Snap>, m: Metric, window: nat)
    requires |b| < window && forall s :: s in a ==> SnapValue(s, m) >= 0.0
    ensures Sum(Last(window, b), m) <= Sum(Last(window, a + b), m)
  {
    var older := Last(window - |b|, a);
    assert Last(window, a + b) == older + b;
    SumSplits(older, b, m);
    SumNonNegative(older, m);
  }

  lemma {:induction false} ObservedSubset(runs: seq<Snap>, m: Metric)
    ensures forall s :: s in Observed(runs, m) ==> s in runs
    decreases |runs|
  {
    if runs != [] {
      ObservedSubset(runs[..|runs| - 1], m);
    }
  }

  lemma {:induction false} SumSplits(a: seq<Snap>, b: seq<Snap>, m: Metric)
    ensures Sum(a + b, m) == Sum(a, m) + Sum(b, m)
    decreases |b|
  {
    if b == [] {
      assert a + b == a;
    } else {
      assert (a + b)[..|a + b| - 1] == a + b[..|b| - 1];
      SumSplits(a, b[..|b| - 1], m);
    }
  }

  lemma {:induction false} SumNonNegative(runs: seq<Snap>, m: Metric)
    requires forall s :: s in runs ==> SnapValue(s, m) >= 0.0
    ensures Sum(runs, m) >= 0.0
    decreases |runs|
  {
    if runs != [] {
      SumNonNegative(runs[..|runs| - 1], m);
    }
  }
}

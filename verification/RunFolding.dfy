/**
  Folding a finished run into the workflow's books
  (internal/metrics/metricshandler.go, HandleAgentMetrics).

  The run's per-agent metrics become one workflow snapshot, the version totals grow by
  it, and each agent's and the workflow's history gain one entry, trimmed to a window.
*/
module RunFolding {
  import opened Options
  import opened AgentMetrics
  import opened JobRow
  import opened RollingHistory

  /** One run as the workflow's rolling history records it. */
  datatype Snap = Snap(
    cost: Option<real>,
    llmCalls: Option<int>,
    latency: Option<real>,
    failures: Option<int>,
    rejections: Option<int>,
    toolFailures: map<string, int>)

  /** The version totals: one row of workflow_version_metrics. */
  datatype Totals = Totals(
    cost: real,
    runs: int,
    failures: int,
    llmCalls: int,
    latency: real,
    rejections: int,
    toolFailures: map<string, int>)

  const NO_TOTALS := Totals(0.0, 0, 0, 0, 0.0, 0, map[])

  /** What a workflow policy can measure; tokens and calls per tool stay with the agents. */
  datatype Metric = NumFailures | TotalCost | NumLlmCalls | TotalLatency | ApprovalRejections
      | ToolFailureRate(tool: string)

  predicate MetricEmitted(s: Snap, m: Metric) {
    match m
    case NumFailures => s.failures.Some?
    case TotalCost => s.cost.Some?
    case NumLlmCalls => s.llmCalls.Some?
    case TotalLatency => s.latency.Some?
    case ApprovalRejections => s.rejections.Some?
    case ToolFailureRate(t) => t in s.toolFailures
  }

  /** A run's amount of a metric; one that was not emitted counts for nothing. */
  function SnapValue(s: Snap, m: Metric): real {
    match m
    case NumFailures => IntValue(s.failures) as real
    case TotalCost => RealValue(s.cost)
    case NumLlmCalls => IntValue(s.llmCalls) as real
    case TotalLatency => RealValue(s.latency)
    case ApprovalRejections => IntValue(s.rejections) as real
    case ToolFailureRate(t) => CountOf(s.toolFailures, t) as real
  }

  function TotalValue(t: Totals, m: Metric): real {
    match m
    case NumFailures => t.failures as real
    case TotalCost => t.cost
    case NumLlmCalls => t.llmCalls as real
    case TotalLatency => t.latency
    case ApprovalRejections => t.rejections as real
    case ToolFailureRate(tool) => CountOf(t.toolFailures, tool) as real
  }

  /** The agent field a workflow metric rolls up; a workflow's failures are its own, not its agents'. */
  function FieldOf(m: Metric): Option<Field> {
    match m
    case NumFailures => None
    case TotalCost => Some(Cost)
    case NumLlmCalls => Some(LlmCalls)
    case TotalLatency => Some(Latency)
    case ApprovalRejections => Some(Rejections)
    case ToolFailureRate(t) => Some(ToolFailures(t))
  }

  function AgentShare(a: Option<Agent>, m: Metric): real {
    if a.Some? && FieldOf(m).Some? then Value(a.value, FieldOf(m).value) else 0.0
  }

  /** What the run's own counters contribute. */
  function OwnShare(c: RunCounters, m: Metric): real {
    match m
    case NumFailures => c.failures as real
    case ApprovalRejections => IntValue(c.rejections) as real
    case _ => 0.0
  }

  /** The sum of a metric over a set of agents; the choice of order is immaterial, see ShareSplits. */
  ghost function SharesOf(run: Snapshot, agents: set<string>, m: Metric): real
    requires agents <= run.Keys
    decreases |agents|
  {
    if agents == {} then 0.0 else
    var a :| a in agents;
    AgentShare(run[a], m) + SharesOf(run, agents - {a}, m)
  }

  lemma {:induction false} ShareSplits(run: Snapshot, agents: set<string>, a: string, m: Metric)
    requires agents <= run.Keys && a in agents
    ensures SharesOf(run, agents, m) == AgentShare(run[a], m) + SharesOf(run, agents - {a}, m)
    decreases |agents|
  {
    var b :| b in agents && SharesOf(run, agents, m) == AgentShare(run[b], m) + SharesOf(run, agents - {b}, m);
    if a != b {
      ShareSplits(run, agents - {b}, a, m);
      ShareSplits(run, agents - {a}, b, m);
      assert agents - {b} - {a} == agents - {a} - {b};
    }
  }

  // ----- one run into the books

  /** A run's snapshot added to the version totals. */
  function AddRun(t: Totals, s: Snap): Totals {
    Totals(
      t.cost + RealValue(s.cost),
      t.runs + 1,
      t.failures + IntValue(s.failures),
      t.llmCalls + IntValue(s.llmCalls),
      t.latency + RealValue(s.latency),
      t.rejections + IntValue(s.rejections),
      AddCounts(t.toolFailures, s.toolFailures))
  }

  /** The totals grow by exactly the run's value, metric by metric. */
  lemma AddRunAdds(t: Totals, s: Snap, m: Metric)
    ensures TotalValue(AddRun(t, s), m) == TotalValue(t, m) + SnapValue(s, m)
    ensures AddRun(t, s).runs == t.runs + 1
  {
    if m.ToolFailureRate? {
      CountOfSum(t.toolFailures, s.toolFailures, m.tool);
    }
  }

  function FoldAgent(s: Snap, a: Agent): Snap {
    Snap(
      AddReal(s.cost, a.cost),
      AddInt(s.llmCalls, a.llmCalls),
      AddReal(s.latency, a.latency),
      s.failures,
      AddInt(s.rejections, a.rejections),
      AddCounts(s.toolFailures, a.toolFailures))
  }

  /** What the loop adds to the version totals for one agent, beside what it adds to the snapshot. */
  function CountAgent(t: Totals, a: Agent): Totals {
    t.(cost := t.cost + RealValue(a.cost),
       llmCalls := t.llmCalls + IntValue(a.llmCalls),
       latency := t.latency + RealValue(a.latency),
       rejections := t.rejections + IntValue(a.rejections),
       toolFailures := AddCounts(t.toolFailures, a.toolFailures))
  }

  function CountOwn(t: Totals, c: RunCounters): Totals {
    t.(failures := t.failures + c.failures, rejections := t.rejections + IntValue(c.rejections))
  }

  /** The two accumulators stay in step: the totals are always the old ones plus the snapshot so far. */
  lemma TotalsFollowAgent(t: Totals, s: Snap, a: Agent)
    ensures CountAgent(AddRun(t, s), a) == AddRun(t, FoldAgent(s, a))
  {
    AddCountsAssociative(t.toolFailures, s.toolFailures, a.toolFailures);
  }

  lemma TotalsFollowOwn(t: Totals, s: Snap, c: RunCounters)
    ensures CountOwn(AddRun(t, s), c) == AddRun(t, FoldOwn(s, c))
  {
  }

  lemma TotalsStart(t: Totals)
    ensures AddRun(t, NO_SNAP) == t.(runs := t.runs + 1)
  {
    assert AddCounts(t.toolFailures, map[]) == t.toolFailures;
  }

  lemma FoldAgentAdds(s: Snap, a: Agent, m: Metric)
    ensures SnapValue(FoldAgent(s, a), m) == SnapValue(s, m) + AgentShare(Some(a), m)
    ensures MetricEmitted(FoldAgent(s, a), m)
            <==> MetricEmitted(s, m) || (FieldOf(m).Some? && Emitted(a, FieldOf(m).value))
  {
    if m.ToolFailureRate? {
      CountOfSum(s.toolFailures, a.toolFailures, m.tool);
    }
  }

  function FoldOwn(s: Snap, c: RunCounters): Snap {
    s.(failures := Some(IntValue(s.failures) + c.failures), rejections := AddInt(s.rejections, c.rejections))
  }

  /** A metric some agent emitted, or the run itself. */
  ghost predicate AnyoneEmits(run: Snapshot, agents: set<string>, m: Metric)
    requires agents <= run.Keys
  {
    exists a :: a in agents && run[a].Some? && FieldOf(m).Some? && Emitted(run[a].value, FieldOf(m).value)
  }

  predicate OwnEmits(c: RunCounters, m: Metric) {
    m.NumFailures? || (m.ApprovalRejections? && c.rejections.Some?)
  }

  const NO_SNAP := Snap(None, None, None, None, None, map[])

  /** What a snapshot must say of a run: each metric is the sum of everyone's share, emitted if anyone emitted it. */
  ghost predicate Summarizes(s: Snap, run: Snapshot, c: RunCounters, m: Metric) {
    && SnapValue(s, m) == SharesOf(run, run.Keys, m) + OwnShare(c, m)
    && (MetricEmitted(s, m) <==> AnyoneEmits(run, run.Keys, m) || OwnEmits(c, m))
  }

  /** Halfway through the agents: the ones in todo are not in the snapshot yet. */
  ghost predicate SummarizesSoFar(s: Snap, run: Snapshot, todo: set<string>)
    requires todo <= run.Keys
  {
    forall m ::
      && SnapValue(s, m) == SharesOf(run, run.Keys - todo, m)
      && (MetricEmitted(s, m) <==> AnyoneEmits(run, run.Keys - todo, m))
  }

  lemma SummaryStep(s: Snap, run: Snapshot, todo: set<string>, a: string)
    requires todo <= run.Keys && a in todo && SummarizesSoFar(s, run, todo)
    ensures SummarizesSoFar(if run[a].Some? then FoldAgent(s, run[a].value) else s, run, todo - {a})
  {
    var s' := if run[a].Some? then FoldAgent(s, run[a].value) else s;
    var done, done' := run.Keys - todo, run.Keys - (todo - {a});
    assert done' - {a} == done;
    forall m
      ensures SnapValue(s', m) == SharesOf(run, done', m)
      ensures MetricEmitted(s', m) <==> AnyoneEmits(run, done', m)
    {
      ShareSplits(run, done', a, m);
      if run[a].Some? {
        FoldAgentAdds(s, run[a].value, m);
      }
      if AnyoneEmits(run, done, m) {
        var b :| b in done && run[b].Some? && FieldOf(m).Some? && Emitted(run[b].value, FieldOf(m).value);
        assert b in done';
      }
    }
  }

  /** One agent's history with one more run, trimmed. */
  function Remembered(histories: map<string, seq<Agent>>, agent: string, a: Agent): seq<Agent> {
    Trimmed((if agent in histories then histories[agent] else []) + [a])
  }

  /** The histories the emission writes back: one more run for an agent that ran, the old one for a nil entry. */
  function TouchedHistories(histories: map<string, seq<Agent>>, run: Snapshot, agents: set<string>): map<string,
      seq<Agent>>
    requires agents <= run.Keys
  {
    map a | a in agents && (run[a].Some? || a in histories) ::
      if run[a].Some? then Remembered(histories, a, run[a].value) else histories[a]
  }

  /** A nil entry of an agent without a history, which the collection loop would dereference. */
  predicate NilWithoutHistory(histories: map<string, seq<Agent>>, run: Snapshot, agents: set<string>)
    requires agents <= run.Keys
  {
    exists a :: a in agents && run[a].None? && a !in histories
  }

  lemma TouchedStep(histories: map<string, seq<Agent>>, run: Snapshot, done: set<string>, a: string)
    requires done <= run.Keys && a in run
    ensures var touched := TouchedHistories(histories, run, done);
            TouchedHistories(histories, run, done + {a})
            == (if run[a].Some? then touched[a := Remembered(histories, a, run[a].value)]
                else if a in histories then touched[a := histories[a]] else touched)
    ensures NilWithoutHistory(histories, run, done + {a})
            <==> NilWithoutHistory(histories, run, done) || (run[a].None? && a !in histories)
  {
    if NilWithoutHistory(histories, run, done) {
      var b :| b in done && run[b].None? && b !in histories;
      assert b in done + {a};
    }
    assert a in done + {a};
  }

  /** The fold over the agents of a run, in any order: snapshot and version totals side by side. */
  method FoldAgents(run: Snapshot, counters: RunCounters, totals: Totals) returns (snapshot: Snap, totals': Totals)
    ensures forall m :: Summarizes(snapshot, run, counters, m)
    ensures totals' == AddRun(totals, snapshot)
  {
    snapshot, totals' := NO_SNAP, totals.(runs := totals.runs + 1);
    TotalsStart(totals);
    var todo := run.Keys;
    NothingSummarized(run);
    while todo != {}
      invariant todo <= run.Keys
      invariant SummarizesSoFar(snapshot, run, todo)
      invariant totals' == AddRun(totals, snapshot)
      decreases |todo|
    {
      var agent :| agent in todo;
      SummaryStep(snapshot, run, todo, agent);
      if run[agent].Some? {
        TotalsFollowAgent(totals, snapshot, run[agent].value);
        totals' := CountAgent(totals', run[agent].value);
        snapshot := FoldAgent(snapshot, run[agent].value);
      }
      todo := todo - {agent};
    }
    FoldOwnSummarizes(snapshot, run, counters);
    TotalsFollowOwn(totals, snapshot, counters);
    totals' := CountOwn(totals', counters);
    snapshot := FoldOwn(snapshot, counters);
  }

  // ----- the one snapshot of a run

  /** What summarizes a run is determined by it, so the agents' order leaves no trace. */
  lemma OneSummary(s: Snap, s': Snap, run: Snapshot, c: RunCounters)
    requires forall m :: Summarizes(s, run, c, m)
    requires forall m :: Summarizes(s', run, c, m)
    ensures s == s'
  {
    forall m
      ensures SnapValue(s, m) == SnapValue(s', m) && MetricEmitted(s, m) == MetricEmitted(s', m)
    {
      assert Summarizes(s, run, c, m) && Summarizes(s', run, c, m);
    }
    SameScalars(s, s');
    SameTools(s, s');
  }

  ghost predicate Alike(s: Snap, s': Snap) {
    forall m :: SnapValue(s, m) == SnapValue(s', m) && MetricEmitted(s, m) == MetricEmitted(s', m)
  }

  lemma SameScalars(s: Snap, s': Snap)
    requires Alike(s, s')
    ensures s.(toolFailures := s'.toolFailures) == s'
  {
    assert SnapValue(s, TotalCost) == SnapValue(s', TotalCost)
        && MetricEmitted(s, TotalCost) == MetricEmitted(s', TotalCost);
    assert SnapValue(s, NumLlmCalls) == SnapValue(s', NumLlmCalls)
        && MetricEmitted(s, NumLlmCalls) == MetricEmitted(s', NumLlmCalls);
    assert SnapValue(s, TotalLatency) == SnapValue(s', TotalLatency)
        && MetricEmitted(s, TotalLatency) == MetricEmitted(s', TotalLatency);
    assert SnapValue(s, NumFailures) == SnapValue(s', NumFailures)
        && MetricEmitted(s, NumFailures) == MetricEmitted(s', NumFailures);
    assert SnapValue(s, ApprovalRejections) == SnapValue(s', ApprovalRejections)
           && MetricEmitted(s, ApprovalRejections) == MetricEmitted(s', ApprovalRejections);
  }

  lemma SameTools(s: Snap, s': Snap)
    requires Alike(s, s')
    ensures s.toolFailures == s'.toolFailures
  {
    forall t
      ensures t in s.toolFailures <==> t in s'.toolFailures
      ensures t in s.toolFailures && t in s'.toolFailures ==> s.toolFailures[t] == s'.toolFailures[t]
    {
      assert SnapValue(s, ToolFailureRate(t)) == SnapValue(s', ToolFailureRate(t));
      assert MetricEmitted(s, ToolFailureRate(t)) == MetricEmitted(s', ToolFailureRate(t));
    }
  }

  ghost function FoldRest(s: Snap, run: Snapshot, todo: set<string>): Snap
    requires todo <= run.Keys
    decreases |todo|
  {
    if todo == {} then s else
    var a :| a in todo;
    FoldRest(if run[a].Some? then FoldAgent(s, run[a].value) else s, run, todo - {a})
  }

  lemma {:induction false} FoldRestSummarizes(s: Snap, run: Snapshot, todo: set<string>)
    requires todo <= run.Keys && SummarizesSoFar(s, run, todo)
    ensures SummarizesSoFar(FoldRest(s, run, todo), run, {})
    decreases |todo|
  {
    if todo != {} {
      var a :| a in todo && FoldRest(s, run, todo)
          == FoldRest(if run[a].Some? then FoldAgent(s, run[a].value) else s, run, todo - {a});
      SummaryStep(s, run, todo, a);
      FoldRestSummarizes(if run[a].Some? then FoldAgent(s, run[a].value) else s, run, todo - {a});
    }
  }

  /** The snapshot of a run. */
  ghost function SnapOf(run: Snapshot, c: RunCounters): Snap {
    FoldOwn(FoldRest(NO_SNAP, run, run.Keys), c)
  }

  lemma SnapOfSummarizes(run: Snapshot, c: RunCounters)
    ensures forall m :: Summarizes(SnapOf(run, c), run, c, m)
  {
    NothingSummarized(run);
    FoldRestSummarizes(NO_SNAP, run, run.Keys);
    FoldOwnSummarizes(FoldRest(NO_SNAP, run, run.Keys), run, c);
  }

  lemma NothingSummarized(run: Snapshot)
    ensures SummarizesSoFar(NO_SNAP, run, run.Keys)
  {
    assert run.Keys - run.Keys == {};
  }

  /**
    The histories of the agents touched, in any order. A nil entry is skipped by the
    fold, and its history is only found if the agent already had one: panicked reports
    the nil dereference otherwise.
  */
  method CollectHistories(run: Snapshot, histories: map<string, seq<Agent>>)
      returns (panicked: bool, touched: map<string, seq<Agent>>)
    ensures panicked <==> NilWithoutHistory(histories, run, run.Keys)
    ensures touched == TouchedHistories(histories, run, run.Keys)
  {
    touched, panicked := map[], false;
    var todo := run.Keys;
    ghost var done: set<string> := {};
    while todo != {}
      invariant done == run.Keys - todo && todo <= run.Keys
      invariant touched == TouchedHistories(histories, run, done)
      invariant panicked <==> NilWithoutHistory(histories, run, done)
      decreases |todo|
    {
      var agent :| agent in todo;
      TouchedStep(histories, run, done, agent);
      if run[agent].Some? {
        touched := touched[agent := Remembered(histories, agent, run[agent].value)];
      } else if agent in histories {
        touched := touched[agent := histories[agent]];
      } else {
        panicked := true;
      }
      todo, done := todo - {agent}, done + {agent};
    }
    assert done == run.Keys;
  }

  /** Everything one emission writes, from what the handler read. */
  method HandleAgentMetrics(run: Snapshot, counters: RunCounters, totals: Totals, histories: map<string, seq<Agent>>,
      rolling: seq<Snap>)
    returns (panicked: bool, snapshot: Snap, totals': Totals, touched: map<string, seq<Agent>>, rolling': seq<Snap>)
    ensures panicked <==> NilWithoutHistory(histories, run, run.Keys)
    ensures forall m :: Summarizes(snapshot, run, counters, m)
    ensures forall m :: TotalValue(totals', m) == TotalValue(totals, m) + SnapValue(snapshot, m)
    ensures totals' == AddRun(totals, snapshot)
    ensures snapshot == SnapOf(run, counters)
    ensures touched == TouchedHistories(histories, run, run.Keys)
    ensures rolling' == Trimmed(rolling + [snapshot])
  {
    snapshot, totals' := FoldAgents(run, counters, totals);
    SnapOfSummarizes(run, counters);
    OneSummary(snapshot, SnapOf(run, counters), run, counters);
    panicked, touched := CollectHistories(run, histories);
    rolling' := Trimmed(rolling + [snapshot]);
    forall m
      ensures TotalValue(totals', m) == TotalValue(totals, m) + SnapValue(snapshot, m)
    {
      AddRunAdds(totals, snapshot, m);
    }
  }

  lemma FoldOwnSummarizes(s: Snap, run: Snapshot, c: RunCounters)
    requires SummarizesSoFar(s, run, {})
    ensures forall m :: Summarizes(FoldOwn(s, c), run, c, m)
  {
    assert run.Keys - {} == run.Keys;
    forall m
      ensures Summarizes(FoldOwn(s, c), run, c, m)
    {
      assert SnapValue(s, m) == SharesOf(run, run.Keys - {}, m);
      if m.NumFailures? {
        NoAgentFailures(run, run.Keys);
        assert MetricEmitted(s, m) <==> AnyoneEmits(run, run.Keys - {}, m);
      }
    }
  }

  lemma {:induction false} NoAgentFailures(run: Snapshot, agents: set<string>)
    requires agents <= run.Keys
    ensures SharesOf(run, agents, NumFailures) == 0.0
    decreases |agents|
  {
    if agents != {} {
      var a :| a in agents;
      ShareSplits(run, agents, a, NumFailures);
      NoAgentFailures(run, agents - {a});
    }
  }

  /** A job row's own metrics hold no nil entry, so folding a finished run never dereferences one. */
  lemma RowMetricsNeverPanic(job: JobMetrics, histories: map<string, seq<Agent>>)
    ensures !NilWithoutHistory(histories, Lift(job), Lift(job).Keys)
    ensures Carried(Lift(job)) == job
  {
  }
}

/**
  Per-agent metrics of a run and the merge that accumulates them
  (internal/metrics/metricshandler.go, MergeAgentMetrics and its add helpers).

  Floats are reals, int32 counters are unbounded ints. A nil pointer field is
  None: the metric was not emitted.
*/
module AgentMetrics {
  import opened Options

  /** One agent's running totals. A Go nil map and an empty map read the same. */
  datatype Agent = Agent(
    cost: Option<real>,
    llmCalls: Option<int>,
    tokens: Option<int>,
    latency: Option<real>,
    failures: Option<int>,
    rejections: Option<int>,
    toolFailures: map<string, int>,
    toolCalls: map<string, int>,
    ranAt: int)

  /** What a job row accumulates: no entry is ever nil. */
  type JobMetrics = map<string, Agent>

  /** What a client reports for the operation in flight; an entry may be nil. */
  type Snapshot = map<string, Option<Agent>>

  /** Every quantity an agent can report. */
  datatype Field = Cost | LlmCalls | Tokens | Latency | Failures | Rejections | ToolFailures(tool: string)
      | ToolCalls(tool: string)

  function IntValue(v: Option<int>): int {
    if v.Some? then v.value else 0
  }

  function RealValue(v: Option<real>): real {
    if v.Some? then v.value else 0.0
  }

  function CountOf(counts: map<string, int>, tool: string): int {
    if tool in counts then counts[tool] else 0
  }

  /** The amount an agent reports for a field; a field not emitted is worth zero. */
  function Value(a: Agent, f: Field): real {
    match f
    case Cost => RealValue(a.cost)
    case LlmCalls => IntValue(a.llmCalls) as real
    case Tokens => IntValue(a.tokens) as real
    case Latency => RealValue(a.latency)
    case Failures => IntValue(a.failures) as real
    case Rejections => IntValue(a.rejections) as real
    case ToolFailures(t) => CountOf(a.toolFailures, t) as real
    case ToolCalls(t) => CountOf(a.toolCalls, t) as real
  }

  predicate Emitted(a: Agent, f: Field) {
    match f
    case Cost => a.cost.Some?
    case LlmCalls => a.llmCalls.Some?
    case Tokens => a.tokens.Some?
    case Latency => a.latency.Some?
    case Failures => a.failures.Some?
    case Rejections => a.rejections.Some?
    case ToolFailures(t) => t in a.toolFailures
    case ToolCalls(t) => t in a.toolCalls
  }

  // ----- the merge as a value

  function AddInt(dst: Option<int>, src: Option<int>): Option<int> {
    if src.None? then dst else Some(IntValue(dst) + src.value)
  }

  function AddReal(dst: Option<real>, src: Option<real>): Option<real> {
    if src.None? then dst else Some(RealValue(dst) + src.value)
  }

  function AddCounts(dst: map<string, int>, src: map<string, int>): map<string, int> {
    map t | t in dst.Keys + src.Keys :: CountOf(dst, t) + CountOf(src, t)
  }

  function AddAgent(dst: Agent, src: Agent): Agent {
    Agent(
      AddReal(dst.cost, src.cost),
      AddInt(dst.llmCalls, src.llmCalls),
      AddInt(dst.tokens, src.tokens),
      AddReal(dst.latency, src.latency),
      AddInt(dst.failures, src.failures),
      AddInt(dst.rejections, src.rejections),
      AddCounts(dst.toolFailures, src.toolFailures),
      AddCounts(dst.toolCalls, src.toolCalls),
      dst.ranAt)
  }

  /** The agents a snapshot really carries: its non-nil entries. */
  function Carried(op: Snapshot): JobMetrics {
    map a | a in op && op[a].Some? :: op[a].value
  }

  function MergeAgent(job: JobMetrics, op: Snapshot, a: string): Agent
    requires a in job || a in Carried(op)
  {
    if a !in Carried(op) then job[a]
    else if a !in job then Carried(op)[a]
    else AddAgent(job[a], Carried(op)[a])
  }

  /** Job totals after merging one operation's snapshot into them. */
  function Merge(job: JobMetrics, op: Snapshot): JobMetrics {
    map a | a in job.Keys + Carried(op).Keys :: MergeAgent(job, op, a)
  }

  function Lift(job: JobMetrics): Snapshot {
    map a | a in job :: Some(job[a])
  }

  // ----- what the merge means

  function JobValue(job: JobMetrics, agent: string, f: Field): real {
    if agent in job then Value(job[agent], f) else 0.0
  }

  predicate JobEmitted(job: JobMetrics, agent: string, f: Field) {
    agent in job && Emitted(job[agent], f)
  }

  /** Merging is optional addition, agent by agent and field by field. */
  lemma MergeAdds(job: JobMetrics, op: Snapshot, agent: string, f: Field)
    ensures JobValue(Merge(job, op), agent, f) == JobValue(job, agent, f) + JobValue(Carried(op), agent, f)
    ensures JobEmitted(Merge(job, op), agent, f) <==> JobEmitted(job, agent, f) || JobEmitted(Carried(op), agent, f)
  {
    if agent in job && agent in Carried(op) {
      AddAgentAdds(job[agent], Carried(op)[agent], f);
    }
  }

  lemma AddAgentAdds(dst: Agent, src: Agent, f: Field)
    ensures Value(AddAgent(dst, src), f) == Value(dst, f) + Value(src, f)
    ensures Emitted(AddAgent(dst, src), f) <==> Emitted(dst, f) || Emitted(src, f)
  {
    match f {
      case ToolFailures(t) => CountOfSum(dst.toolFailures, src.toolFailures, t);
      case ToolCalls(t) => CountOfSum(dst.toolCalls, src.toolCalls, t);
      case _ =>
    }
  }

  /** An empty report changes nothing. */
  lemma MergeNothing(job: JobMetrics)
    ensures Merge(job, map[]) == job
  {
    assert Carried(map[]) == map[];
  }

  /** Merging two reports in turn is merging their merge: the order of grouping is immaterial. */
  lemma MergeAssociative(job: JobMetrics, op1: Snapshot, op2: Snapshot)
    ensures Merge(Merge(job, op1), op2) == Merge(job, Lift(Merge(Carried(op1), op2)))
  {
    var both := Merge(Carried(op1), op2);
    assert Carried(Lift(both)) == both;
    forall a | a in Merge(Merge(job, op1), op2)
      ensures a in Merge(job, Lift(both)) && Merge(Merge(job, op1), op2)[a] == Merge(job, Lift(both))[a]
    {
      if a in job && a in Carried(op1) && a in Carried(op2) {
        AddAgentAssociative(job[a], Carried(op1)[a], Carried(op2)[a]);
      }
    }
  }

  lemma AddRealAssociative(a: Option<real>, b: Option<real>, c: Option<real>)
    ensures AddReal(AddReal(a, b), c) == AddReal(a, AddReal(b, c))
  {
  }

  lemma AddIntAssociative(a: Option<int>, b: Option<int>, c: Option<int>)
    ensures AddInt(AddInt(a, b), c) == AddInt(a, AddInt(b, c))
  {
  }

  lemma AddAgentAssociative(a: Agent, b: Agent, c: Agent)
    ensures AddAgent(AddAgent(a, b), c) == AddAgent(a, AddAgent(b, c))
  {
    AddRealAssociative(a.cost, b.cost, c.cost);
    AddRealAssociative(a.latency, b.latency, c.latency);
    AddIntAssociative(a.llmCalls, b.llmCalls, c.llmCalls);
    AddIntAssociative(a.tokens, b.tokens, c.tokens);
    AddIntAssociative(a.failures, b.failures, c.failures);
    AddIntAssociative(a.rejections, b.rejections, c.rejections);
    AddCountsAssociative(a.toolFailures, b.toolFailures, c.toolFailures);
    AddCountsAssociative(a.toolCalls, b.toolCalls, c.toolCalls);
  }

  lemma AddCountsAssociative(a: map<string, int>, b: map<string, int>, c: map<string, int>)
    ensures AddCounts(AddCounts(a, b), c) == AddCounts(a, AddCounts(b, c))
  {
    var left, right := AddCounts(AddCounts(a, b), c), AddCounts(a, AddCounts(b, c));
    assert left.Keys == right.Keys;
    forall t | t in left
      ensures left[t] == right[t]
    {
      CountOfSum(a, b, t);
      CountOfSum(b, c, t);
    }
  }

  lemma CountOfSum(a: map<string, int>, b: map<string, int>, t: string)
    ensures CountOf(AddCounts(a, b), t) == CountOf(a, t) + CountOf(b, t)
  {
  }

  // ----- the merge as the source runs it

  function Bumped(counts: map<string, int>, tool: string, extra: int): map<string, int> {
    counts[tool := CountOf(counts, tool) + extra]
  }

  /** The sum with the tools in todo still to be added. */
  ghost function PartialCounts(dst: map<string, int>, src: map<string, int>, todo: set<string>): map<string, int> {
    map t | t in dst.Keys + (src.Keys - todo) :: CountOf(dst, t) + if t in todo then 0 else CountOf(src, t)
  }

  lemma PartialCountsStep(dst: map<string, int>, src: map<string, int>, todo: set<string>, tool: string)
    requires tool in todo && todo <= src.Keys
    ensures PartialCounts(dst, src, todo - {tool}) == Bumped(PartialCounts(dst, src, todo), tool, src[tool])
  {
  }

  lemma PartialCountsEnds(dst: map<string, int>, src: map<string, int>)
    ensures PartialCounts(dst, src, src.Keys) == dst && PartialCounts(dst, src, {}) == AddCounts(dst, src)
  {
  }

  /** Adds the operation's per-tool counts into the job's, one tool at a time, in any order. */
  method AddToolCounts(dst: map<string, int>, src: map<string, int>) returns (sum: map<string, int>)
    ensures sum == AddCounts(dst, src)
  {
    sum := dst;
    var todo := src.Keys;
    PartialCountsEnds(dst, src);
    while todo != {}
      invariant todo <= src.Keys
      invariant sum == PartialCounts(dst, src, todo)
      decreases |todo|
    {
      var tool :| tool in todo;
      PartialCountsStep(dst, src, todo, tool);
      sum := Bumped(sum, tool, src[tool]);
      todo := todo - {tool};
    }
  }

  /** The merge with the agents in todo still to be visited. */
  ghost function PartialMerge(job: JobMetrics, op: Snapshot, todo: set<string>): JobMetrics {
    map a | a in job.Keys + (Carried(op).Keys - todo) :: if a in todo then job[a] else MergeAgent(job, op, a)
  }

  lemma PartialMergeStep(job: JobMetrics, op: Snapshot, todo: set<string>, agent: string)
    requires agent in todo && todo <= op.Keys
    ensures PartialMerge(job, op, todo - {agent})
            == if op[agent].None? then PartialMerge(job, op, todo)
               else PartialMerge(job, op, todo)[agent := MergeAgent(job, op, agent)]
  {
  }

  lemma PartialMergeEnds(job: JobMetrics, op: Snapshot)
    ensures PartialMerge(job, op, op.Keys) == job && PartialMerge(job, op, {}) == Merge(job, op)
  {
  }

  /** Folds a snapshot into the job accumulator, visiting the agents in any order and skipping nil entries. */
  method MergeAgentMetrics(op: Snapshot, job: JobMetrics) returns (merged: JobMetrics)
    ensures merged == Merge(job, op)
  {
    merged := job;
    var todo := op.Keys;
    PartialMergeEnds(job, op);
    while todo != {}
      invariant todo <= op.Keys
      invariant merged == PartialMerge(job, op, todo)
      decreases |todo|
    {
      var agent :| agent in todo;
      PartialMergeStep(job, op, todo, agent);
      todo := todo - {agent};
      if op[agent].Some? {
        if agent !in merged {
          merged := merged[agent := op[agent].value];
        } else {
          var sum := SumAgent(merged[agent], op[agent].value);
          merged := merged[agent := sum];
        }
      }
    }
  }

  /** Sums what the operation emitted into the job's entry, carrying over what the job had not. */
  method SumAgent(dst: Agent, src: Agent) returns (sum: Agent)
    ensures sum == AddAgent(dst, src)
  {
    var failureCounts := AddToolCounts(dst.toolFailures, src.toolFailures);
    var callCounts := AddToolCounts(dst.toolCalls, src.toolCalls);
    sum := Agent(
      AddReal(dst.cost, src.cost), AddInt(dst.llmCalls, src.llmCalls), AddInt(dst.tokens, src.tokens),
      AddReal(dst.latency, src.latency), AddInt(dst.failures, src.failures), AddInt(dst.rejections, src.rejections),
      failureCounts, callCounts, dst.ranAt);
  }
}

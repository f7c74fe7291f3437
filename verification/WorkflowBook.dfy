/**
  The books of a workflow: version totals by epoch, the rolling run history and each
  agent's history (internal/storage/postgres/metrics.go, version_metrics.go;
  startNewMetricsEpoch in internal/storage/postgres/workflow.go).
*/
module WorkflowBook {
  import opened Options
  import opened AgentMetrics
  import opened RunFolding
  import opened RollingHistory
  import opened JobRow

  /** A finished run as the books take it: its folded snapshot and its agents' metrics. */
  datatype Run = Run(snap: Snap, agents: JobMetrics)

  /** What a run without a job row folds to: failures are always reported. */
  const EMPTY_RUN := Run(Snap(None, None, None, Some(0), None, map[]), map[])

  /** The run a job row's metrics and counters fold to. */
  ghost function RunOf(agents: JobMetrics, counters: RunCounters): Run {
    Run(SnapOf(Lift(agents), counters), agents)
  }

  /** A job row that is gone reads as one that reported nothing. */
  lemma NothingReported()
    ensures RunOf(map[], RunCounters(0, None)) == EMPTY_RUN
  {
    assert Lift(map[]) == map[];
  }

  /** One row of workflow_version_metrics: the n-th stay on a workflow version. */
  datatype Epoch = Epoch(version: int, number: nat)

  datatype Book = Book(
    totals: map<Epoch, Totals>,
    latest: map<int, nat>,      // the highest epoch of each version that has a row
    rolling: seq<Snap>,
    histories: map<string, seq<Agent>>)

  const EMPTY_BOOK := Book(map[], map[], [], map[])

  function TotalsIn(totals: map<Epoch, Totals>, k: Epoch): Totals {
    if k in totals then totals[k] else NO_TOTALS
  }

  function TotalsAt(b: Book, k: Epoch): Totals {
    TotalsIn(b.totals, k)
  }

  /** The epoch GetCurrentVersionMetrics reads; a version without a row starts its first. */
  function CurrentEpoch(b: Book, version: int): Epoch {
    Epoch(version, if version in b.latest then b.latest[version] else 1)
  }

  function StartEpoch(b: Book, version: int): Book {
    var n := (if version in b.latest then b.latest[version] else 0) + 1;
    b.(totals := b.totals[Epoch(version, n) := NO_TOTALS], latest := b.latest[version := n])
  }

  function Max(a: nat, b: nat): nat { if a < b then b else a }

  /** The emission's writes, given what it had read: the totals, rolling history and agent histories. */
  function Post(b: Book, k: Epoch, totals: Totals, rolling: seq<Snap>, histories: map<string, seq<Agent>>,
      run: Run): Book {
    Book(
      b.totals[k := AddRun(totals, run.snap)],
      b.latest[k.version := if k.version in b.latest then Max(b.latest[k.version], k.number) else k.number],
      Trimmed(rolling + [run.snap]),
      PostHistories(b.histories, histories, run.agents))
  }

  /** Only the agents that ran are written. */
  function PostHistories(stored: map<string, seq<Agent>>, read: map<string, seq<Agent>>, ran: JobMetrics): map<string,
      seq<Agent>> {
    map a | a in stored.Keys + ran.Keys :: if a in ran then Remembered(read, a, ran[a]) else stored[a]
  }

  function HistoryIn(histories: map<string, seq<Agent>>, agent: string): seq<Agent> {
    if agent in histories then histories[agent] else []
  }

  /** Epoch numbers never run ahead of the latest row. */
  predicate EpochsInOrder(b: Book) {
    forall k :: k in b.totals ==> k.version in b.latest && k.number <= b.latest[k.version]
  }

  /** Starting an epoch leaves every epoch's totals as they were. */
  lemma StartEpochKeepsTotals(b: Book, version: int)
    requires EpochsInOrder(b)
    ensures EpochsInOrder(StartEpoch(b, version))
    ensures forall k :: TotalsAt(StartEpoch(b, version), k) == TotalsAt(b, k)
    ensures StartEpoch(b, version).rolling == b.rolling && StartEpoch(b, version).histories == b.histories
  {
  }

  // ----- the books a list of emissions adds up to

  datatype Emission = Emission(at: nat, epoch: Epoch, run: Run)

  function TotalsOf(log: seq<Emission>, k: Epoch): Totals {
    if log == [] then NO_TOTALS else
    var last := log[|log| - 1];
    if last.epoch == k then AddRun(TotalsOf(log[..|log| - 1], k), last.run.snap) else TotalsOf(log[..|log| - 1], k)
  }

  /** All runs ever emitted, untrimmed. */
  function Snaps(log: seq<Emission>): seq<Snap> {
    if log == [] then [] else Snaps(log[..|log| - 1]) + [log[|log| - 1].run.snap]
  }

  function AgentRuns(log: seq<Emission>, agent: string): seq<Agent> {
    if log == [] then [] else
    var last := log[|log| - 1];
    AgentRuns(log[..|log| - 1], agent) + if agent in last.run.agents then [last.run.agents[agent]] else []
  }

  /** The books are exactly what has been emitted: nothing lost, nothing twice. */
  ghost predicate Balanced(b: Book, log: seq<Emission>) {
    && (forall k :: TotalsAt(b, k) == TotalsOf(log, k))
    && b.rolling == Trimmed(Snaps(log))
    && (forall a :: HistoryIn(b.histories, a) == Trimmed(AgentRuns(log, a)))
  }

  lemma TotalsGrow(totals: map<Epoch, Totals>, log: seq<Emission>, e: Emission, k: Epoch)
    requires TotalsIn(totals, k) == TotalsOf(log, k) && TotalsIn(totals, e.epoch) == TotalsOf(log, e.epoch)
    ensures TotalsIn(totals[e.epoch := AddRun(TotalsIn(totals, e.epoch), e.run.snap)], k) == TotalsOf(log + [e], k)
  {
    assert (log + [e])[..|log|] == log;
  }

  lemma RollingGrows(rolling: seq<Snap>, log: seq<Emission>, e: Emission)
    requires rolling == Trimmed(Snaps(log))
    ensures Trimmed(rolling + [e.run.snap]) == Trimmed(Snaps(log + [e]))
  {
    assert (log + [e])[..|log|] == log;
    TrimmingKeepsTheTail(Snaps(log), e.run.snap);
  }

  lemma AgentRunsGrow(log: seq<Emission>, e: Emission, a: string)
    ensures AgentRuns(log + [e], a) == AgentRuns(log, a) + if a in e.run.agents then [e.run.agents[a]] else []
  {
    assert (log + [e])[..|log|] == log;
  }

  lemma HistoryGrows(stored: map<string, seq<Agent>>, ran: JobMetrics, a: string, all: seq<Agent>)
    requires HistoryIn(stored, a) == Trimmed(all)
    ensures HistoryIn(PostHistories(stored, stored, ran), a) == Trimmed(all + if a in ran then [ran[a]] else [])
  {
    if a in ran {
      TrimmingKeepsTheTail(all, ran[a]);
      assert Remembered(stored, a, ran[a]) == Trimmed(HistoryIn(stored, a) + [ran[a]]);
    } else {
      assert all + [] == all;
    }
  }

  /** Posting a run on top of the books as they stand keeps them balanced. */
  lemma PostBalances(b: Book, log: seq<Emission>, at: nat, k: Epoch, run: Run)
    requires Balanced(b, log)
    ensures Balanced(Post(b, k, TotalsAt(b, k), b.rolling, b.histories, run), log + [Emission(at, k, run)])
  {
    var e := Emission(at, k, run);
    var b' := Post(b, k, TotalsAt(b, k), b.rolling, b.histories, run);
    assert TotalsAt(b, k) == TotalsOf(log, k);
    forall j
      ensures TotalsAt(b', j) == TotalsOf(log + [e], j)
    {
      assert TotalsAt(b, j) == TotalsOf(log, j);
      TotalsGrow(b.totals, log, e, j);
    }
    RollingGrows(b.rolling, log, e);
    forall a
      ensures HistoryIn(b'.histories, a) == Trimmed(AgentRuns(log + [e], a))
    {
      HistoryGrows(b.histories, run.agents, a, AgentRuns(log, a));
      AgentRunsGrow(log, e, a);
    }
  }

  lemma PostKeepsOrder(b: Book, k: Epoch, totals: Totals, rolling: seq<Snap>, histories: map<string, seq<Agent>>,
      run: Run)
    requires EpochsInOrder(b)
    ensures EpochsInOrder(Post(b, k, totals, rolling, histories, run))
  {
  }

  /** The run count of an epoch is the number of its emissions. */
  lemma {:induction false} RunsCounted(log: seq<Emission>, k: Epoch)
    ensures TotalsOf(log, k).runs == EmissionsIn(log, k)
    decreases |log|
  {
    if log != [] {
      RunsCounted(log[..|log| - 1], k);
    }
  }

  function EmissionsIn(log: seq<Emission>, k: Epoch): nat {
    if log == [] then 0 else EmissionsIn(log[..|log| - 1], k) + if log[|log| - 1].epoch == k then 1 else 0
  }

  /** An epoch's total of a metric is the sum of what its runs reported. */
  function EmittedSum(log: seq<Emission>, k: Epoch, m: Metric): real {
    if log == [] then 0.0 else
    EmittedSum(log[..|log| - 1], k, m) + if log[|log| - 1].epoch == k then SnapValue(log[|log| - 1].run.snap, m)
        else 0.0
  }

  lemma {:induction false} TotalsAreSums(log: seq<Emission>, k: Epoch, m: Metric)
    ensures TotalValue(TotalsOf(log, k), m) == EmittedSum(log, k, m)
    decreases |log|
  {
    if log != [] {
      var front, last := log[..|log| - 1], log[|log| - 1];
      TotalsAreSums(front, k, m);
      AddRunAdds(TotalsOf(front, k), last.run.snap, m);
    } else if m.ToolFailureRate? {
      assert CountOf(NO_TOTALS.toolFailures, m.tool) == 0;
    }
  }
}

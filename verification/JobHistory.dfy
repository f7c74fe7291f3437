/**
  What a history of matched statements says: who acquired last, what each acquisition
  last persisted, which gates were consumed, and how uses are spaced by grants.
*/
module JobHistory {
  import opened Options
  import opened AgentMetrics
  import opened JobRow
  import opened JobProtocol

  function Earlier(log: History): History
    requires log != []
  {
    log[..|log| - 1]
  }

  function Newest(log: History): Entry
    requires log != []
  {
    log[|log| - 1]
  }

  /** The session whose acquisition is the latest. */
  function LastAcquirer(log: History): Option<SessionId> {
    if log == [] then None
    else if Newest(log).stmt.Acquire? then Some(Newest(log).stmt.sid)
    else LastAcquirer(Earlier(log))
  }

  /** Every owner-guarded statement that matched was the latest acquirer's. */
  predicate Fenced(log: History) {
    forall i :: 0 <= i < |log| && OwnerGuarded(log[i].stmt) ==> LastAcquirer(log[..i]) == Some(log[i].stmt.sid)
  }

  // ----- metrics

  /** One report per acquisition, in order: the last one that acquisition persisted. */
  function Ledger(log: History): seq<Snapshot> {
    if log == [] then [] else
    var before := Ledger(Earlier(log));
    if Newest(log).stmt.Acquire? then before + [map[]]
    else if CarriesMetrics(Newest(log).stmt) && before != [] then before[..|before| - 1] + [Newest(log).report]
    else before
  }

  function Folded(reports: seq<Snapshot>): JobMetrics {
    if reports == [] then map[] else Merge(Folded(reports[..|reports| - 1]), reports[|reports| - 1])
  }

  /** The sum of what the reports say of one agent and field. */
  function Reported(reports: seq<Snapshot>, agent: string, f: Field): real {
    if reports == [] then 0.0
    else Reported(reports[..|reports| - 1], agent, f) + JobValue(Carried(reports[|reports| - 1]), agent, f)
  }

  lemma {:induction false} FoldedIsTheSum(reports: seq<Snapshot>, agent: string, f: Field)
    ensures JobValue(Folded(reports), agent, f) == Reported(reports, agent, f)
    decreases |reports|
  {
    if reports != [] {
      FoldedIsTheSum(reports[..|reports| - 1], agent, f);
      MergeAdds(Folded(reports[..|reports| - 1]), reports[|reports| - 1], agent, f);
    }
  }

  // ----- workflow-level counters

  function FailuresIn(log: History): int {
    if log == [] then 0 else FailuresIn(Earlier(log)) + Newest(log).failures
  }

  /** The number of rejected gates consumed. */
  function RejectionsIn(log: History): nat {
    if log == [] then 0 else RejectionsIn(Earlier(log)) + if Newest(log).consumed == Some(true) then 1 else 0
  }

  predicate AnyConsumed(log: History) {
    exists i :: 0 <= i < |log| && log[i].consumed.Some?
  }

  function CountersIn(log: History): RunCounters {
    RunCounters(FailuresIn(log), if AnyConsumed(log) then Some(RejectionsIn(log)) else None)
  }

  function RequeuesIn(log: History): nat {
    if log == [] then 0 else RequeuesIn(Earlier(log)) + if Newest(log).stmt.Requeue? then 1 else 0
  }

  // ----- uses spaced by grants

  datatype Account = Launches | ApprovalDecisions | InputDecisions | Consumptions

  datatype Mark = Use | Grant | Neither

  predicate DecidesApproval(s: Statement) { s.ResolveApproval? || s.SweepApprovals? }

  predicate DecidesInput(s: Statement) { s.ResolveInput? || s.SweepInputs? }

  function MarkOf(acc: Account, e: Entry): Mark {
    match acc
    case Launches =>
      if e.stmt.Dispatch? then Use
      else if e.stmt.Requeue? || e.stmt.Advance? || DecidesApproval(e.stmt) || DecidesInput(e.stmt)
              || (e.stmt.SetStatus? && e.stmt.status == Pending) then Grant
      else Neither
    case ApprovalDecisions => if DecidesApproval(e.stmt) then Use else if e.stmt.ParkApproval? then Grant else Neither
    case InputDecisions => if DecidesInput(e.stmt) then Use else if e.stmt.ParkInput? then Grant else Neither
    case Consumptions => if e.consumed.Some? then Use else if DecidesApproval(e.stmt) then Grant else Neither
  }

  predicate Rejects(s: Statement) { s.SweepApprovals? || (s.ResolveApproval? && !s.approve) }

  /** Whether the latest approval decision rejected, by hand or by timeout. */
  function LastVerdict(log: History): Option<bool> {
    if log == [] then None
    else if DecidesApproval(Newest(log).stmt) then Some(Rejects(Newest(log).stmt))
    else LastVerdict(Earlier(log))
  }

  /** Every consumption records the latest decision as it was. */
  predicate FollowsVerdicts(log: History) {
    forall i :: 0 <= i < |log| && log[i].consumed.Some? ==> LastVerdict(log[..i]) == log[i].consumed
  }

  /** Inserting the row grants the first launch; nothing grants a first decision. */
  function InitialGrants(acc: Account): nat {
    if acc.Launches? then 1 else 0
  }

  /** Whether a use now would be covered by a grant after the previous use. */
  predicate Covered(acc: Account, log: History) {
    if log == [] then InitialGrants(acc) > 0 else
    match MarkOf(acc, Newest(log))
    case Use => false
    case Grant => true
    case Neither => Covered(acc, Earlier(log))
  }

  predicate Spaced(acc: Account, log: History) {
    forall i :: 0 <= i < |log| && MarkOf(acc, log[i]) == Use ==> Covered(acc, log[..i])
  }

  function CountMarks(acc: Account, m: Mark, log: History): nat {
    if log == [] then 0 else CountMarks(acc, m, Earlier(log)) + if MarkOf(acc, Newest(log)) == m then 1 else 0
  }

  /** Between two uses there is a grant. */
  lemma {:induction false} GrantBetweenUses(acc: Account, log: History, i: nat, j: nat)
    requires Spaced(acc, log)
    requires i < j < |log| && MarkOf(acc, log[i]) == Use && MarkOf(acc, log[j]) == Use
    ensures exists k :: i < k < j && MarkOf(acc, log[k]) == Grant
  {
    var k := GrantBehindCover(acc, log, i, j);
  }

  lemma {:induction false} GrantBehindCover(acc: Account, log: History, i: nat, j: nat) returns (k: nat)
    requires i < j <= |log| && MarkOf(acc, log[i]) == Use && Covered(acc, log[..j])
    ensures i < k < j && MarkOf(acc, log[k]) == Grant
    decreases j
  {
    assert Newest(log[..j]) == log[j - 1];
    assert Earlier(log[..j]) == log[..j - 1];
    if MarkOf(acc, log[j - 1]) == Grant {
      k := j - 1;
    } else {
      k := GrantBehindCover(acc, log, i, j - 1);
    }
  }

  /** Hence uses never outnumber grants. */
  lemma {:induction false} UsesWithinGrants(acc: Account, log: History)
    requires Spaced(acc, log)
    ensures CountMarks(acc, Use, log) + (if Covered(acc, log) then 1 else 0)
            <= InitialGrants(acc) + CountMarks(acc, Grant, log)
    decreases |log|
  {
    if log != [] {
      assert forall i :: 0 <= i < |log| - 1 ==> Earlier(log)[..i] == log[..i];
      UsesWithinGrants(acc, Earlier(log));
    }
  }
}

/**
  The job row as its history tells it. What a statement that matched may have been, and what
  it may have carried, is said from the statements that matched before it and their times
  alone: which gate branch a session takes, what it launches, when a delayed operation may be
  acquired, whose lease stands, which failures are retried.
*/
module JobOrders {
  import opened Options
  import opened AgentMetrics
  import opened JobRow
  import opened WorkerSession
  import opened JobProtocol
  import opened JobHistory
  import opened JobInvariant

  // ----- the latest statement of a kind

  datatype Kind =
    | Moves | Leases | Advances | Orders | ApprovalGates | InputGates | ApprovalRulings | InputRulings | Flags

  predicate Of(kind: Kind, s: Statement) {
    match kind
    case Moves =>
      || s.SetStatus? || s.FailRun? || s.CompleteRun? || s.Dispatch? || s.Advance? || s.ParkApproval? || s.ParkInput?
      || s.ResolveApproval? || s.SweepApprovals? || s.ResolveInput? || s.SweepInputs?
      || s.SweepAbandoned? || s.SweepOrphans? || s.Requeue? || s.Claim?
    case Leases => s.Acquire? || s.Renew? || s.Release? || s.Requeue?
    case Advances => s.Advance?
    case Orders => s.Dispatch? || s.Advance? || s.ParkApproval? || s.ParkInput?
    case ApprovalGates => s.ParkApproval?
    case InputGates => s.ParkInput?
    case ApprovalRulings => s.ResolveApproval? || s.SweepApprovals?
    case InputRulings => s.ResolveInput? || s.SweepInputs?
    case Flags => s.MarkAbandon? || s.ClearAbandon?
  }

  function Latest(log: History, kind: Kind): Option<Entry> {
    if log == [] then None
    else if Of(kind, Newest(log).stmt) then Some(Newest(log))
    else Latest(Earlier(log), kind)
  }

  lemma {:induction false} LatestIndex(log: History, i: nat, kind: Kind) returns (j: nat)
    requires i <= |log| && Latest(log[..i], kind).Some?
    ensures j < i && Of(kind, log[j].stmt) && Latest(log[..i], kind) == Some(log[j])
    ensures forall k :: j < k < i ==> !Of(kind, log[k].stmt)
  {
    assert Newest(log[..i]) == log[i - 1] && Earlier(log[..i]) == log[..i - 1];
    if Of(kind, log[i - 1].stmt) {
      j := i - 1;
    } else {
      j := LatestIndex(log, i - 1, kind);
    }
  }

  /** The converse: an entry with none of its kind after it is the latest. */
  lemma {:induction false} IndexIsLatest(log: History, i: nat, kind: Kind, j: nat)
    requires j < i <= |log| && Of(kind, log[j].stmt) && forall k :: j < k < i ==> !Of(kind, log[k].stmt)
    ensures Latest(log[..i], kind) == Some(log[j])
    decreases i
  {
    assert Newest(log[..i]) == log[i - 1] && Earlier(log[..i]) == log[..i - 1];
    if j < i - 1 {
      IndexIsLatest(log, i - 1, kind, j);
    }
  }

  /** Whether the run was flagged for abandon when it was last acquired. */
  function FlaggedAtAcquire(log: History): bool {
    if log == [] then false
    else if Newest(log).stmt.Acquire? then Flagged(Latest(Earlier(log), Flags))
    else FlaggedAtAcquire(Earlier(log))
  }

  function Flagged(flag: Option<Entry>): bool { flag.Some? && flag.value.stmt.MarkAbandon? }

  /** All this needs to know of a history. */
  datatype Past = Past(
    move: Option<Entry>,
    lease: Option<Entry>,
    advance: Option<Entry>,
    order: Option<Entry>,
    approval: Option<Entry>,
    input: Option<Entry>,
    approvalRuling: Option<Entry>,
    inputRuling: Option<Entry>,
    flag: Option<Entry>,
    cut: bool)

  function PastOf(log: History): Past {
    Past(Latest(log, Moves), Latest(log, Leases), Latest(log, Advances), Latest(log, Orders),
         Latest(log, ApprovalGates), Latest(log, InputGates), Latest(log, ApprovalRulings), Latest(log, InputRulings),
         Latest(log, Flags), FlaggedAtAcquire(log))
  }

  function Later(before: Option<Entry>, kind: Kind, e: Entry): Option<Entry> {
    if Of(kind, e.stmt) then Some(e) else before
  }

  function Passed(p: Past, e: Entry): Past {
    Past(Later(p.move, Moves, e), Later(p.lease, Leases, e), Later(p.advance, Advances, e), Later(p.order, Orders, e),
         Later(p.approval, ApprovalGates, e), Later(p.input, InputGates, e),
         Later(p.approvalRuling, ApprovalRulings, e), Later(p.inputRuling, InputRulings, e),
         Later(p.flag, Flags, e), if e.stmt.Acquire? then Flagged(p.flag) else p.cut)
  }

  lemma PastGrows(log: History, e: Entry)
    ensures PastOf(log + [e]) == Passed(PastOf(log), e)
  {
    assert Earlier(log + [e]) == log && Newest(log + [e]) == e;
  }

  // ----- what the row holds, from its past

  function StatusFrom(move: Option<Entry>): Status {
    if move.None? then Pending else
    match move.value.stmt
    case SetStatus(_, status) => status
    case FailRun(_, _, _) => Failed
    case CompleteRun(_, _, _) => Completed
    case Dispatch(_, _, _, _, _) => Dispatched
    case Advance(_, _, _, _, _, _) => AwaitingNext
    case ParkApproval(_, _, _, _, _, _) => AwaitingApproval
    case ParkInput(_, _, _, _, _, _) => AwaitingInput
    case ResolveApproval(_, approve) => if approve then Approved else Rejected
    case SweepApprovals => Rejected
    case ResolveInput(_) => Answered
    case SweepInputs => InputTimedOut
    case SweepAbandoned => Completed
    case SweepOrphans(_) => Failed
    case Claim(_) => TerminalFailed
    case _ => Pending
  }

  /** When the lease in force runs out; None when nobody holds one. */
  function LeaseEnd(lease: Option<Entry>): Option<int> {
    if lease.None? then None
    else if lease.value.stmt.Acquire? || lease.value.stmt.Renew? then Some(lease.value.at + lease.value.stmt.lease)
    else None
  }

  /** When the latest advance lets the next operation start; None for at once. */
  function DelayEnd(advance: Option<Entry>): Option<int> {
    if advance.Some? && advance.value.stmt.Advance? && advance.value.stmt.delay > 0
    then Some(advance.value.at + advance.value.stmt.delay) else None
  }

  /** The operation and timeout last written; a parking empties them. */
  function Ordered(order: Option<Entry>, op: string, timeout: int): (string, int) {
    if order.None? then (op, timeout)
    else if order.value.stmt.Dispatch? || order.value.stmt.Advance? then (order.value.stmt.op, order.value.stmt.timeout)
    else ("", 0)
  }

  predicate ApprovalParked(gates: Gates, approval: Option<Entry>) {
    && approval.Some? && approval.value.stmt.ParkApproval?
    && gates.approval == Some(approval.value.stmt.approval)
    && gates.approvalId == Some(approval.value.stmt.gateId)
    && gates.approvalDeadline == Some(approval.value.at + approval.value.stmt.wait)
  }

  predicate InputParked(gates: Gates, input: Option<Entry>) {
    && input.Some? && input.value.stmt.ParkInput?
    && gates.input == Some(input.value.stmt.input)
    && gates.inputId == Some(input.value.stmt.gateId)
    && gates.inputDeadline == Some(input.value.at + input.value.stmt.wait)
  }

  predicate GatesFrom(status: Status, gates: Gates, p: Past) {
    && (NeedsApprovalGate(status) ==> ApprovalParked(gates, p.approval))
    && (NeedsInputGate(status) ==> InputParked(gates, p.input))
    && (status in {Answered, InputTimedOut} ==>
          p.inputRuling.Some? && p.inputRuling.value.stmt.ResolveInput? == (status == Answered))
  }

  predicate RowFrom(row: Row, p: Past, op: string, timeout: int) {
    && row.status == StatusFrom(p.move)
    && row.leaseUntil == LeaseEnd(p.lease) && row.owner.Some? == row.leaseUntil.Some?
    && row.dispatchAt == DelayEnd(p.advance)
    && (row.operation, row.timeout) == Ordered(p.order, op, timeout)
    && row.abandonRequested == Flagged(p.flag)
    && GatesFrom(row.status, row.gates, p)
  }

  /** A session still holding the row it acquired remembers it as the past says. */
  predicate HolderFrom(c: Session, row: Row, p: Past, op: string, timeout: int) {
    c.phase.Holding? ==>
      && row.status in {c.job.status, Completed} && Acquirable(c.job.status)
      && (c.job.operation, c.job.timeout) == Ordered(p.order, op, timeout)
      && c.job.abandonRequested == p.cut
      && GatesFrom(c.job.status, c.job.gates, p)
  }

  // ----- what may happen next

  predicate MovedBy(move: Option<Entry>, kinds: set<Status>) { StatusFrom(move) in kinds }

  /** Nobody's, or a holder's whose lease ran out before this time. */
  predicate FreeAt(lease: Option<Entry>, at: int) { LeaseEnd(lease).None? || LeaseEnd(lease).value < at }

  /** The statement a resolved gate's branch asks for. */
  predicate Does(s: Statement, b: Branch) {
    match b
    case Launch(op, timeout) => s.Dispatch? && s.op == op && s.timeout == timeout
    case Finish => s.CompleteRun?
  }

  predicate TakesApprovalBranch(e: Entry, approval: Option<Entry>) {
    e.consumed.Some? ==>
      && approval.Some? && approval.value.stmt.ParkApproval?
      && var gate := approval.value.stmt.approval;
         Does(e.stmt, if e.consumed.value then gate.onReject else gate.onApprove)
  }

  predicate TakesInputBranch(e: Entry, input: Option<Entry>, ruling: Option<Entry>) {
    e.heard.Some? ==>
      && input.Some? && input.value.stmt.ParkInput?
      && ruling.Some? && ruling.value.stmt.ResolveInput? == e.heard.value
      && Does(e.stmt, if e.heard.value then input.value.stmt.input.onAnswer else input.value.stmt.input.onTimeout)
  }

  /** The times and statuses each outside statement and each acquisition waits for. */
  predicate Timely(p: Past, s: Statement, at: int) {
    match s
    case Acquire(_, _) =>
      && MovedBy(p.move, {Pending, AwaitingNext, Approved, Rejected, Answered, InputTimedOut})
      && FreeAt(p.lease, at)
      && (DelayEnd(p.advance).Some? ==> DelayEnd(p.advance).value <= at)
    case ResolveApproval(id, _) =>
      && MovedBy(p.move, {AwaitingApproval}) && p.approval.Some? && p.approval.value.stmt.ParkApproval?
      && p.approval.value.stmt.gateId == id
    case SweepApprovals =>
      && MovedBy(p.move, {AwaitingApproval}) && p.approval.Some? && p.approval.value.stmt.ParkApproval?
      && p.approval.value.at + p.approval.value.stmt.wait <= at
    case ResolveInput(id) =>
      && MovedBy(p.move, {AwaitingInput}) && p.input.Some? && p.input.value.stmt.ParkInput?
      && p.input.value.stmt.gateId == id
    case SweepInputs =>
      && MovedBy(p.move, {AwaitingInput}) && p.input.Some? && p.input.value.stmt.ParkInput?
      && p.input.value.at + p.input.value.stmt.wait <= at
    case MarkAbandon => !Flagged(p.flag) && !MovedBy(p.move, {Completed, Failed})
    case SweepAbandoned =>
      Flagged(p.flag) && !MovedBy(p.move, {Completed, Failed, Dispatched, Running}) && FreeAt(p.lease, at)
    case SweepOrphans(grace) => MovedBy(p.move, {Dispatched, Running}) && FreeAt(p.lease, at - grace)
    case Requeue(_) => MovedBy(p.move, {Failed})
    case Claim(_) => MovedBy(p.move, {Failed, TerminalFailed})
    case DeleteTerminal => MovedBy(p.move, {Completed, Failed, TerminalFailed})
    case _ => true
  }

  predicate Legal(p: Past, e: Entry, op: string, timeout: int) {
    && Timely(p, e.stmt, e.at)
    && TakesApprovalBranch(e, p.approval) && TakesInputBranch(e, p.input, p.inputRuling)
    && (e.stmt.Dispatch? ==> !p.cut)
    && (e.stmt.Dispatch? && e.consumed.None? && e.heard.None? ==>
          (e.stmt.op, e.stmt.timeout) == Ordered(p.order, op, timeout))
  }

  predicate LegalLog(log: History, op: string, timeout: int) {
    forall i :: 0 <= i < |log| ==> Legal(PastOf(log[..i]), log[i], op, timeout)
  }

  predicate OrderInv(w: World, op: string, timeout: int) {
    && LegalLog(w.log, op, timeout)
    && (w.row.Some? ==> RowFrom(w.row.value, PastOf(w.log), op, timeout))
    && (w.row.Some? && HolderIn(w.row.value, w.sessions).Some? ==>
          HolderFrom(HolderIn(w.row.value, w.sessions).value, w.row.value, PastOf(w.log), op, timeout))
  }

  // ----- one more entry

  lemma LegalGrows(log: History, e: Entry, op: string, timeout: int)
    requires LegalLog(log, op, timeout) && Legal(PastOf(log), e, op, timeout)
    ensures LegalLog(log + [e], op, timeout)
  {
    var log' := log + [e];
    assert forall i :: 0 <= i <= |log| ==> log'[..i] == log[..i];
    assert log[..|log|] == log;
  }

  lemma PerformedLegal(w: World, e: Entry, sessions': map<SessionId, Session>, op: string, timeout: int)
    requires OrderInv(w, op, timeout) && Hits(w, e.stmt) && Legal(PastOf(w.log), e.(at := w.now), op, timeout)
    requires !e.stmt.DeleteTerminal? ==>
               var row', p' := Apply(w.row.value, e.stmt, w.now), Passed(PastOf(w.log), e.(at := w.now));
               && RowFrom(row', p', op, timeout)
               && (HolderIn(row', sessions').Some? ==>
                     HolderFrom(HolderIn(row', sessions').value, row', p', op, timeout))
    ensures OrderInv(Perform(w, e).(sessions := sessions'), op, timeout)
  {
    LegalGrows(w.log, e.(at := w.now), op, timeout);
    PastGrows(w.log, e.(at := w.now));
  }

  // ----- outside statements and leases

  /** A row that is what its past says lets a statement through exactly when the time for it has come. */
  lemma MatchesExactly(row: Row, p: Past, s: Statement, now: int, op: string, timeout: int)
    requires RowFrom(row, p, op, timeout) && (IsOutside(s) || s.Acquire?)
    requires s.Requeue? || s.Claim? ==> row.attempts == s.expected
    ensures Matches(row, s, now) <==> Timely(p, s, now)
  {
  }

  lemma RulingRow(row: Row, p: Past, s: Statement, now: int, op: string, timeout: int)
    requires RowFrom(row, p, op, timeout) && (DecidesApproval(s) || DecidesInput(s)) && Matches(row, s, now)
    ensures RowFrom(Apply(row, s, now), Passed(p, Plain(s).(at := now)), op, timeout)
  {
    if DecidesApproval(s) {
      ApprovalRow(row, p, s, now, op, timeout);
    }
  }

  lemma ApprovalRow(row: Row, p: Past, s: Statement, now: int, op: string, timeout: int)
    requires RowFrom(row, p, op, timeout) && DecidesApproval(s) && Matches(row, s, now)
    ensures RowFrom(Apply(row, s, now), Passed(p, Plain(s).(at := now)), op, timeout)
  {
  }

  lemma SweepRow(row: Row, p: Past, s: Statement, now: int, op: string, timeout: int)
    requires RowFrom(row, p, op, timeout) && IsOutside(s) && Matches(row, s, now)
    requires !s.DeleteTerminal? && !DecidesApproval(s) && !DecidesInput(s)
    ensures RowFrom(Apply(row, s, now), Passed(p, Plain(s).(at := now)), op, timeout)
  {
    if s.MarkAbandon? || s.ClearAbandon? {
      FlaggedRow(row, p, s, now, op, timeout);
    }
  }

  lemma FlaggedRow(row: Row, p: Past, s: Statement, now: int, op: string, timeout: int)
    requires RowFrom(row, p, op, timeout) && (s.MarkAbandon? || s.ClearAbandon?)
    ensures RowFrom(Apply(row, s, now), Passed(p, Plain(s).(at := now)), op, timeout)
  {
  }

  lemma OutsideHolder(row: Row, p: Past, s: Statement, now: int, c: Session, op: string, timeout: int)
    requires RowFrom(row, p, op, timeout) && HolderFrom(c, row, p, op, timeout)
    requires IsOutside(s) && Matches(row, s, now) && !s.Requeue?
    ensures HolderFrom(c, Apply(row, s, now), Passed(p, Plain(s).(at := now)), op, timeout)
  {
  }

  lemma LeaseRow(row: Row, p: Past, s: Statement, now: int, op: string, timeout: int)
    requires RowFrom(row, p, op, timeout) && (s.Renew? || s.Release?) && Matches(row, s, now)
    ensures RowFrom(Apply(row, s, now), Passed(p, Plain(s).(at := now)), op, timeout)
  {
  }

  lemma OutsideKeeps(w: World, s: Statement, op: string, timeout: int)
    requires OrderInv(w, op, timeout) && IsOutside(s) && Hits(w, s)
    ensures OrderInv(Perform(w, Plain(s)), op, timeout)
  {
    var row, p := w.row.value, PastOf(w.log);
    MatchesExactly(row, p, s, w.now, op, timeout);
    OutsideIsLegal(p, s, w.now, op, timeout);
    if !s.DeleteTerminal? {
      OutsideRow(row, p, s, w.now, op, timeout);
      OwnerAfterOutside(row, s, w.now, w.sessions);
      if !s.Requeue? && HolderIn(row, w.sessions).Some? {
        OutsideHolder(row, p, s, w.now, HolderIn(row, w.sessions).value, op, timeout);
      }
    }
    PerformedLegal(w, Plain(s), w.sessions, op, timeout);
  }

  lemma OutsideIsLegal(p: Past, s: Statement, now: int, op: string, timeout: int)
    requires (IsOutside(s) || s.Acquire?) && Timely(p, s, now)
    ensures Legal(p, Plain(s).(at := now), op, timeout)
  {
  }

  lemma OutsideRow(row: Row, p: Past, s: Statement, now: int, op: string, timeout: int)
    requires RowFrom(row, p, op, timeout) && IsOutside(s) && Matches(row, s, now) && !s.DeleteTerminal?
    ensures RowFrom(Apply(row, s, now), Passed(p, Plain(s).(at := now)), op, timeout)
  {
    if DecidesApproval(s) || DecidesInput(s) {
      RulingRow(row, p, s, now, op, timeout);
    } else {
      SweepRow(row, p, s, now, op, timeout);
    }
  }

  lemma OwnerAfterOutside(row: Row, s: Statement, now: int, sessions: map<SessionId, Session>)
    requires IsOutside(s)
    ensures HolderIn(Apply(row, s, now), sessions) == if s.Requeue? then None else HolderIn(row, sessions)
  {
  }

  lemma LeaseKeeps(w: World, s: Statement, op: string, timeout: int)
    requires OrderInv(w, op, timeout) && (s.Renew? || s.Release?) && Hits(w, s)
    ensures OrderInv(Perform(w, Plain(s)), op, timeout)
  {
    LeaseRow(w.row.value, PastOf(w.log), s, w.now, op, timeout);
    PerformedLegal(w, Plain(s), w.sessions, op, timeout);
  }

  // ----- acquisitions

  lemma AcquiredRow(row: Row, p: Past, sid: SessionId, lease: int, now: int, op: string, timeout: int)
    requires RowFrom(row, p, op, timeout) && Matches(row, Acquire(sid, lease), now)
    ensures var row', p' := Apply(row, Acquire(sid, lease), now), Passed(p, Plain(Acquire(sid, lease)).(at := now));
            RowFrom(row', p', op, timeout) && HolderFrom(Session(Holding, row', map[]), row', p', op, timeout)
  {
  }

  lemma AcquisitionKeeps(w: World, sid: SessionId, lease: int, c': Session, op: string, timeout: int)
    requires OrderInv(w, op, timeout) && Hits(w, Acquire(sid, lease))
    requires !c'.phase.Holding? || c' == Session(Holding, Apply(w.row.value, Acquire(sid, lease), w.now), map[])
    ensures OrderInv(Put(Perform(w, Plain(Acquire(sid, lease))), sid, c'), op, timeout)
  {
    MatchesExactly(w.row.value, PastOf(w.log), Acquire(sid, lease), w.now, op, timeout);
    AcquiredRow(w.row.value, PastOf(w.log), sid, lease, w.now, op, timeout);
    PerformedLegal(w, Plain(Acquire(sid, lease)), w.sessions[sid := c'], op, timeout);
  }

  // ----- the holder writes

  lemma HoldingWrites(row: Row, p: Past, c: Session, sid: SessionId, now: int, op: string, timeout: int)
    requires RowFrom(row, p, op, timeout) && HolderFrom(c, row, p, op, timeout)
    requires c.phase.Holding? && NextStatement(c, sid).Some?
    ensures Legal(p, WriteEntry(c, NextStatement(c, sid).value).(at := now), op, timeout)
  {
    if c.job.abandonRequested || c.job.status in {Pending, AwaitingNext} {
      UngatedWrites(row, p, c, sid, now, op, timeout);
    }
  }

  lemma UngatedWrites(row: Row, p: Past, c: Session, sid: SessionId, now: int, op: string, timeout: int)
    requires HolderFrom(c, row, p, op, timeout) && c.phase.Holding? && NextStatement(c, sid).Some?
    requires c.job.abandonRequested || c.job.status in {Pending, AwaitingNext}
    ensures Legal(p, WriteEntry(c, NextStatement(c, sid).value).(at := now), op, timeout)
  {
  }

  lemma OtherWritesAreLegal(p: Past, c: Session, sid: SessionId, now: int, op: string, timeout: int)
    requires !c.phase.Holding? && NextStatement(c, sid).Some?
    ensures Legal(p, WriteEntry(c, NextStatement(c, sid).value).(at := now), op, timeout)
  {
  }

  /** Every statement a session issues keeps the row what its past says. */
  lemma WrittenRow(row: Row, p: Past, s: Statement, e: Entry, now: int, op: string, timeout: int)
    requires RowFrom(row, p, op, timeout) && (CarriesMetrics(s) || (s.SetStatus? && s.status in {Pending, Running}))
    requires e.stmt == s && e.at == now
    ensures RowFrom(Apply(row, s, now), Passed(p, e), op, timeout)
  {
    if s.Dispatch? || s.Advance? {
      OrderedRow(row, p, s, e, now, op, timeout);
    } else if s.ParkApproval? || s.ParkInput? {
      ParkedRow(row, p, s, e, now, op, timeout);
    }
  }

  lemma OrderedRow(row: Row, p: Past, s: Statement, e: Entry, now: int, op: string, timeout: int)
    requires RowFrom(row, p, op, timeout) && (s.Dispatch? || s.Advance?) && e.stmt == s && e.at == now
    ensures RowFrom(Apply(row, s, now), Passed(p, e), op, timeout)
  {
  }

  lemma ParkedRow(row: Row, p: Past, s: Statement, e: Entry, now: int, op: string, timeout: int)
    requires RowFrom(row, p, op, timeout) && (s.ParkApproval? || s.ParkInput?) && e.stmt == s && e.at == now
    ensures RowFrom(Apply(row, s, now), Passed(p, e), op, timeout)
  {
  }

  lemma SessionIssues(c: Session, sid: SessionId)
    requires NextStatement(c, sid).Some?
    ensures var s := NextStatement(c, sid).value;
            s.sid == sid && (CarriesMetrics(s) || (s.SetStatus? && s.status in {Pending, Running}))
    ensures forall r :: !After(c, r).phase.Holding?
  {
  }

  lemma WritesAreLegal(row: Row, p: Past, c: Session, sid: SessionId, now: int, op: string, timeout: int)
    requires RowFrom(row, p, op, timeout) && HolderFrom(c, row, p, op, timeout) && NextStatement(c, sid).Some?
    ensures Legal(p, WriteEntry(c, NextStatement(c, sid).value).(at := now), op, timeout)
  {
    if c.phase.Holding? {
      HoldingWrites(row, p, c, sid, now, op, timeout);
    } else {
      OtherWritesAreLegal(p, c, sid, now, op, timeout);
    }
  }

  lemma OwnerIsTheSession(w: World, sid: SessionId)
    requires w.row.Some? && NextStatement(SessionOf(w, sid), sid).Some?
    requires Hits(w, NextStatement(SessionOf(w, sid), sid).value)
    ensures w.row.value.owner == Some(sid) && HolderIn(w.row.value, w.sessions) == Some(SessionOf(w, sid))
  {
    SessionIssues(SessionOf(w, sid), sid);
  }

  lemma HitKeepsOrders(w: World, sid: SessionId, r: Reply, op: string, timeout: int)
    requires OrderInv(w, op, timeout) && NextStatement(SessionOf(w, sid), sid).Some?
    requires Hits(w, NextStatement(SessionOf(w, sid), sid).value)
    ensures var c := SessionOf(w, sid);
            OrderInv(Put(Perform(w, WriteEntry(c, NextStatement(c, sid).value)), sid, After(c, r)), op, timeout)
  {
    var c, row, p := SessionOf(w, sid), w.row.value, PastOf(w.log);
    var s := NextStatement(c, sid).value;
    SessionIssues(c, sid);
    OwnerIsTheSession(w, sid);
    WritesAreLegal(row, p, c, sid, w.now, op, timeout);
    WrittenRow(row, p, s, WriteEntry(c, s).(at := w.now), w.now, op, timeout);
    PerformedLegal(w, WriteEntry(c, s), w.sessions[sid := After(c, r)], op, timeout);
  }

  // ----- every step

  lemma MoveKeepsOrders(w: World, sid: SessionId, c': Session, op: string, timeout: int)
    requires OrderInv(w, op, timeout) && (c' == SessionOf(w, sid) || !c'.phase.Holding?)
    ensures OrderInv(Put(w, sid, c'), op, timeout)
  {
  }

  lemma WriteKeepsOrders(w: World, sid: SessionId, fate: Fate, op: string, timeout: int)
    requires OrderInv(w, op, timeout)
    ensures OrderInv(Exec(w, Write(sid, fate)), op, timeout)
  {
    var c := SessionOf(w, sid);
    var next := NextStatement(c, sid);
    if next.Some? {
      var r := ReplyTo(w, next.value, fate);
      if fate != Dropped && Hits(w, next.value) {
        HitKeepsOrders(w, sid, r, op, timeout);
      } else {
        SessionIssues(c, sid);
        MoveKeepsOrders(w, sid, After(c, r), op, timeout);
      }
    }
  }

  lemma AcquireKeepsOrders(w: World, sid: SessionId, lease: int, fate: Fate, op: string, timeout: int)
    requires OrderInv(w, op, timeout)
    ensures OrderInv(Exec(w, TryAcquire(sid, lease, fate)), op, timeout)
  {
    var c := SessionOf(w, sid);
    if c.phase.Idle? && fate != Dropped && Hits(w, Acquire(sid, lease)) {
      if fate == Replied {
        var job := Apply(w.row.value, Acquire(sid, lease), w.now);
        AcquisitionKeeps(w, sid, lease, Session(Holding, job, map[]), op, timeout);
      } else {
        UnheardKeepsOrders(w, sid, lease, op, timeout);
      }
    }
  }

  lemma UnheardKeepsOrders(w: World, sid: SessionId, lease: int, op: string, timeout: int)
    requires OrderInv(w, op, timeout) && Hits(w, Acquire(sid, lease)) && SessionOf(w, sid).phase.Idle?
    ensures OrderInv(Perform(w, Plain(Acquire(sid, lease))), op, timeout)
  {
    MatchesExactly(w.row.value, PastOf(w.log), Acquire(sid, lease), w.now, op, timeout);
    AcquiredRow(w.row.value, PastOf(w.log), sid, lease, w.now, op, timeout);
    PerformedLegal(w, Plain(Acquire(sid, lease)), w.sessions, op, timeout);
  }

  lemma StepKeepsOrders(w: World, step: Step, op: string, timeout: int)
    requires OrderInv(w, op, timeout)
    ensures OrderInv(Exec(w, step), op, timeout)
  {
    match step
    case Tick(_) =>
    case TryAcquire(sid, lease, fate) => AcquireKeepsOrders(w, sid, lease, fate, op, timeout);
    case Write(sid, fate) => WriteKeepsOrders(w, sid, fate, op, timeout);
    case Notice(sid, event) =>
      ObserveRetires(SessionOf(w, sid), event);
      MoveKeepsOrders(w, sid, Observe(SessionOf(w, sid), event), op, timeout);
    case SkipJob(sid) =>
      if SessionOf(w, sid).phase.Holding? { MoveKeepsOrders(w, sid, To(SessionOf(w, sid), Idle), op, timeout); }
    case Die(sid) => MoveKeepsOrders(w, sid, To(SessionOf(w, sid), Ended), op, timeout);
    case KeepLease(sid, lease) => if Hits(w, Renew(sid, lease)) { LeaseKeeps(w, Renew(sid, lease), op, timeout); }
    case DropLease(sid) => if Hits(w, Release(sid)) { LeaseKeeps(w, Release(sid), op, timeout); }
    case Outside(s) => if IsOutside(s) && Hits(w, s) { OutsideKeeps(w, s, op, timeout); }
  }

  lemma {:induction false} RunKeepsOrders(op: OpName, timeout: int, now: int, steps: seq<Step>)
    ensures OrderInv(ExecAll(Start(op, timeout, now), steps), op, timeout)
    decreases |steps|
  {
    if steps != [] {
      RunKeepsOrders(op, timeout, now, steps[..|steps| - 1]);
      StepKeepsOrders(ExecAll(Start(op, timeout, now), steps[..|steps| - 1]), steps[|steps| - 1], op, timeout);
    }
  }

  // ----- what every run shows

  function RowRun(op: OpName, timeout: int, now: int, steps: seq<Step>): World {
    ExecAll(Start(op, timeout, now), steps)
  }

  /** Every statement that matched was due, legal after what had matched before, and carried what that called for. */
  lemma RowLifeIsLegal(op: OpName, timeout: int, now: int, steps: seq<Step>, i: nat)
    requires i < |RowRun(op, timeout, now, steps).log|
    ensures var log := RowRun(op, timeout, now, steps).log; Legal(PastOf(log[..i]), log[i], op, timeout)
  {
    RunKeepsOrders(op, timeout, now, steps);
  }

  /** And an outside statement matches exactly when it is due. */
  lemma OutsideActsExactly(op: OpName, timeout: int, now: int, steps: seq<Step>, s: Statement)
    requires var w := RowRun(op, timeout, now, steps); w.row.Some? && IsOutside(s)
    ensures var w := RowRun(op, timeout, now, steps);
            |Exec(w, Outside(s)).log| > |w.log|
            <==> Timely(PastOf(w.log), s, w.now) && (s.Requeue? || s.Claim? ==> s.expected == RequeuesIn(w.log))
  {
    var w := RowRun(op, timeout, now, steps);
    RunKeepsOrders(op, timeout, now, steps);
    AttemptsAreRequeues(op, timeout, now, steps);
    RecordsExactly(w, s);
    if s.Requeue? || s.Claim? ==> s.expected == w.row.value.attempts {
      MatchesExactly(w.row.value, PastOf(w.log), s, w.now, op, timeout);
    }
  }

  lemma AttemptsAreRequeues(op: OpName, timeout: int, now: int, steps: seq<Step>)
    requires RowRun(op, timeout, now, steps).row.Some?
    ensures RowRun(op, timeout, now, steps).row.value.attempts == RequeuesIn(RowRun(op, timeout, now, steps).log)
  {
    StartOk(op, timeout, now);
    RunKeeps(Start(op, timeout, now), steps);
  }

  lemma RecordsExactly(w: World, s: Statement)
    requires IsOutside(s)
    ensures |Exec(w, Outside(s)).log| > |w.log| <==> Hits(w, s)
  {
  }

  /** An idle session gets the row exactly when it is runnable, free, and past its delay. */
  lemma AcquiresExactly(op: OpName, timeout: int, now: int, steps: seq<Step>, sid: SessionId, lease: int)
    requires var w := RowRun(op, timeout, now, steps); w.row.Some? && SessionOf(w, sid).phase.Idle?
    ensures var w := RowRun(op, timeout, now, steps);
            var p := PastOf(w.log);
            SessionOf(Exec(w, TryAcquire(sid, lease, Replied)), sid).phase.Holding?
            <==> && StatusFrom(p.move) in {Pending, AwaitingNext, Approved, Rejected, Answered, InputTimedOut}
                 && FreeAt(p.lease, w.now)
                 && (DelayEnd(p.advance).Some? ==> DelayEnd(p.advance).value <= w.now)
  {
    RunKeepsOrders(op, timeout, now, steps);
    var w := RowRun(op, timeout, now, steps);
    MatchesExactly(w.row.value, PastOf(w.log), Acquire(sid, lease), w.now, op, timeout);
  }

  /** A consumed approval takes the branch its latest parking set for that outcome, and no other. */
  lemma ApprovalTakesItsBranch(op: OpName, timeout: int, now: int, steps: seq<Step>, i: nat) returns (j: nat)
    requires var log := RowRun(op, timeout, now, steps).log; i < |log| && log[i].consumed.Some?
    ensures var log := RowRun(op, timeout, now, steps).log;
            && j < i && log[j].stmt.ParkApproval? && (forall k :: j < k < i ==> !log[k].stmt.ParkApproval?)
            && var gate := log[j].stmt.approval;
               Does(log[i].stmt, if log[i].consumed.value then gate.onReject else gate.onApprove)
  {
    RowLifeIsLegal(op, timeout, now, steps, i);
    var log := RowRun(op, timeout, now, steps).log;
    j := LatestIndex(log, i, ApprovalGates);
  }

  /** A consumed input takes onAnswer after an answer and onTimeout after a timeout, of its latest parking. */
  lemma InputTakesItsBranch(op: OpName, timeout: int, now: int, steps: seq<Step>, i: nat) returns (j: nat, r: nat)
    requires var log := RowRun(op, timeout, now, steps).log; i < |log| && log[i].heard.Some?
    ensures var log := RowRun(op, timeout, now, steps).log;
            && j < i && log[j].stmt.ParkInput? && (forall k :: j < k < i ==> !log[k].stmt.ParkInput?)
            && r < i && DecidesInput(log[r].stmt) && (forall k :: r < k < i ==> !DecidesInput(log[k].stmt))
            && log[i].heard == Some(log[r].stmt.ResolveInput?)
            && var gate := log[j].stmt.input;
               Does(log[i].stmt, if log[r].stmt.ResolveInput? then gate.onAnswer else gate.onTimeout)
  {
    RowLifeIsLegal(op, timeout, now, steps, i);
    var log := RowRun(op, timeout, now, steps).log;
    j := LatestIndex(log, i, InputGates);
    r := LatestIndex(log, i, InputRulings);
  }

  /** A delayed operation is not acquired before its delay is over. */
  lemma DelayIsKept(op: OpName, timeout: int, now: int, steps: seq<Step>, j: nat, i: nat)
    requires var log := RowRun(op, timeout, now, steps).log;
             && j < i < |log| && log[j].stmt.Advance? && log[j].stmt.delay > 0 && log[i].stmt.Acquire?
             && forall k :: j < k < i ==> !log[k].stmt.Advance?
    ensures var log := RowRun(op, timeout, now, steps).log; log[i].at >= log[j].at + log[j].stmt.delay
  {
    RowLifeIsLegal(op, timeout, now, steps, i);
    IndexIsLatest(RowRun(op, timeout, now, steps).log, i, Advances, j);
  }

  /** Nobody acquires the row, and no sweep fails or completes it, while a lease on it stands. */
  lemma LeasesAreKept(op: OpName, timeout: int, now: int, steps: seq<Step>, j: nat, i: nat)
    requires var log := RowRun(op, timeout, now, steps).log;
             && j < i < |log| && (log[j].stmt.Acquire? || log[j].stmt.Renew?)
             && (log[i].stmt.Acquire? || log[i].stmt.SweepAbandoned? || log[i].stmt.SweepOrphans?)
             && forall k :: j < k < i ==> !Of(Leases, log[k].stmt)
    ensures var log := RowRun(op, timeout, now, steps).log;
            log[i].at > log[j].at + log[j].stmt.lease + if log[i].stmt.SweepOrphans? then log[i].stmt.grace else 0
  {
    RowLifeIsLegal(op, timeout, now, steps, i);
    IndexIsLatest(RowRun(op, timeout, now, steps).log, i, Leases, j);
  }
}

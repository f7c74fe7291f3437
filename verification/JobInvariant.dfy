/**
  The inductive invariant of the job protocol, and its preservation by every step.
*/
module JobInvariant {
  import opened Options
  import opened AgentMetrics
  import opened JobRow
  import opened WorkerSession
  import opened JobProtocol
  import opened JobHistory

  // ----- the invariant

  /** A row in this status names the operation to run. */
  predicate NeedsOperation(s: Status) {
    s in {Pending, AwaitingNext, Dispatched, Running, Failed}
  }

  predicate NeedsApprovalGate(s: Status) {
    s in {AwaitingApproval, Approved, Rejected}
  }

  predicate NeedsInputGate(s: Status) {
    s in {AwaitingInput, Answered, InputTimedOut}
  }

  /** The row says what to run next, in every status from which it can be run again. */
  predicate Describes(row: Row) {
    && (NeedsOperation(row.status) ==> row.operation != "")
    && (NeedsApprovalGate(row.status) ==> row.gates.approval.Some?)
    && (NeedsInputGate(row.status) ==> row.gates.input.Some?)
  }

  /** All the invariant needs to know of a history. */
  datatype Digest = Digest(
    acquirer: Option<SessionId>,
    acquired: bool,
    base: JobMetrics,    // all acquisitions but the last
    total: JobMetrics,   // all acquisitions
    counters: RunCounters,
    requeues: nat,
    mayLaunch: bool,
    mayApprove: bool,
    mayAnswer: bool,
    mayConsume: bool,
    verdict: Option<bool>)

  function AllButLast(reports: seq<Snapshot>): seq<Snapshot> {
    if reports == [] then [] else reports[..|reports| - 1]
  }

  function DigestOf(log: History): Digest {
    Digest(
      LastAcquirer(log), Ledger(log) != [], Folded(AllButLast(Ledger(log))), Folded(Ledger(log)),
      CountersIn(log), RequeuesIn(log),
      Covered(Launches, log), Covered(ApprovalDecisions, log), Covered(InputDecisions, log), Covered(Consumptions, log),
      LastVerdict(log))
  }

  /** The row's accumulated columns are what the history adds up to. */
  predicate Tracks(row: Row, d: Digest) {
    && row.agents == d.total
    && row.counters == d.counters
    && row.attempts == d.requeues <= MAX_JOB_ATTEMPTS
    && (row.owner.Some? ==> d.acquirer == row.owner)
  }

  /** The memory of the session the owner column names. */
  predicate HolderRemembers(row: Row, c: Session, d: Digest) {
    Engaged(c.phase) ==>
      && d.acquired
      && c.job.agents == d.base
      && c.job.counters == row.counters
      && (Launched(c.phase) ==> row.operation != "")
  }

  /** Where the row, or its holder, could make a use, a grant covers it. */
  predicate Entitled(row: Row, holder: Option<Session>, d: Digest) {
    && (Acquirable(row.status) || (holder.Some? && holder.value.phase.Holding?) ==> d.mayLaunch)
    && (row.status == AwaitingApproval ==> d.mayApprove)
    && (row.status == AwaitingInput ==> d.mayAnswer)
    && (row.status in {Approved, Rejected} || (holder.Some? && GateAtHand(holder.value).Some?) ==> d.mayConsume)
    && (row.status in {Approved, Rejected} ==> d.verdict == Some(row.status == Rejected))
    && (holder.Some? && GateAtHand(holder.value).Some? ==> d.verdict == GateAtHand(holder.value))
    && (holder.Some? && holder.value.phase.Holding? ==> row.status != AwaitingApproval)
  }

  function HolderIn(row: Row, sessions: map<SessionId, Session>): Option<Session> {
    if row.owner.None? then None
    else if row.owner.value in sessions then Some(sessions[row.owner.value])
    else Some(Fresh())
  }

  predicate RowOk(row: Row, holder: Option<Session>, d: Digest) {
    && Describes(row)
    && Tracks(row, d)
    && (holder.Some? ==> HolderRemembers(row, holder.value, d))
    && Entitled(row, holder, d)
  }

  /** A failure is acted on by callers naming the number of requeues before it. */
  predicate Arbitrated(log: History) {
    forall i :: 0 <= i < |log| && (log[i].stmt.Requeue? || log[i].stmt.Claim?)
        ==> log[i].stmt.expected == RequeuesIn(log[..i])
  }

  predicate LogOk(log: History) {
    && Fenced(log)
    && Spaced(Launches, log) && Spaced(ApprovalDecisions, log) && Spaced(InputDecisions, log)
    && Spaced(Consumptions, log)
    && Arbitrated(log)
    && FollowsVerdicts(log)
  }

  /** No session, owner or not, can dereference a missing gate. */
  predicate Resumable(c: Session) {
    c.phase.Holding? ==> Describes(c.job)
  }

  predicate Inv(w: World) {
    && LogOk(w.log)
    && (forall sid :: sid in w.sessions ==> Resumable(w.sessions[sid]))
    && (w.row.Some? ==> RowOk(w.row.value, HolderIn(w.row.value, w.sessions), DigestOf(w.log)))
  }

  // ----- one more entry

  function Toggle(m: Mark, before: bool): bool {
    match m case Use => false case Grant => true case Neither => before
  }

  /** The digest after one more entry. */
  function Digested(d: Digest, e: Entry): Digest {
    Digest(
      if e.stmt.Acquire? then Some(e.stmt.sid) else d.acquirer,
      e.stmt.Acquire? || d.acquired,
      if e.stmt.Acquire? then d.total else d.base,
      if CarriesMetrics(e.stmt) && d.acquired then Merge(d.base, e.report) else d.total,
      RunCounters(
        d.counters.failures + e.failures,
        if e.consumed.None? then d.counters.rejections
        else Some(IntValue(d.counters.rejections) + if e.consumed.value then 1 else 0)),
      d.requeues + if e.stmt.Requeue? then 1 else 0,
      Toggle(MarkOf(Launches, e), d.mayLaunch),
      Toggle(MarkOf(ApprovalDecisions, e), d.mayApprove),
      Toggle(MarkOf(InputDecisions, e), d.mayAnswer),
      Toggle(MarkOf(Consumptions, e), d.mayConsume),
      if DecidesApproval(e.stmt) then Some(Rejects(e.stmt)) else d.verdict)
  }

  lemma DigestAppended(log: History, e: Entry)
    ensures DigestOf(log + [e]) == Digested(DigestOf(log), e)
  {
    var log' := log + [e];
    assert Earlier(log') == log && Newest(log') == e;
    CountersAppended(log, e);
    LedgerAppended(log, e);
  }

  lemma LedgerAppended(log: History, e: Entry)
    ensures var l, l' := Ledger(log), Ledger(log + [e]);
            && (l' != [] <==> e.stmt.Acquire? || l != [])
            && Folded(AllButLast(l')) == (if e.stmt.Acquire? then Folded(l) else Folded(AllButLast(l)))
            && Folded(l') == (if CarriesMetrics(e.stmt) && l != []
                             then Merge(Folded(AllButLast(l)), e.report) else Folded(l))
  {
    assert Earlier(log + [e]) == log && Newest(log + [e]) == e;
    var l := Ledger(log);
    if e.stmt.Acquire? {
      FoldedOpened(l);
    } else if CarriesMetrics(e.stmt) && l != [] {
      FoldedRewritten(l, e.report);
    }
  }

  /** A new acquisition starts from the whole and has added nothing. */
  lemma FoldedOpened(l: seq<Snapshot>)
    ensures AllButLast(l + [map[]]) == l && Folded(l + [map[]]) == Folded(l)
  {
    assert AllButLast(l + [map[]]) == l;
    MergeNothing(Folded(l));
  }

  /** A write replaces what its own acquisition had reported, and nothing else. */
  lemma FoldedRewritten(l: seq<Snapshot>, report: Snapshot)
    requires l != []
    ensures var l' := l[..|l| - 1] + [report];
            AllButLast(l') == AllButLast(l) && Folded(l') == Merge(Folded(AllButLast(l)), report)
  {
    var l' := l[..|l| - 1] + [report];
    assert AllButLast(l') == AllButLast(l);
  }

  lemma CountersAppended(log: History, e: Entry)
    ensures CountersIn(log + [e]) == Digested(DigestOf(log), e).counters
  {
    var log' := log + [e];
    assert Earlier(log') == log && Newest(log') == e;
    if AnyConsumed(log) {
      var i :| 0 <= i < |log| && log[i].consumed.Some?;
      assert log'[i].consumed.Some?;
    } else {
      NothingConsumed(log);
      if e.consumed.Some? {
        assert log'[|log|].consumed.Some?;
      }
    }
  }

  lemma {:induction false} NothingConsumed(log: History)
    requires !AnyConsumed(log)
    ensures RejectionsIn(log) == 0
    decreases |log|
  {
    if log != [] {
      assert Newest(log) == log[|log| - 1];
      assert forall i :: 0 <= i < |log| - 1 ==> Earlier(log)[i] == log[i];
      NothingConsumed(Earlier(log));
    }
  }

  predicate MayAppend(d: Digest, e: Entry) {
    && (OwnerGuarded(e.stmt) ==> d.acquirer == Some(e.stmt.sid))
    && (MarkOf(Launches, e) == Use ==> d.mayLaunch)
    && (MarkOf(ApprovalDecisions, e) == Use ==> d.mayApprove)
    && (MarkOf(InputDecisions, e) == Use ==> d.mayAnswer)
    && (MarkOf(Consumptions, e) == Use ==> d.mayConsume)
    && (e.stmt.Requeue? || e.stmt.Claim? ==> e.stmt.expected == d.requeues)
    && (e.consumed.Some? ==> d.verdict == e.consumed)
  }

  lemma LogAppended(log: History, e: Entry)
    requires LogOk(log) && MayAppend(DigestOf(log), e)
    ensures LogOk(log + [e])
  {
    var log' := log + [e];
    assert forall i :: 0 <= i <= |log| ==> log'[..i] == log[..i];
    assert log[..|log|] == log;
  }

  // ----- statements issued outside the sessions

  /**
    What RowOk asks of an outside statement: it leaves the holder, its memory and the totals alone, or
    drops the holder.
  */
  lemma OutsideOk(row: Row, s: Statement, now: int, sessions: map<SessionId, Session>, d: Digest)
    requires RowOk(row, HolderIn(row, sessions), d) && IsOutside(s) && Matches(row, s, now)
    ensures MayAppend(d, Plain(s))
    ensures var row' := Apply(row, s, now); RowOk(row', HolderIn(row', sessions), Digested(d, Plain(s)))
  {
    var row' := Apply(row, s, now);
    if DecidesApproval(s) {
      ApprovalOk(row, s, now, HolderIn(row, sessions), d);
    } else if DecidesInput(s) {
      AnswerOk(row, s, now, HolderIn(row, sessions), d);
    } else if s.MarkAbandon? || s.ClearAbandon? {
      AbandonOk(row, s, now, HolderIn(row, sessions), d);
    } else if s.Requeue? {
      RequeueOk(row, s, now, HolderIn(row, sessions), d);
    } else if s.Claim? || s.DeleteTerminal? {
      ClaimOk(row, s, now, HolderIn(row, sessions), d);
    } else {
      SweepOk(row, s, now, HolderIn(row, sessions), d);
    }
  }

  lemma ApprovalOk(row: Row, s: Statement, now: int, holder: Option<Session>, d: Digest)
    requires RowOk(row, holder, d) && DecidesApproval(s) && Matches(row, s, now)
    ensures MayAppend(d, Plain(s)) && RowOk(Apply(row, s, now), holder, Digested(d, Plain(s)))
  {
  }

  lemma AnswerOk(row: Row, s: Statement, now: int, holder: Option<Session>, d: Digest)
    requires RowOk(row, holder, d) && DecidesInput(s) && Matches(row, s, now)
    ensures MayAppend(d, Plain(s)) && RowOk(Apply(row, s, now), holder, Digested(d, Plain(s)))
  {
  }

  lemma AbandonOk(row: Row, s: Statement, now: int, holder: Option<Session>, d: Digest)
    requires RowOk(row, holder, d) && Matches(row, s, now) && (s.MarkAbandon? || s.ClearAbandon?)
    ensures MayAppend(d, Plain(s)) && RowOk(Apply(row, s, now), holder, Digested(d, Plain(s)))
  {
  }

  lemma RequeueOk(row: Row, s: Statement, now: int, holder: Option<Session>, d: Digest)
    requires RowOk(row, holder, d) && IsOutside(s) && s.Requeue? && Matches(row, s, now)
    ensures MayAppend(d, Plain(s)) && RowOk(Apply(row, s, now), None, Digested(d, Plain(s)))
  {
  }

  lemma SweepOk(row: Row, s: Statement, now: int, holder: Option<Session>, d: Digest)
    requires RowOk(row, holder, d) && Matches(row, s, now)
    requires s.SweepAbandoned? || s.SweepOrphans?
    ensures MayAppend(d, Plain(s)) && RowOk(Apply(row, s, now), holder, Digested(d, Plain(s)))
  {
  }

  lemma ClaimOk(row: Row, s: Statement, now: int, holder: Option<Session>, d: Digest)
    requires RowOk(row, holder, d) && Matches(row, s, now) && (s.Claim? || s.DeleteTerminal?)
    ensures MayAppend(d, Plain(s)) && RowOk(Apply(row, s, now), holder, Digested(d, Plain(s)))
  {
  }

  lemma LeaseOk(row: Row, s: Statement, now: int, sessions: map<SessionId, Session>, d: Digest)
    requires RowOk(row, HolderIn(row, sessions), d) && (s.Renew? || s.Release?) && Matches(row, s, now)
    ensures MayAppend(d, Plain(s))
    ensures var row' := Apply(row, s, now); RowOk(row', HolderIn(row', sessions), Digested(d, Plain(s)))
  {
  }

  // ----- a session acquires the row

  lemma AcquireOk(row: Row, sid: SessionId, lease: int, now: int, sessions: map<SessionId, Session>, d: Digest)
    requires RowOk(row, HolderIn(row, sessions), d) && Matches(row, Acquire(sid, lease), now)
    ensures var row' := Apply(row, Acquire(sid, lease), now);
            && RowOk(row', Some(Session(Holding, row', map[])), Digested(d, Plain(Acquire(sid, lease))))
            && Resumable(Session(Holding, row', map[]))
    ensures MayAppend(d, Plain(Acquire(sid, lease)))
  {
  }

  /** The acquisition took effect but the session never heard of it. */
  lemma AcquireUnheardOk(row: Row, sid: SessionId, lease: int, now: int, holder: Option<Session>, c: Session, d: Digest)
    requires RowOk(row, holder, d)
    requires Matches(row, Acquire(sid, lease), now) && c.phase.Idle?
    ensures RowOk(Apply(row, Acquire(sid, lease), now), Some(c), Digested(d, Plain(Acquire(sid, lease))))
    ensures MayAppend(d, Plain(Acquire(sid, lease)))
  {
  }

  // ----- the holder writes

  lemma LaunchOk(row: Row, c: Session, sid: SessionId, r: Reply, now: int, d: Digest)
    requires RowOk(row, Some(c), d) && row.owner == Some(sid) && c.phase.Holding? && Describes(c.job) && !r.Miss?
    requires Resume(c.job).Launching?
    ensures var s := NextStatement(c, sid).value; var e := WriteEntry(c, s);
            MayAppend(d, e) && RowOk(Apply(row, s, now), Some(After(c, r)), Digested(d, e))
  {
    var job := Resume(c.job).job;
    ResumeCounts(c);
    assert job.operation != "";
  }

  lemma FinishOk(row: Row, c: Session, sid: SessionId, r: Reply, now: int, d: Digest)
    requires RowOk(row, Some(c), d) && row.owner == Some(sid) && c.phase.Holding?
    requires Resume(c.job).Finishing?
    ensures var s := NextStatement(c, sid).value; var e := WriteEntry(c, s);
            MayAppend(d, e) && RowOk(Apply(row, s, now), Some(After(c, r)), Digested(d, e))
  {
    ResumeCounts(c);
  }

  /** Resuming touches the counters only to record the gate at hand, and never the agent totals. */
  lemma ResumeCounts(c: Session)
    requires c.phase.Holding? && (Resume(c.job).Launching? || Resume(c.job).Finishing?)
    ensures Resume(c.job).job.agents == c.job.agents
    ensures Resume(c.job).job.counters ==
            (if GateAtHand(c).None? then c.job.counters else RecordGateOutcome(c.job, GateAtHand(c).value).counters)
  {
  }

  /** What a settling statement leaves on the row. */
  lemma SettledRow(row: Row, c: Session, sid: SessionId, how: Settlement, failures: int, now: int)
    requires row.operation != ""
    ensures var s := SettleStatement(c, sid, how, failures); var row' := Apply(row, s, now);
            && CarriesMetrics(s) && s.sid == sid && !s.Dispatch?
            && row'.agents == MetricsToWrite(c) && row'.counters == CountersToWrite(c, failures)
            && row'.owner == row.owner && row'.attempts == row.attempts
            && Describes(row')
            && row'.status == (match how
                               case Failing => Failed
                               case Completing => Completed
                               case Advancing(_, _, _) => AwaitingNext
                               case ParkingApproval(_, _, _) => AwaitingApproval
                               case ParkingInput(_, _, _) => AwaitingInput)
            && (how.Advancing? ==> s.Advance?) && (how.ParkingApproval? ==> s.ParkApproval?)
            && (how.ParkingInput? ==> s.ParkInput?)
  {
  }

  lemma SettleOk(row: Row, c: Session, sid: SessionId, r: Reply, now: int, d: Digest)
    requires RowOk(row, Some(c), d) && row.owner == Some(sid) && c.phase.Settling?
    ensures var s := NextStatement(c, sid).value; var e := WriteEntry(c, s);
            MayAppend(d, e) && RowOk(Apply(row, s, now), Some(After(c, r)), Digested(d, e))
  {
    SettledRow(row, c, sid, c.phase.how, c.phase.failures, now);
    var s := SettleStatement(c, sid, c.phase.how, c.phase.failures);
    SettledFits(row, Apply(row, s, now), c, s, After(c, r), d);
  }

  lemma SettledFits(row: Row, row': Row, c: Session, s: Statement, c': Session, d: Digest)
    requires CarriesMetrics(s) && !s.Dispatch?
    requires RowOk(row, Some(c), d) && row.owner == row'.owner == Some(s.sid) && c.phase.Settling? && !Engaged(c'.phase)
    requires Describes(row') && row'.attempts == row.attempts
    requires row'.agents == MetricsToWrite(c) && row'.counters == CountersToWrite(c, c.phase.failures)
    requires row'.status in {Failed, Completed, AwaitingNext, AwaitingApproval, AwaitingInput}
    requires (row'.status == AwaitingNext ==> s.Advance?) && (row'.status == AwaitingApproval ==> s.ParkApproval?)
             && (row'.status == AwaitingInput ==> s.ParkInput?)
    ensures var e := WriteEntry(c, s); MayAppend(d, e) && RowOk(row', Some(c'), Digested(d, e))
  {
  }

  lemma OtherWriteOk(row: Row, c: Session, sid: SessionId, r: Reply, now: int, d: Digest)
    requires RowOk(row, Some(c), d) && row.owner == Some(sid)
             && (c.phase.Resetting? || c.phase.Acking? || c.phase.Reporting?)
    ensures var s := NextStatement(c, sid).value; var e := WriteEntry(c, s);
            MayAppend(d, e) && RowOk(Apply(row, s, now), Some(After(c, r)), Digested(d, e))
  {
  }

  lemma WriteOk(row: Row, c: Session, sid: SessionId, r: Reply, now: int, d: Digest)
    requires RowOk(row, Some(c), d) && Resumable(c) && !r.Miss?
    requires NextStatement(c, sid).Some? && Matches(row, NextStatement(c, sid).value, now)
    ensures row.owner == Some(sid)
    ensures var s := NextStatement(c, sid).value; var e := WriteEntry(c, s);
            MayAppend(d, e) && RowOk(Apply(row, s, now), Some(After(c, r)), Digested(d, e))
  {
    if c.phase.Holding? {
      if Resume(c.job).Launching? {
        LaunchOk(row, c, sid, r, now, d);
      } else {
        FinishOk(row, c, sid, r, now, d);
      }
    } else if c.phase.Settling? {
      SettleOk(row, c, sid, r, now, d);
    } else {
      OtherWriteOk(row, c, sid, r, now, d);
    }
  }

  // ----- local moves

  /** A local move keeps the memory of the job and never begins or resumes one. */
  predicate Retires(c: Session, c': Session) {
    c' == c || (c'.job == c.job && !c'.phase.Holding? && (Engaged(c'.phase) ==> Launched(c.phase)))
  }

  lemma ObserveRetires(c: Session, e: Event)
    ensures Retires(c, Observe(c, e))
  {
  }

  lemma MissRetires(c: Session, r: Reply)
    requires !r.Hit?
    ensures Retires(c, After(c, r))
  {
  }

  lemma RetiringOk(row: Row, c: Session, c': Session, d: Digest)
    requires RowOk(row, Some(c), d) && Retires(c, c')
    ensures RowOk(row, Some(c'), d)
  {
  }

  // ----- every step

  /** Appending one performed statement, given that row and history agree on it. */
  lemma PerformedOk(w: World, e: Entry, sessions': map<SessionId, Session>)
    requires Inv(w) && Hits(w, e.stmt) && MayAppend(DigestOf(w.log), e)
    requires forall sid :: sid in sessions' ==> Resumable(sessions'[sid])
    requires !e.stmt.DeleteTerminal? ==>
      var row' := Apply(w.row.value, e.stmt, w.now);
          RowOk(row', HolderIn(row', sessions'), Digested(DigestOf(w.log), e))
    ensures Inv(Perform(w, e).(sessions := sessions'))
  {
    StampingIsAside(DigestOf(w.log), e, w.now);
    LogAppended(w.log, e.(at := w.now));
    DigestAppended(w.log, e.(at := w.now));
  }

  lemma StampingIsAside(d: Digest, e: Entry, now: int)
    ensures MayAppend(d, e.(at := now)) == MayAppend(d, e) && Digested(d, e.(at := now)) == Digested(d, e)
  {
  }

  lemma AttemptOutside(w: World, s: Statement)
    requires Inv(w) && (IsOutside(s) || s.Renew? || s.Release?)
    ensures Inv(Attempt(w, Plain(s), Replied))
  {
    if Hits(w, s) {
      var row := w.row.value;
      if IsOutside(s) {
        OutsideOk(row, s, w.now, w.sessions, DigestOf(w.log));
      } else {
        LeaseOk(row, s, w.now, w.sessions, DigestOf(w.log));
      }
      PerformedOk(w, Plain(s), w.sessions);
    }
  }

  lemma AcquireKeeps(w: World, sid: SessionId, lease: int)
    requires Inv(w) && Hits(w, Acquire(sid, lease))
    ensures var s := Acquire(sid, lease);
            Inv(Put(Perform(w, Plain(s)), sid, Session(Holding, Apply(w.row.value, s, w.now), map[])))
  {
    var s := Acquire(sid, lease);
    AcquireOk(w.row.value, sid, lease, w.now, w.sessions, DigestOf(w.log));
    PerformedOk(w, Plain(s), w.sessions[sid := Session(Holding, Apply(w.row.value, s, w.now), map[])]);
  }

  lemma AcquireUnheardKeeps(w: World, sid: SessionId, lease: int)
    requires Inv(w) && Hits(w, Acquire(sid, lease)) && SessionOf(w, sid).phase.Idle?
    ensures Inv(Perform(w, Plain(Acquire(sid, lease))))
  {
    AcquireUnheardOk(w.row.value, sid, lease, w.now, HolderIn(w.row.value, w.sessions), SessionOf(w, sid),
        DigestOf(w.log));
    PerformedOk(w, Plain(Acquire(sid, lease)), w.sessions);
  }

  /** A session that only moves within its own memory. */
  lemma MoveKeeps(w: World, sid: SessionId, c': Session)
    requires Inv(w) && Retires(SessionOf(w, sid), c')
    ensures Inv(Put(w, sid, c'))
  {
    if w.row.Some? && w.row.value.owner == Some(sid) {
      RetiringOk(w.row.value, SessionOf(w, sid), c', DigestOf(w.log));
    }
  }

  /** A holder's performed statement, from what WriteOk established. */
  lemma HolderPerforms(w: World, sid: SessionId, e: Entry, c': Session)
    requires Inv(w) && Hits(w, e.stmt) && !e.stmt.DeleteTerminal? && MayAppend(DigestOf(w.log), e)
    requires var row' := Apply(w.row.value, e.stmt, w.now);
             row'.owner == Some(sid) && RowOk(row', Some(c'), Digested(DigestOf(w.log), e))
    requires Resumable(c')
    ensures Inv(Put(Perform(w, e), sid, c'))
  {
    PerformedOk(w, e, w.sessions[sid := c']);
  }

  lemma NextIsOwnerGuarded(c: Session, sid: SessionId)
    requires NextStatement(c, sid).Some?
    ensures var s := NextStatement(c, sid).value; OwnerGuarded(s) && s.sid == sid && !s.Release?
  {
  }

  lemma HitKeeps(w: World, sid: SessionId, r: Reply)
    requires Inv(w) && NextStatement(SessionOf(w, sid), sid).Some? && !r.Miss?
    requires Hits(w, NextStatement(SessionOf(w, sid), sid).value)
    ensures var c := SessionOf(w, sid);
            Inv(Put(Perform(w, WriteEntry(c, NextStatement(c, sid).value)), sid, After(c, r)))
  {
    var c := SessionOf(w, sid);
    NextIsOwnerGuarded(c, sid);
    HolderIsTheSession(w, sid);
    WriteOk(w.row.value, c, sid, r, w.now, DigestOf(w.log));
    AfterResumable(c, r);
    HolderPerforms(w, sid, WriteEntry(c, NextStatement(c, sid).value), After(c, r));
  }

  lemma HolderIsTheSession(w: World, sid: SessionId)
    requires Inv(w) && w.row.Some? && w.row.value.owner == Some(sid)
    ensures RowOk(w.row.value, Some(SessionOf(w, sid)), DigestOf(w.log)) && Resumable(SessionOf(w, sid))
  {
  }

  lemma WriteKeeps(w: World, sid: SessionId, fate: Fate)
    requires Inv(w)
    ensures Inv(Exec(w, Write(sid, fate)))
  {
    var c := SessionOf(w, sid);
    var next := NextStatement(c, sid);
    if next.Some? {
      var r := ReplyTo(w, next.value, fate);
      if fate != Dropped && Hits(w, next.value) {
        HitKeeps(w, sid, r);
      } else {
        MissRetires(c, r);
        MoveKeeps(w, sid, After(c, r));
      }
    }
  }

  lemma AfterResumable(c: Session, r: Reply)
    ensures !After(c, r).phase.Holding? || After(c, r) == c
  {
  }

  lemma StepKeeps(w: World, step: Step)
    requires Inv(w)
    ensures Inv(Exec(w, step))
  {
    match step
    case Tick(_) =>
    case TryAcquire(sid, lease, fate) =>
      if SessionOf(w, sid).phase.Idle? && fate != Dropped && Hits(w, Acquire(sid, lease)) {
        if fate == Replied {
          AcquireKeeps(w, sid, lease);
        } else {
          AcquireUnheardKeeps(w, sid, lease);
        }
      }
    case Write(sid, fate) => WriteKeeps(w, sid, fate);
    case Notice(sid, event) =>
      ObserveRetires(SessionOf(w, sid), event);
      MoveKeeps(w, sid, Observe(SessionOf(w, sid), event));
    case SkipJob(sid) =>
      if SessionOf(w, sid).phase.Holding? {
        MoveKeeps(w, sid, To(SessionOf(w, sid), Idle));
      }
    case Die(sid) => MoveKeeps(w, sid, To(SessionOf(w, sid), Ended));
    case KeepLease(sid, lease) => AttemptOutside(w, Renew(sid, lease));
    case DropLease(sid) => AttemptOutside(w, Release(sid));
    case Outside(stmt) =>
      if IsOutside(stmt) {
        AttemptOutside(w, stmt);
      }
  }

  lemma StartOk(op: OpName, timeout: int, now: int)
    ensures Inv(Start(op, timeout, now))
  {
  }

  /** The invariant holds after every run. */
  lemma {:induction false} RunKeeps(w: World, steps: seq<Step>)
    requires Inv(w)
    ensures Inv(ExecAll(w, steps))
    decreases |steps|
  {
    if steps != [] {
      RunKeeps(w, steps[..|steps| - 1]);
      StepKeeps(ExecAll(w, steps[..|steps| - 1]), steps[|steps| - 1]);
    }
  }
}

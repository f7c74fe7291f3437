/**
  The job row under any number of sessions, operators, sweeps and schedulers.

  A World is the row, every session's private memory, the clock and the history of
  the statements that matched. A run is any finite sequence of steps; a step that is
  not enabled does nothing, so every interleaving is a run.
*/
module JobProtocol {
  import opened Options
  import opened AgentMetrics
  import opened JobRow
  import opened WorkerSession

  /** Retries of a resumable run stop here (internal/scheduler/scheduler.go, maxJobAttempts). */
  const MAX_JOB_ATTEMPTS: nat := 20

  /**
    One matched statement and when. For a session's write: the report it carried, the gate it
    consumed (consumed: an approval, Some(true) for a rejection; heard: an input, Some(true) for
    an answer) and the failures it added.
  */
  datatype Entry = Entry(
    stmt: Statement, report: Snapshot, consumed: Option<bool>, heard: Option<bool>, failures: int, at: int)

  type History = seq<Entry>

  datatype World = World(row: Option<Row>, sessions: map<SessionId, Session>, now: int, log: History)

  /** Replied: executed and reported. Dropped: never executed, error reported. Unheard: executed, error reported. */
  datatype Fate = Replied | Dropped | Unheard

  datatype Step =
    | Tick(seconds: nat)
    | TryAcquire(sid: SessionId, lease: int, fate: Fate)
    | Write(sid: SessionId, fate: Fate)
    | Notice(sid: SessionId, event: Event)
    | SkipJob(sid: SessionId)                     // nothing to dispatch, or a context that cannot be serialized
    | Die(sid: SessionId)                         // the stream or its server goes away
    | KeepLease(sid: SessionId, lease: int)       // the lease goroutine's tick
    | DropLease(sid: SessionId)                   // its release, however late
    | Outside(stmt: Statement)                    // operators, sweeps, schedulers

  function SessionOf(w: World, sid: SessionId): Session {
    if sid in w.sessions then w.sessions[sid] else Fresh()
  }

  /** Statements issued outside the sessions; a requeue is only tried below the attempt limit. */
  predicate IsOutside(s: Statement) {
    match s
    case Requeue(n) => n < MAX_JOB_ATTEMPTS
    case Acquire(_, _) => false
    case _ => !OwnerGuarded(s)
  }

  predicate Hits(w: World, s: Statement) {
    w.row.Some? && Matches(w.row.value, s, w.now)
  }

  /** Runs a statement whose guard holds, recording it. */
  function Perform(w: World, e: Entry): World
    requires Hits(w, e.stmt)
  {
    w.(row := if e.stmt.DeleteTerminal? then None else Some(Apply(w.row.value, e.stmt, w.now)),
       log := w.log + [e.(at := w.now)])
  }

  function Attempt(w: World, e: Entry, fate: Fate): World {
    if fate != Dropped && Hits(w, e.stmt) then Perform(w, e) else w
  }

  function ReplyTo(w: World, s: Statement, fate: Fate): Reply {
    if fate != Replied then Error else if Hits(w, s) then Hit else Miss
  }

  function Plain(s: Statement): Entry {
    Entry(s, map[], None, None, 0, 0)
  }

  function WriteEntry(c: Session, s: Statement): Entry {
    Entry(s, c.thisOp, GateAtHand(c), InputAtHand(c), if c.phase.Settling? then c.phase.failures else 0, 0)
  }

  function Put(w: World, sid: SessionId, c: Session): World {
    w.(sessions := w.sessions[sid := c])
  }

  function Exec(w: World, step: Step): World {
    match step
    case Tick(seconds) => w.(now := w.now + seconds)
    case TryAcquire(sid, lease, fate) =>
      var c := SessionOf(w, sid);
      var stmt := Acquire(sid, lease);
      if !c.phase.Idle? then w
      else if fate == Replied && Hits(w, stmt) then
        Put(Attempt(w, Plain(stmt), fate), sid, Session(Holding, Apply(w.row.value, stmt, w.now), map[]))
      else Attempt(w, Plain(stmt), fate)
    case Write(sid, fate) =>
      var c := SessionOf(w, sid);
      (match NextStatement(c, sid)
       case None => w
       case Some(stmt) => Put(Attempt(w, WriteEntry(c, stmt), fate), sid, After(c, ReplyTo(w, stmt, fate))))
    case Notice(sid, event) => Put(w, sid, Observe(SessionOf(w, sid), event))
    case SkipJob(sid) =>
      var c := SessionOf(w, sid);
      if c.phase.Holding? then Put(w, sid, To(c, Idle)) else w
    case Die(sid) => Put(w, sid, To(SessionOf(w, sid), Ended))
    case KeepLease(sid, lease) => Attempt(w, Plain(Renew(sid, lease)), Replied)
    case DropLease(sid) => Attempt(w, Plain(Release(sid)), Replied)
    case Outside(stmt) => if IsOutside(stmt) then Attempt(w, Plain(stmt), Replied) else w
  }

  /** The run's beginning: the row just inserted, no session engaged, nothing recorded. */
  function Start(op: OpName, timeout: int, now: int): World {
    World(Some(Inserted(op, timeout)), map[], now, [])
  }

  function ExecAll(w: World, steps: seq<Step>): World {
    if steps == [] then w else Exec(ExecAll(w, steps[..|steps| - 1]), steps[|steps| - 1])
  }
}

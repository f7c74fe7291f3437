/**
  Whether a completed job stays completed. Owner-guarded writes carry no status guard, so
  that depends on what the session named in the owner column can still write.
*/
module JobFinality {
  import opened Options
  import opened AgentMetrics
  import opened JobRow
  import opened WorkerSession
  import opened JobProtocol

  /** A session that, as owner, can write nothing but a completion. */
  predicate Harmless(c: Session) {
    || c.phase.Idle? || c.phase.Ended?
    || (c.phase.Settling? && c.phase.how.Completing?)
    || (c.phase.Holding? && !WorkerSession.Resume(c.job).Launching?)
  }

  predicate StaysCompleted(row: Option<Row>) { row.None? || row.value.status == Completed }

  predicate Final(w: World) {
    StaysCompleted(w.row) && (w.row.Some? && w.row.value.owner.Some?
        ==> Harmless(SessionOf(w, w.row.value.owner.value)))
  }

  // ----- a final row stays

  lemma WriteKeepsFinal(w: World, sid: SessionId, fate: Fate)
    requires Final(w)
    ensures Final(Exec(w, Write(sid, fate)))
  {
    var c := SessionOf(w, sid);
    var next := NextStatement(c, sid);
    if next.Some? {
      NextIsFenced(c, sid);
      if Harmless(c) {
        HarmlessWrites(c, sid);
      }
    }
  }

  /** A session writes only under its own ownership. */
  lemma NextIsFenced(c: Session, sid: SessionId)
    requires NextStatement(c, sid).Some?
    ensures var s := NextStatement(c, sid).value;
            CarriesMetrics(s) || s.SetStatus?
    ensures NextStatement(c, sid).value.sid == sid
  {
  }

  lemma HarmlessWrites(c: Session, sid: SessionId)
    requires Harmless(c) && NextStatement(c, sid).Some?
    ensures NextStatement(c, sid).value.CompleteRun?
    ensures forall r :: Harmless(WorkerSession.After(c, r))
  {
  }

  lemma AttemptKeepsFinal(w: World, s: Statement)
    requires Final(w) && !CarriesMetrics(s) && !s.SetStatus?
    ensures Final(Attempt(w, Plain(s), Replied))
  {
  }

  lemma StepKeepsFinal(w: World, step: Step)
    requires Final(w)
    ensures Final(Exec(w, step))
  {
    match step
    case Write(sid, fate) => WriteKeepsFinal(w, sid, fate);
    case KeepLease(sid, lease) => AttemptKeepsFinal(w, Renew(sid, lease));
    case DropLease(sid) => AttemptKeepsFinal(w, Release(sid));
    case Outside(s) => if IsOutside(s) { AttemptKeepsFinal(w, s); }
    case _ =>
  }

  lemma {:induction false} RunKeepsFinal(w: World, steps: seq<Step>)
    requires Final(w)
    ensures Final(ExecAll(w, steps))
    decreases |steps|
  {
    if steps != [] {
      RunKeepsFinal(w, steps[..|steps| - 1]);
      StepKeepsFinal(ExecAll(w, steps[..|steps| - 1]), steps[|steps| - 1]);
    }
  }

  // ----- any other is undone

  lemma OneStep(w: World, a: Step)
    ensures ExecAll(w, [a]) == Exec(w, a)
  {
    assert [a][..0] == [];
  }

  lemma TwoSteps(w: World, a: Step, b: Step)
    ensures ExecAll(w, [a, b]) == Exec(Exec(w, a), b)
  {
    assert [a, b][..1] == [a];
    OneStep(w, a);
  }

  /** The phases whose pending statement takes a completed row out of completion. */
  predicate WritesOver(c: Session) {
    || (c.phase.Holding? && WorkerSession.Resume(c.job).Launching?)
    || c.phase.Resetting? || c.phase.Acking?
    || (c.phase.Settling? && !c.phase.how.Completing?)
  }

  lemma WriteUndoes(w: World, sid: SessionId)
    requires w.row.Some? && w.row.value.status == Completed && w.row.value.owner == Some(sid)
             && WritesOver(SessionOf(w, sid))
    ensures !StaysCompleted(Exec(w, Write(sid, Replied)).row)
  {
  }

  /** What brings any other engaged phase to one of those. */
  function Provocation(c: Session, sid: SessionId): Step {
    match c.phase
    case Sending => Notice(sid, LaunchSendFails)
    case Reporting => Write(sid, Dropped)
    case _ => Notice(sid, NotAnUpdate)
  }

  lemma ProvocationLeadsThere(w: World, sid: SessionId)
    requires w.row.Some? && w.row.value.status == Completed && w.row.value.owner == Some(sid)
    requires !Harmless(SessionOf(w, sid)) && !WritesOver(SessionOf(w, sid))
    ensures var w' := Exec(w, Provocation(SessionOf(w, sid), sid)); w'.row == w.row && WritesOver(SessionOf(w', sid))
  {
  }

  lemma NotFinalIsUndone(w: World) returns (steps: seq<Step>)
    requires w.row.Some? && w.row.value.status == Completed && !Final(w)
    ensures |steps| <= 2 && !StaysCompleted(ExecAll(w, steps).row)
  {
    var sid := w.row.value.owner.value;
    if WritesOver(SessionOf(w, sid)) {
      steps := [Write(sid, Replied)];
      OneStep(w, Write(sid, Replied));
      WriteUndoes(w, sid);
    } else {
      var first := Provocation(SessionOf(w, sid), sid);
      steps := [first, Write(sid, Replied)];
      TwoSteps(w, first, Write(sid, Replied));
      ProvocationLeadsThere(w, sid);
      WriteUndoes(Exec(w, first), sid);
    }
  }

  /**
    A completed row stays completed, or is deleted, in every run exactly when nobody owns it or
    its owner's session can write nothing but a completion.
  */
  lemma CompletedIsFinalExactly(w: World)
    requires w.row.Some? && w.row.value.status == Completed
    ensures Final(w) <==> forall steps :: StaysCompleted(ExecAll(w, steps).row)
  {
    if Final(w) {
      forall steps
        ensures StaysCompleted(ExecAll(w, steps).row)
      {
        RunKeepsFinal(w, steps);
      }
    } else {
      var steps := NotFinalIsUndone(w);
    }
  }

  /** One more step of a run being spelled out. */
  lemma Play(start: World, steps: seq<Step>, w: World, step: Step) returns (steps': seq<Step>, w': World)
    requires w == ExecAll(start, steps)
    ensures steps' == steps + [step] && w' == Exec(w, step) && w' == ExecAll(start, steps')
  {
    steps', w' := steps + [step], Exec(w, step);
    assert steps'[..|steps|] == steps;
  }

  function Acquired(op: OpName, timeout: int, now: int): Row {
    Inserted(op, timeout).(owner := Some(1), leaseUntil := Some(now + 30))
  }

  lemma LeaseRunsOut(op: OpName, timeout: int, now: int) returns (steps: seq<Step>, w: World)
    ensures w == ExecAll(Start(op, timeout, now), steps)
    ensures w.row == Some(Acquired(op, timeout, now)) && w.now == now + 31
    ensures w.sessions == map[1 := Session(Holding, Acquired(op, timeout, now), map[])]
  {
    var start := Start(op, timeout, now);
    steps, w := [], start;
    steps, w := Play(start, steps, w, TryAcquire(1, 30, Replied));
    steps, w := Play(start, steps, w, Tick(31));
  }

  lemma AbandonedAndSwept(op: OpName, timeout: int, now: int) returns (steps: seq<Step>, w: World)
    ensures w == ExecAll(Start(op, timeout, now), steps)
    ensures w.row == Some(Acquired(op, timeout, now).(abandonRequested := true, status := Completed))
    ensures w.sessions == map[1 := Session(Holding, Acquired(op, timeout, now), map[])]
  {
    var start := Start(op, timeout, now);
    steps, w := LeaseRunsOut(op, timeout, now);
    steps, w := Play(start, steps, w, Outside(MarkAbandon));
    steps, w := Play(start, steps, w, Outside(SweepAbandoned));
  }

  /**
    A run that gets there: an abandoned run, completed by the sweep, is launched by the session whose
    lease ran out.
  */
  lemma StaleOwnerLaunchesACompletedRun(op: OpName, timeout: int, now: int) returns (before: seq<Step>, last: Step)
    ensures var w := ExecAll(Start(op, timeout, now), before);
            && w.row.Some? && w.row.value.status == Completed
            && var w' := Exec(w, last); w'.row.Some? && w'.row.value.status == Dispatched
  {
    var w;
    before, w := AbandonedAndSwept(op, timeout, now);
    last := Write(1, Replied);
  }
}

/**
  Requests of one workflow as the request repository creates and settles them
  (internal/storage/postgres/customer_request.go). Versions come from target_version, so
  they name requests uniquely; the periodic path keeps at most one request open.
*/
module RequestVersions {
  import opened Options
  import opened WorkflowTables

  type Id = nat

  datatype Request = Request(version: nat, status: RequestStatus, createdAt: int, completedAt: Option<int>)

  datatype Ledger = Ledger(state: WorkflowState, target: nat, requests: map<Id, Request>)

  const EPOCH := 0

  // ----- the statements

  predicate Open(r: Request) { !IsTerminal(r.status) }

  function Insert(l: Ledger, id: Id, now: int): Ledger {
    Ledger(l.state, l.target + 1, l.requests[id := Request(l.target + 1, Unscheduled, now, None)])
  }

  predicate MayInvoke(l: Ledger, id: Id) { l.state == Active && id !in l.requests }

  /** The latest completion, or the epoch, lies more than the gap in the past. */
  predicate Rested(requests: map<Id, Request>, gap: int, now: int) {
    if exists id :: id in requests && requests[id].completedAt.Some?
    then forall id :: id in requests && requests[id].completedAt.Some? ==> requests[id].completedAt.value + gap < now
    else EPOCH + gap < now
  }

  predicate IsDue(l: Ledger, id: Id, gap: int, now: int) {
    && MayInvoke(l, id)
    && (forall r :: r in l.requests ==> !Open(l.requests[r]))
    && Rested(l.requests, gap, now)
  }

  function Settled(l: Ledger, id: Id, status: RequestStatus, now: int): Ledger {
    if id in l.requests then l.(requests := l.requests[id :=
        l.requests[id].(status := status, completedAt := Some(now))]) else l
  }

  /** Freezing, scheduling, starting, superceding and abandoning: each names the open statuses it takes. */
  function Moved(l: Ledger, id: Id, status: RequestStatus): Ledger {
    if id in l.requests && Open(l.requests[id]) && status !in {Completed, Failed}
    then l.(requests := l.requests[id := l.requests[id].(status := status)]) else l
  }

  // ----- runs

  datatype Event =
    | Invoke(id: Id)
    | InvokeIfDue(id: Id)
    | Settle(id: Id, failed: bool)
    | Move(id: Id, status: RequestStatus)
    | Enter(state: WorkflowState)
    | Wait(time: nat)

  datatype Timed = Timed(ledger: Ledger, now: int)

  function Happen(t: Timed, gap: int, e: Event): Timed {
    match e
    case Invoke(id) => if MayInvoke(t.ledger, id) then t.(ledger := Insert(t.ledger, id, t.now)) else t
    case InvokeIfDue(id) => if IsDue(t.ledger, id, gap, t.now) then t.(ledger := Insert(t.ledger, id, t.now)) else t
    case Settle(id, failed) => t.(ledger := Settled(t.ledger, id, if failed then Failed else Completed, t.now))
    case Move(id, status) => t.(ledger := Moved(t.ledger, id, status))
    case Enter(state) => t.(ledger := t.ledger.(state := state))
    case Wait(time) => t.(now := t.now + time)
  }

  function HappenAll(t: Timed, gap: int, events: seq<Event>): Timed {
    if events == [] then t else Happen(HappenAll(t, gap, events[..|events| - 1]), gap, events[|events| - 1])
  }

  function Created(now: int): Timed { Timed(Ledger(Paused, 0, map[]), now) }

  // ----- versions

  predicate Has(requests: map<Id, Request>, id: Id, v: nat) { id in requests && requests[id].version == v }

  ghost predicate Taken(requests: map<Id, Request>, v: nat) { exists id :: Has(requests, id, v) }

  /** Every version up to the target names exactly one request, and there are no others. */
  ghost predicate Numbered(l: Ledger) {
    && (forall id :: id in l.requests ==> 1 <= l.requests[id].version <= l.target)
    && (forall a, b :: a in l.requests && b in l.requests && l.requests[a].version == l.requests[b].version ==> a == b)
    && (forall v :: 1 <= v <= l.target ==> Taken(l.requests, v))
  }

  lemma InsertNumbers(l: Ledger, id: Id, now: int)
    requires Numbered(l) && id !in l.requests
    ensures Numbered(Insert(l, id, now))
  {
    var l' := Insert(l, id, now);
    assert Has(l'.requests, id, l'.target);
    forall v | 1 <= v <= l.target
      ensures Taken(l'.requests, v)
    {
      assert Taken(l.requests, v);
      var r :| Has(l.requests, r, v);
      assert Has(l'.requests, r, v);
    }
  }

  lemma RewriteNumbers(l: Ledger, l': Ledger)
    requires Numbered(l) && l'.target == l.target && l'.requests.Keys == l.requests.Keys
    requires forall id :: id in l.requests ==> l'.requests[id].version == l.requests[id].version
    ensures Numbered(l')
  {
    forall v | 1 <= v <= l.target
      ensures Taken(l'.requests, v)
    {
      assert Taken(l.requests, v);
      var r :| Has(l.requests, r, v);
      assert Has(l'.requests, r, v);
    }
  }

  lemma EventNumbers(t: Timed, gap: int, e: Event)
    requires Numbered(t.ledger)
    ensures Numbered(Happen(t, gap, e).ledger)
  {
    match e
    case Invoke(id) => if MayInvoke(t.ledger, id) { InsertNumbers(t.ledger, id, t.now); }
    case InvokeIfDue(id) => if IsDue(t.ledger, id, gap, t.now) { InsertNumbers(t.ledger, id, t.now); }
    case _ => RewriteNumbers(t.ledger, Happen(t, gap, e).ledger);
  }

  /** Over any interleaving of both create statements, settlements and moves. */
  lemma {:induction false} VersionsNameRequests(now: int, gap: int, events: seq<Event>)
    ensures Numbered(HappenAll(Created(now), gap, events).ledger)
    decreases |events|
  {
    if events != [] {
      VersionsNameRequests(now, gap, events[..|events| - 1]);
      EventNumbers(HappenAll(Created(now), gap, events[..|events| - 1]), gap, events[|events| - 1]);
    }
  }

  // ----- the same requests as on the control plane's tables, where they go by their versions

  ghost predicate Agrees(l: Ledger, t: Tables) {
    && l.state == t.wf.state && l.target == t.wf.target
    && (forall id :: id in l.requests ==> l.requests[id].version in t.requests)
    && (forall id :: id in l.requests ==> t.requests[l.requests[id].version] == l.requests[id].status)
    && (forall v :: v in t.requests ==> 1 <= v <= l.target)
  }

  lemma CreatesAgree(l: Ledger, t: Tables, id: Id, now: int)
    requires Numbered(l) && Agrees(l, t) && MayInvoke(l, id)
    ensures Agrees(Insert(l, id, now), CreateRequest(t))
  {
  }

  lemma SettlementsAgree(l: Ledger, t: Tables, id: Id, status: RequestStatus, now: int)
    requires Numbered(l) && Agrees(l, t) && id in l.requests
    ensures Agrees(Settled(l, id, status, now), MarkRequest(t, l.requests[id].version, status))
  {
  }

  // ----- periodic requests

  predicate Periodic(events: seq<Event>) {
    forall i :: 0 <= i < |events| ==> !events[i].Invoke?
  }

  /** Only the newest request can be open. */
  predicate OneOpen(l: Ledger) {
    forall id :: id in l.requests && Open(l.requests[id]) ==> l.requests[id].version == l.target
  }

  /** Created only by the periodic path, at most one request is ever open. */
  lemma {:induction false} PeriodicKeepsOneOpen(now: int, gap: int, events: seq<Event>)
    requires Periodic(events)
    ensures var l := HappenAll(Created(now), gap, events).ledger;
            forall a, b :: a in l.requests && b in l.requests && Open(l.requests[a]) && Open(l.requests[b]) ==> a == b
    ensures OneOpen(HappenAll(Created(now), gap, events).ledger)
    decreases |events|
  {
    if events != [] {
      var front := events[..|events| - 1];
      PeriodicKeepsOneOpen(now, gap, front);
      VersionsNameRequests(now, gap, front);
      EventKeepsOneOpen(HappenAll(Created(now), gap, front), gap, events[|events| - 1]);
    }
    VersionsNameRequests(now, gap, events);
  }

  lemma EventKeepsOneOpen(t: Timed, gap: int, e: Event)
    requires Consistent(t) && !e.Invoke?
    ensures OneOpen(Happen(t, gap, e).ledger)
  {
  }

  /** Every request was created more than the gap after each earlier one completed. */
  predicate Spaced(l: Ledger, gap: int) {
    forall a, b ::
      && a in l.requests && b in l.requests && l.requests[a].version < l.requests[b].version
      && l.requests[a].completedAt.Some?
      ==> l.requests[a].completedAt.value + gap < l.requests[b].createdAt
  }

  /** A settlement, if it hits a request at all, hits the newest. */
  predicate HitsNewest(l: Ledger, e: Event) {
    e.Settle? && e.id in l.requests ==> l.requests[e.id].version == l.target
  }

  predicate SettlesNewest(now: int, gap: int, events: seq<Event>) {
    forall i :: 0 <= i < |events| ==> HitsNewest(HappenAll(Created(now), gap, events[..i]).ledger, events[i])
  }

  predicate Consistent(t: Timed) {
    && OneOpen(t.ledger)
    && forall id :: id in t.ledger.requests ==> t.ledger.requests[id].version <= t.ledger.target
  }

  /** Nothing is stamped ahead of the clock. */
  predicate Stamped(t: Timed) {
    forall id :: id in t.ledger.requests ==>
      && t.ledger.requests[id].createdAt <= t.now
      && (t.ledger.requests[id].completedAt.Some? ==> t.ledger.requests[id].completedAt.value <= t.now)
  }

  lemma EventStamps(t: Timed, gap: int, e: Event)
    requires Stamped(t)
    ensures Stamped(Happen(t, gap, e))
  {
  }

  lemma EventKeepsSpacing(t: Timed, gap: int, e: Event)
    requires Consistent(t) && Spaced(t.ledger, gap) && !e.Invoke? && HitsNewest(t.ledger, e)
    ensures Spaced(Happen(t, gap, e).ledger, gap)
  {
  }

  /** Settling an older request again stamps it after the newest was created. */
  lemma OldSettlementBreaksSpacing(t: Timed, gap: int, e: Event)
    requires gap >= 0 && Numbered(t.ledger) && Stamped(t) && !HitsNewest(t.ledger, e)
    ensures !Spaced(Happen(t, gap, e).ledger, gap)
  {
    var l' := Happen(t, gap, e).ledger;
    assert Taken(t.ledger.requests, t.ledger.target);
    var newest :| Has(t.ledger.requests, newest, t.ledger.target);
    assert l'.requests[e.id].version < l'.requests[newest].version;
  }

  /** Broken spacing is never mended: creations stand, completions only move later. */
  lemma BrokenStaysBroken(t: Timed, gap: int, e: Event)
    requires Stamped(t) && !Spaced(t.ledger, gap)
    ensures !Spaced(Happen(t, gap, e).ledger, gap)
  {
    var l, l' := t.ledger, Happen(t, gap, e).ledger;
    var a, b :| && a in l.requests && b in l.requests && l.requests[a].version < l.requests[b].version
                && l.requests[a].completedAt.Some? && l.requests[a].completedAt.value + gap >= l.requests[b].createdAt;
    assert l'.requests[a].version < l'.requests[b].version && l'.requests[a].completedAt.Some?;
    assert l'.requests[a].completedAt.value + gap >= l'.requests[b].createdAt;
  }

  /**
    Created only by the periodic path, every request is more than the gap after each earlier
    completion exactly when no settlement hits a request that is not the newest.
  */
  lemma {:induction false} PeriodicRequestsAreSpaced(now: int, gap: int, events: seq<Event>)
    requires gap >= 0 && Periodic(events)
    ensures Spaced(HappenAll(Created(now), gap, events).ledger, gap) <==> SettlesNewest(now, gap, events)
    ensures Stamped(HappenAll(Created(now), gap, events))
    decreases |events|
  {
    if events != [] {
      var front, last := events[..|events| - 1], events[|events| - 1];
      var t := HappenAll(Created(now), gap, front);
      assert forall i :: 0 <= i < |front| ==> front[..i] == events[..i];
      PeriodicRequestsAreSpaced(now, gap, front);
      PeriodicKeepsOneOpen(now, gap, front);
      VersionsNameRequests(now, gap, front);
      EventStamps(t, gap, last);
      assert SettlesNewest(now, gap, events) <==> SettlesNewest(now, gap, front) && HitsNewest(t.ledger, last);
      if !Spaced(t.ledger, gap) {
        BrokenStaysBroken(t, gap, last);
      } else if HitsNewest(t.ledger, last) {
        EventKeepsSpacing(t, gap, last);
      } else {
        OldSettlementBreaksSpacing(t, gap, last);
      }
    }
  }

  /** A repeated settlement, which no guard refuses, moves a completion past the creation it preceded. */
  lemma RepeatedSettlementBreaksSpacing(gap: int) returns (events: seq<Event>)
    requires gap >= 0
    ensures Periodic(events) && !Spaced(HappenAll(Created(0), gap, events).ledger, gap)
  {
    var t := Created(0);
    events := [];
    events, t := Then(gap, events, t, Enter(Active));
    events, t := Then(gap, events, t, Wait(gap + 1));
    events, t := Then(gap, events, t, InvokeIfDue(1));
    events, t := Then(gap, events, t, Settle(1, false));
    events, t := Then(gap, events, t, Wait(gap + 1));
    events, t := Then(gap, events, t, InvokeIfDue(2));
    events, t := Then(gap, events, t, Settle(1, false));
    assert t.ledger.requests[1] == Request(1, Completed, gap + 1, Some(t.now))
        && t.ledger.requests[2] == Request(2, Unscheduled, t.now, None);
  }

  /** One more event of a run being spelled out. */
  lemma Then(gap: int, events: seq<Event>, t: Timed, e: Event) returns (events': seq<Event>, t': Timed)
    requires t == HappenAll(Created(0), gap, events) && Periodic(events) && !e.Invoke?
    ensures t' == Happen(t, gap, e) && t' == HappenAll(Created(0), gap, events') && Periodic(events')
  {
    events', t' := events + [e], Happen(t, gap, e);
    assert events'[..|events|] == events;
  }

  // ----- the repository

  class CustomerRequests {
    var state: WorkflowState
    var target: nat
    var requests: map<Id, Request>

    function View(): Ledger
      reads this
    {
      Ledger(state, target, requests)
    }

    constructor ()
      ensures View() == Created(0).ledger
    {
      state, target, requests := Paused, 0, map[];
    }

    method CreateInvocationRequest(id: Id, now: int) returns (version: Option<nat>)
      modifies this
      ensures version.Some? <==> MayInvoke(old(View()), id)
      ensures version.Some? ==> version.value == target && View() == Insert(old(View()), id, now)
      ensures version.None? ==> View() == old(View())
    {
      version := None;
      if state == Active && id !in requests {
        target := target + 1;
        requests := requests[id := Request(target, Unscheduled, now, None)];
        version := Some(target);
      }
    }

    method CreateDuePeriodicRequest(id: Id, gap: int, now: int) returns (version: Option<nat>)
      modifies this
      ensures version.Some? <==> IsDue(old(View()), id, gap, now)
      ensures version.Some? ==> version.value == target && View() == Insert(old(View()), id, now)
      ensures version.None? ==> View() == old(View())
    {
      version := None;
      var last := LastCompletion();
      var open := exists r :: r in requests && Open(requests[r]);
      if state == Active && !open && (if last.Some? then last.value else EPOCH) + gap < now {
        version := CreateInvocationRequest(id, now);
      }
    }

    /** max(completed_at): the latest completion, or nothing. */
    method LastCompletion() returns (last: Option<int>)
      ensures last.None? <==> forall r :: r in requests ==> requests[r].completedAt.None?
      ensures last.Some? ==> exists r :: r in requests && requests[r].completedAt == last
      ensures last.Some? ==>
                forall r :: r in requests && requests[r].completedAt.Some?
                            ==> requests[r].completedAt.value <= last.value
    {
      last := None;
      var left := requests.Keys;
      while left != {}
        invariant left <= requests.Keys
        invariant last.None? <==> forall r :: r in requests && r !in left ==> requests[r].completedAt.None?
        invariant last.Some? ==> exists r :: r in requests && requests[r].completedAt == last
        invariant last.Some? ==>
                    forall r :: r in requests && r !in left && requests[r].completedAt.Some?
                                ==> requests[r].completedAt.value <= last.value
      {
        var r :| r in left;
        left := left - {r};
        if requests[r].completedAt.Some? && (last.None? || last.value < requests[r].completedAt.value) {
          last := requests[r].completedAt;
        }
      }
    }

    method AbandonQueuedRequests(only: Option<set<Id>>) returns (abandoned: set<Id>)
      modifies this`requests
      ensures abandoned == set r | r in old(requests) && IsQueued(old(requests)[r].status)
              && (only.None? || r in only.value)
      ensures requests.Keys == old(requests).Keys
      ensures forall r :: r in requests ==>
                requests[r] == if r in abandoned then old(requests)[r].(status := Abandoned) else old(requests)[r]
    {
      abandoned := set r | r in requests && IsQueued(requests[r].status) && (only.None? || r in only.value);
      requests := map r | r in requests :: if r in abandoned then requests[r].(status := Abandoned) else requests[r];
    }

    /** CompleteRequest and FailRequest: no guard but the id. */
    method SettleRequest(id: Id, failed: bool, now: int)
      modifies this`requests
      ensures View() == Settled(old(View()), id, if failed then Failed else Completed, now)
    {
      if id in requests {
        requests := requests[id := requests[id].(status := if failed then Failed
            else Completed, completedAt := Some(now))];
      }
    }
  }
}

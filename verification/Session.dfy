/** A chat session as an object. */
module Session {
  // The history a session appends to and its queue of operations. The methods take the steps of
  // SessionModel; the readers loop over the log as the source does.

  import opened Wrappers
  import H = HistoryModel
  import M = SessionModel
  import S = HistorySafety
  import P = SessionPending

  /** `nextTurnAndStep`. */
  method NextTurnAndStep(events: seq<H.Event>) returns (turn: nat, step: nat)
    ensures turn == M.LastTurn(events) + 1 && step == M.LastStep(events) + 1
  {
    turn, step := 0, 0;
    var i := 0;
    while i < |events|
      invariant i <= |events|
      invariant turn == M.LastTurn(events[..i]) && step == M.LastStep(events[..i])
    {
      assert events[..i + 1][..i] == events[..i];
      if events[i].TurnStart? { turn := M.Max(turn, events[i].turn); }
      if events[i].StepStart? { step := M.Max(step, events[i].step); }
      i := i + 1;
    }
    assert events[..i] == events;
    turn, step := turn + 1, step + 1;
  }

  /** The `some` over the log in `appendForOpenHandle`. */
  method FindClosed(events: seq<H.Event>, handle: H.Handle) returns (closed: bool)
    ensures closed <==> M.Closed(events, handle)
  {
    var i := 0;
    while i < |events|
      invariant i <= |events|
      invariant forall k :: 0 <= k < i ==> !M.ClosesEvent(events[k], handle)
    {
      if M.ClosesEvent(events[i], handle) { return true; }
      i := i + 1;
    }
    return false;
  }

  /** The suspension scan of `readOwnedSuspension`. */
  method FindSuspended(events: seq<H.Event>) returns (suspended: Option<H.Event>)
    ensures suspended == M.LastSuspend(events)
  {
    suspended := None;
    var i := 0;
    while i < |events|
      invariant i <= |events|
      invariant suspended == M.LastSuspend(events[..i])
    {
      assert events[..i + 1][..i] == events[..i];
      if events[i].TurnSuspend? { suspended := Some(events[i]); }
      if events[i].TurnResume? || events[i].TurnEnd? { suspended := None; }
      i := i + 1;
    }
    assert events[..i] == events;
  }

  /** `resolvedCallIds`, `decidedApprovalIds` and `approvalByCallId`. */
  method Project(events: seq<H.Event>) returns (resolved: set<string>, decided: set<string>, approvals: map<string, string>)
    ensures forall c :: c in resolved <==> H.HasResult(events, c)
    ensures forall a :: a in decided <==> H.HasDecision(events, a)
    ensures forall c :: M.ApprovalFor(events, c) == if c in approvals then Some(approvals[c]) else None
  {
    resolved, decided, approvals := {}, {}, map[];
    var i := 0;
    while i < |events|
      invariant i <= |events|
      invariant forall c :: c in resolved <==> H.HasResult(events[..i], c)
      invariant forall a :: a in decided <==> H.HasDecision(events[..i], a)
      invariant forall c :: M.ApprovalFor(events[..i], c) == if c in approvals then Some(approvals[c]) else None
    {
      assert events[..i + 1] == events[..i] + [events[i]];
      S.HasGrows(events[..i], events[i]);
      match events[i] {
        case ToolResult(c, _, _) => resolved := resolved + {c};
        case ApprovalDecision(a, _, _) => decided := decided + {a};
        case ApprovalRequest(a, c, _) => approvals := approvals[c := a];
        case _ =>
      }
      i := i + 1;
    }
    assert events[..i] == events;
  }

  /** The `filter` over the suspended calls. */
  method FilterCalls(log: seq<H.Event>, callIds: seq<string>, resolved: set<string>, decided: set<string>, approvals: map<string, string>)
    returns (pending: seq<string>)
    requires forall c :: c in resolved <==> H.HasResult(log, c)
    requires forall a :: a in decided <==> H.HasDecision(log, a)
    requires forall c :: M.ApprovalFor(log, c) == if c in approvals then Some(approvals[c]) else None
    ensures pending == M.PendingCalls(log, callIds)
  {
    pending := [];
    var i := |callIds|;
    while i > 0
      invariant 0 <= i <= |callIds|
      invariant pending == M.PendingCalls(log, callIds[i..])
    {
      i := i - 1;
      var c := callIds[i];
      assert callIds[i..][0] == c && callIds[i..][1..] == callIds[i + 1..];
      if c !in resolved && (c !in approvals || approvals[c] !in decided) { pending := [c] + pending; }
    }
  }

  /** The `filter` over the suspended approvals. */
  method FilterApprovals(log: seq<H.Event>, approvalIds: seq<string>, decided: set<string>) returns (pending: seq<string>)
    requires forall a :: a in decided <==> H.HasDecision(log, a)
    ensures pending == M.PendingApprovals(log, approvalIds)
  {
    pending := [];
    var i := |approvalIds|;
    while i > 0
      invariant 0 <= i <= |approvalIds|
      invariant pending == M.PendingApprovals(log, approvalIds[i..])
    {
      i := i - 1;
      var a := approvalIds[i];
      assert approvalIds[i..][0] == a && approvalIds[i..][1..] == approvalIds[i + 1..];
      if a !in decided { pending := [a] + pending; }
    }
  }

  class ChatSession {
    var log: seq<H.Event>
    var tickets: seq<M.Ticket>
    var next: nat

    ghost function State(): M.State
      reads this
    {
      M.State(log, tickets, next)
    }

    constructor ()
      ensures State() == M.Init()
    {
      log, tickets, next := [], [], 0;
    }

    /** `enqueueSession`: the job runs after everything queued before it has settled. */
    method Enqueue(job: M.Job) returns (ticket: nat)
      requires M.Queued(job)
      modifies this
      ensures State() == M.Apply(old(State()), M.DoEnqueue(job))
      ensures ticket == old(|tickets|)
    {
      ticket := |tickets|;
      tickets := tickets + [M.Ticket(job, M.Waiting)];
    }

    /** `settleChatProviderEnd`; a response without an id is refused before anything is queued. */
    method SettleProviderEnd(handle: H.Handle, messageId: string, finish: string,
                             waiting: Option<(seq<string>, seq<string>)>) returns (ticket: Option<nat>)
      modifies this
      ensures ticket.None? <==> messageId == ""
      ensures ticket.None? ==> State() == old(State())
      ensures ticket.Some? ==> M.SettleJob(handle, messageId, finish, waiting).Some?
      ensures ticket.Some? ==>
        State() == M.Enqueue(old(State()), M.SettleJob(handle, messageId, finish, waiting).value)
    {
      if messageId == "" { return None; }
      var id;
      if waiting.Some? && (|waiting.value.0| > 0 || |waiting.value.1| > 0) {
        id := Enqueue(M.Close(handle, M.Suspend(finish, waiting.value.0, waiting.value.1)));
      } else {
        id := Enqueue(M.Close(handle, M.Complete(finish)));
      }
      return Some(id);
    }

    method StartNext()
      requires M.Enabled(State(), M.DoStart)
      modifies this
      ensures State() == M.Apply(old(State()), M.DoStart)
    {
      tickets := tickets[next := tickets[next].(status := M.Running)];
    }

    method NumberNext()
      requires M.Enabled(State(), M.DoNumber)
      modifies this
      ensures State() == M.Apply(old(State()), M.DoNumber)
    {
      var turn, step := NextTurnAndStep(log);
      tickets := tickets[next := tickets[next].(status := M.Numbered(turn, step))];
    }

    /** A read or an append inside the operation rejected; the queue goes on regardless. */
    method Refuse(fault: bool)
      requires next < |tickets|
      modifies this
      ensures State() == M.Refuse(old(State()), fault)
    {
      var ticket := tickets[next];
      tickets := tickets[next := ticket.(status := if ticket.job.Close? then M.Checking(fault) else M.Rejected(fault))];
      next := next + 1;
    }

    /** The append of the operation reaches the history, which validates the whole batch. */
    method AppendNext()
      requires M.Enabled(State(), M.DoLand)
      modifies this
      ensures State() == M.Apply(old(State()), M.DoLand)
    {
      var ticket := tickets[next];
      var turn, step := 0, 0;
      if ticket.status.Numbered? { turn, step := ticket.status.turn, ticket.status.step; }
      var batch := M.Batch(ticket.job, turn, step);
      if !H.Accepts(log, batch) {
        Refuse(false);
        return;
      }
      log := log + batch;
      tickets := tickets[next := ticket.(status := M.Landed(M.HandleOf(ticket.job, turn, step)))];
      next := next + 1;
    }

    /** The closer that was rejected looks for the end of its step. */
    method CheckClosed(ticket: nat)
      requires M.Enabled(State(), M.DoCheck(ticket))
      modifies this
      ensures State() == M.Apply(old(State()), M.DoCheck(ticket))
    {
      var t := tickets[ticket];
      var closed := FindClosed(log, t.job.handle);
      tickets := tickets[ticket := t.(status := if closed then M.AlreadyClosed else M.Rejected(t.status.fault))];
    }

    method CheckFails(ticket: nat)
      requires M.Enabled(State(), M.DoCheckFails(ticket))
      modifies this
      ensures State() == M.Apply(old(State()), M.DoCheckFails(ticket))
    {
      tickets := tickets[ticket := tickets[ticket].(status := M.Rejected(true))];
    }

    /** The tool executor appends to the same history without the queue. */
    method RecordTool(event: H.Event) returns (appended: bool)
      requires M.Enabled(State(), M.DoTool(event))
      modifies this
      ensures State() == M.Apply(old(State()), M.DoTool(event))
      ensures appended <==> H.Accepts(old(log), [event])
    {
      appended := H.Accepts(log, [event]);
      if appended { log := log + [event]; }
    }

    /** `readOwnedSuspension`. */
    method ReadOwnedSuspension() returns (r: Result<Option<M.Suspension>, M.ReadError>)
      ensures r == M.ReadSuspension(log)
      ensures H.GuardOf(log).Ok? ==>
        && (r == Ok(None) <==> forall k: nat :: !P.SuspendsAt(log, k))
        && (forall k: nat :: P.SuspendsAt(log, k) && log[k].callIds != [] ==>
              r.Ok? && r.value.Some? && P.Reports(log, log[k], r.value.value))
    {
      if H.GuardOf(log).Ok? { P.ReportIsTheWaiting(log); }
      var suspended := FindSuspended(log);
      if suspended.None? { return Ok(None); }
      var e := suspended.value;
      var resolved, decided, approvals := Project(log);
      if exists a :: a in e.approvalIds && !H.HasRequest(log, a) { return Err(M.MissingApproval); }
      if exists c :: c in e.callIds && M.FirstCall(log, c).None? { return Err(M.MissingCall); }
      if |e.callIds| == 0 { return Err(M.NoOwner); }
      var pendingCalls := FilterCalls(log, e.callIds, resolved, decided, approvals);
      var pendingApprovals := FilterApprovals(log, e.approvalIds, decided);
      assert e.callIds[0] in e.callIds;
      return Ok(Some(M.Suspension(M.FirstCall(log, e.callIds[0]).value, pendingCalls, pendingApprovals)));
    }
  }
}

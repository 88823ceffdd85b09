/** Suspension, resume, readiness. */
module SessionSuspension {
  // What the readers of a session find in an accepted history is what the guard knows: the
  // suspension, its owner, and whether its turn may resume.

  import opened Wrappers
  import opened HistoryModel
  import opened HistorySafety
  import opened SessionModel
  import opened SessionSafety
  import opened SessionBuilders

  // ----- suspended exactly when the guard is -----

  lemma LastSuspendAppend(log: seq<Event>, e: Event)
    ensures LastSuspend(log + [e]) ==
      if e.TurnSuspend? then Some(e) else if e.TurnResume? || e.TurnEnd? then None else LastSuspend(log)
  {
    assert (log + [e])[..|log + [e]| - 1] == log;
  }

  /** The suspension the guard keeps for an event. */
  function SuspendedBy(e: Option<Event>): Option<Suspended>
    requires e.Some? ==> e.value.TurnSuspend?
  {
    if e.None? then None else Some(Suspended(e.value.turn, e.value.step, e.value.callIds, e.value.approvalIds))
  }

  /** The scan for a suspension finds the one the guard keeps, turn, step and ids. */
  lemma {:induction false} ScanFindsSuspension(log: seq<Event>)
    requires GuardOf(log).Ok?
    ensures GuardOf(log).value.suspension == SuspendedBy(LastSuspend(log))
    decreases |log|
  {
    hide Validate, Allowed, After, Coherent, Knows, Witnessed, LastSuspend;
    if log == [] {
      EmptyScan();
    } else {
      var before, e := log[..|log| - 1], log[|log| - 1];
      assert log == before + [e];
      AppendOne(before, e);
      GuardTracks(before);
      ScanFindsSuspension(before);
      LastSuspendAppend(before, e);
      SuspensionMoves(GuardOf(before).value, e);
    }
  }

  lemma EmptyScan()
    ensures GuardOf([]) == Ok(EMPTY) && LastSuspend([]) == None
  {
  }

  lemma SuspensionMoves(g: Guard, e: Event)
    requires Coherent(g) && Allowed(g, e)
    ensures After(g, e).suspension ==
      if e.TurnSuspend? then SuspendedBy(Some(e)) else if e.TurnResume? || e.TurnEnd? then None else g.suspension
  {
    hide Coherent, WellFormed, ToolRule, RequestRule, RetryRule;
  }

  lemma SuspendTracksMode(log: seq<Event>)
    requires ModeOf(log).Some?
    ensures LastSuspend(log).Some? <==> ModeOf(log).value.Paused?
    ensures LastSuspend(log).Some? ==>
      ModeOf(log).value == Paused(LastSuspend(log).value.turn, LastSuspend(log).value.step)
  {
    hide Validate, LastSuspend, Knows, Witnessed, CallsOk, ApprovalsOk, RetriesOk, SuspensionOk;
    ScanFindsSuspension(log);
    GuardTracks(log);
  }

  // ----- what the readers find is what the guard knows -----

  lemma ResultsAgree(log: seq<Event>, g: Guard, c: string)
    requires Tracks(log, g) && c in g.calls
    ensures HasResult(log, c) <==> g.calls[c].result
  {
    hide Coherent, Tracks, Knows;
    TracksMeans(log, g);
    if HasResult(log, c) {
      var e :| e in log && e.ToolResult? && e.callId == c;
      Known(log, g, e);
    }
  }

  lemma ApprovalAgrees(log: seq<Event>, g: Guard, c: string)
    requires Tracks(log, g) && c in g.calls
    ensures ApprovalFor(log, c) == g.calls[c].approval
  {
    hide CallsOk, RetriesOk, BracketsOk, SuspensionOk, ApprovalFor, Tracks, HasCall, HasResult, HasDecision, HasHeader;
    TracksMeans(log, g);
    if ApprovalFor(log, c).Some? {
      var e :| e in log && e.ApprovalRequest? && e.callId == c && e.approvalId == ApprovalFor(log, c).value;
      Known(log, g, e);
    } else if g.calls[c].approval.Some? {
      assert HasRequest(log, g.calls[c].approval.value);
      var e :| e in log && e.ApprovalRequest? && e.approvalId == g.calls[c].approval.value;
      Known(log, g, e);
    }
  }

  lemma DecisionsAgree(log: seq<Event>, g: Guard, a: string)
    requires Tracks(log, g) && a in g.approvals
    ensures HasDecision(log, a) <==> ApprovalAnswered(g, a)
  {
    hide CallsOk, RetriesOk, BracketsOk, SuspensionOk, Tracks, HasCall, HasResult, HasRequest, HasHeader;
    TracksMeans(log, g);
    if HasDecision(log, a) {
      var e :| e in log && e.ApprovalDecision? && e.approvalId == a;
      Known(log, g, e);
    }
  }

  lemma CallsAgree(log: seq<Event>, g: Guard, c: string)
    requires Tracks(log, g) && c in g.calls
    ensures FirstCall(log, c).Some?
    ensures CallAt(g, c, FirstCall(log, c).value.turn, FirstCall(log, c).value.step)
    ensures OwnsRequest(g, FirstCall(log, c).value)
  {
    hide Coherent, FirstCall, Tracks, HasResult, HasRequest, HasDecision, HasHeader;
    TracksMeans(log, g);
    assert HasCall(log, c);
    var e :| e in log && e.ToolCall? && e.callId == c && e.handle == FirstCall(log, c).value;
    Known(log, g, e);
  }

  lemma PendingAgrees(log: seq<Event>, g: Guard, c: string)
    requires Tracks(log, g) && c in g.calls
    ensures PendingCall(log, c) <==> !CallAnswered(g, c)
  {
    hide CallsOk, RetriesOk, BracketsOk, SuspensionOk, ApprovalFor, Tracks, Witnessed, HasResult, HasDecision;
    TracksMeans(log, g);
    ResultsAgree(log, g, c);
    ApprovalAgrees(log, g, c);
    if g.calls[c].approval.Some? { DecisionsAgree(log, g, g.calls[c].approval.value); }
  }

  // ----- the suspension that is read back -----

  /**
   On every accepted history `readOwnedSuspension` finds each call and each approval of a suspension.
   It throws exactly for a suspension that names no call, and then every approval of it was asked
   for a call that already had its result.
   */
  lemma SuspensionReported(log: seq<Event>)
    requires GuardOf(log).Ok?
    ensures ReadSuspension(log) == Ok(None) <==> LastSuspend(log).None?
    ensures ReadSuspension(log).Err? <==> LastSuspend(log).Some? && LastSuspend(log).value.callIds == []
    ensures ReadSuspension(log).Err? ==> ReadSuspension(log).error == NoOwner
    ensures ReadSuspension(log).Err? ==>
      LastSuspend(log).value.approvalIds != [] &&
      forall e :: e in log && e.ApprovalRequest? && e.approvalId in LastSuspend(log).value.approvalIds ==>
        HasResult(log, e.callId)
  {
    hide Validate, LastSuspend, FirstCall, PendingCalls, PendingApprovals, Tracks, HasCall, HasResult, HasHeader, HasDecision,
      HasRequest, CallsOk, ApprovalsOk, RetriesOk, BracketsOk;
    ScanFindsSuspension(log);
    GuardTracks(log);
    var g := GuardOf(log).value;
    TracksMeans(log, g);
    if LastSuspend(log).Some? {
      var was := LastSuspend(log).value;
      forall c | c in was.callIds ensures FirstCall(log, c).Some? { CallsAgree(log, g, c); }
      forall e | e in log && e.ApprovalRequest? && e.approvalId in was.approvalIds && e.callId !in was.callIds
        ensures HasResult(log, e.callId)
      {
        Known(log, g, e);
        ResultsAgree(log, g, e.callId);
      }
    }
  }

  /**
   The owner is the suspended turn and step, under a request of that step; nothing is pending exactly
   when the guard lets that turn resume.
   */
  lemma OwnerMayResume(log: seq<Event>, cause: string)
    requires GuardOf(log).Ok? && ReadSuspension(log).Ok? && ReadSuspension(log).value.Some?
    ensures var r := ReadSuspension(log).value.value;
      && ModeOf(log) == Some(Paused(r.owner.turn, r.owner.step)) && OwnsRequest(GuardOf(log).value, r.owner)
      && (ReadyToResume(r) <==> Accepts(log, [TurnResume(r.owner.turn, r.owner.step, cause)]))
  {
    hide Validate, LastSuspend, FirstCall, PendingCalls, PendingApprovals, PendingCall, HasRequest, HasDecision, Tracks,
      Witnessed, Allowed, CallAnswered, ApprovalAnswered, CallsOk, ApprovalsOk, RetriesOk, BracketsOk;
    ScanFindsSuspension(log);
    SuspendTracksMode(log);
    GuardTracks(log);
    var g, was := GuardOf(log).value, LastSuspend(log).value;
    TracksMeans(log, g);
    assert was.callIds[0] in g.suspension.value.callIds;
    CallsAgree(log, g, was.callIds[0]);
    NoPendingCalls(log, was.callIds);
    NoPendingApprovals(log, was.approvalIds);
    forall c | c in was.callIds ensures PendingCall(log, c) <==> !CallAnswered(g, c) { PendingAgrees(log, g, c); }
    forall a | a in was.approvalIds ensures HasDecision(log, a) <==> ApprovalAnswered(g, a) { DecisionsAgree(log, g, a); }
    AppendOne(log, TurnResume(was.turn, was.step, cause));
    AllowsResume(g, cause);
  }

  lemma {:induction false} NoPendingCalls(log: seq<Event>, callIds: seq<string>)
    ensures PendingCalls(log, callIds) == [] <==> forall c :: c in callIds ==> !PendingCall(log, c)
    decreases |callIds|
  {
    hide PendingCall;
    if callIds != [] {
      NoPendingCalls(log, callIds[1..]);
      assert callIds == [callIds[0]] + callIds[1..];
      assert callIds[0] in callIds;
    }
  }

  lemma {:induction false} NoPendingApprovals(log: seq<Event>, approvalIds: seq<string>)
    ensures PendingApprovals(log, approvalIds) == [] <==> forall a :: a in approvalIds ==> HasDecision(log, a)
    decreases |approvalIds|
  {
    hide HasDecision;
    if approvalIds != [] {
      NoPendingApprovals(log, approvalIds[1..]);
      assert approvalIds == [approvalIds[0]] + approvalIds[1..];
      assert approvalIds[0] in approvalIds;
    }
  }

  // ----- the suspension a builder writes -----

  /** A suspension just written is read back as it was written exactly when it names a call. */
  lemma SuspensionReadBack(log: seq<Event>, h: Handle, finish: string, callIds: seq<string>, approvalIds: seq<string>)
    requires Accepts(log, ClosingBatch(h, Suspend(finish, callIds, approvalIds)))
    ensures var after := log + ClosingBatch(h, Suspend(finish, callIds, approvalIds));
      && LastSuspend(after) == Some(TurnSuspend(h.turn, h.step, callIds, approvalIds))
      && (ReadSuspension(after).Ok? <==> callIds != [])
  {
    hide Validate, LastSuspend, ReadSuspension, HasResult;
    var batch := ClosingBatch(h, Suspend(finish, callIds, approvalIds));
    assert log + batch == (log + [batch[0]]) + [batch[1]];
    LastSuspendAppend(log + [batch[0]], batch[1]);
    SuspensionReported(log + batch);
  }

  /** The approval of a call was requested after the call had its result. */
  predicate LateApproval(log: seq<Event>, i: int, k: int) {
    0 <= i < k < |log| && log[i].ToolResult? && log[k].ApprovalRequest? && log[i].callId == log[k].callId
  }

  ghost predicate InTime(log: seq<Event>) {
    forall i, k :: !LateApproval(log, i, k)
  }

  lemma InTimePrefix(log: seq<Event>, e: Event)
    requires InTime(log + [e])
    ensures InTime(log) && (e.ApprovalRequest? ==> !HasResult(log, e.callId))
  {
    forall i, k ensures !LateApproval(log, i, k) { assert !LateApproval(log + [e], i, k); }
    if e.ApprovalRequest? && HasResult(log, e.callId) { LateAppend(log, e); }
  }

  lemma LateAppend(log: seq<Event>, e: Event)
    requires e.ApprovalRequest? && HasResult(log, e.callId)
    ensures !InTime(log + [e])
  {
    var f :| f in log && f.ToolResult? && f.callId == e.callId;
    var i :| 0 <= i < |log| && log[i] == f;
    assert LateApproval(log + [e], i, |log|);
  }

  /** A pending approval implies an unresolved call, and a suspension names the call of each of its approvals. */
  ghost predicate Prompt(g: Guard) {
    && (forall a :: a in g.pendingApprovals ==> a in g.approvals && g.approvals[a] in g.unresolvedCalls)
    && (g.suspension.Some? ==>
          g.suspension.value.callIds != [] &&
          forall a :: a in g.suspension.value.approvalIds ==> a in g.approvals && g.approvals[a] in g.suspension.value.callIds)
  }

  lemma PromptStep(g: Guard, e: Event)
    requires Coherent(g) && Prompt(g) && Allowed(g, e)
    requires e.ApprovalRequest? ==> e.callId in g.calls && !g.calls[e.callId].result
    ensures Prompt(After(g, e))
  {
    hide Coherent, WellFormed, BracketRule, ToolRule, RequestRule, RetryRule;
    if Tool(e) { PromptTool(g, e); }
    if e.TurnSuspend? { SuspendIsPrompt(g, e); }
  }

  lemma PromptTool(g: Guard, e: Event)
    requires Coherent(g) && Prompt(g) && Tool(e) && Allowed(g, e)
    requires e.ApprovalRequest? ==> e.callId in g.calls && !g.calls[e.callId].result
    ensures Prompt(After(g, e))
  {
    hide BracketsOk, RetriesOk, SuspensionOk, WellFormed, BracketRule, RequestRule, RetryRule;
  }

  lemma SuspendIsPrompt(g: Guard, e: Event)
    requires Coherent(g) && Prompt(g) && e.TurnSuspend? && Allowed(g, e)
    ensures e.callIds != []
    ensures forall a :: a in e.approvalIds ==> a in g.approvals && g.approvals[a] in e.callIds
  {
    hide BracketsOk, RetriesOk, SuspensionOk, RequestRule, RetryRule, ToolRule, ResumeRule, TurnEndRule, StepEndRule;
    assert SuspendRule(g, e.turn, e.step, e.callIds, e.approvalIds).None?;
    forall a | a in e.approvalIds ensures a in g.approvals && g.approvals[a] in e.callIds {
      assert a in Elements(e.approvalIds);
      assert g.approvals[a] in UnresolvedAt(g, e.turn, e.step);
    }
    if e.approvalIds != [] { assert e.approvalIds[0] in e.approvalIds; }
  }

  lemma {:induction false} InTimeIsPrompt(log: seq<Event>)
    requires GuardOf(log).Ok? && InTime(log)
    ensures Prompt(GuardOf(log).value)
    decreases |log|
  {
    hide Validate, Allowed, After, Coherent, Tracks, InTime, HasResult;
    if log == [] {
      EmptyScan();
    } else {
      var before, e := log[..|log| - 1], log[|log| - 1];
      assert log == before + [e];
      AppendOne(before, e);
      InTimePrefix(before, e);
      InTimeIsPrompt(before);
      GuardTracks(before);
      var g := GuardOf(before).value;
      TracksMeans(before, g);
      if e.ApprovalRequest? {
        AsksForCall(g, e);
        ResultsAgree(before, g, e.callId);
      }
      PromptStep(g, e);
    }
  }

  lemma AsksForCall(g: Guard, e: Event)
    requires e.ApprovalRequest? && Allowed(g, e)
    ensures e.callId in g.calls
  {
  }

  /** When no approval is requested for a call that already has its result, every suspension can be read back. */
  lemma InTimeReadable(log: seq<Event>)
    requires GuardOf(log).Ok? && InTime(log)
    ensures ReadSuspension(log).Ok?
    ensures LastSuspend(log).Some? ==>
      forall e :: e in log && e.ApprovalRequest? && e.approvalId in LastSuspend(log).value.approvalIds ==>
        e.callId in LastSuspend(log).value.callIds
  {
    hide Validate, LastSuspend, ReadSuspension, Tracks, InTime, HasResult;
    InTimeIsPrompt(log);
    SuspensionReported(log);
    ScanFindsSuspension(log);
    GuardTracks(log);
    var g := GuardOf(log).value;
    if LastSuspend(log).Some? {
      forall e | e in log && e.ApprovalRequest? && e.approvalId in LastSuspend(log).value.approvalIds
        ensures e.callId in LastSuspend(log).value.callIds
      {
        Known(log, g, e);
      }
    }
  }

  /** The guard after a call of the open step got its result and then an approval. */
  function Late(g: Guard, h: Handle, c: string, a: string): Guard {
    g.(calls := g.calls[c := Call(h.turn, h.step, Some(a), false, true)], approvals := g.approvals[a := c],
       pendingApprovals := g.pendingApprovals + {a})
  }

  /** In any open step without open calls, a late approval makes a suspension that cannot be read back. */
  lemma LateApprovalUnreadable(log: seq<Event>, h: Handle, c: string, a: string)
    requires GuardOf(log).Ok? && ModeOf(log) == Some(InStep(h.turn, h.step)) && OwnsRequest(GuardOf(log).value, h)
    requires h.request != "" && c != "" && a != "" && c !in GuardOf(log).value.calls && a !in GuardOf(log).value.approvals
    requires GuardOf(log).value.unresolvedCalls == {} && GuardOf(log).value.pendingApprovals == {}
    ensures var late := log + [ToolCall(c, h, "", false), ToolResult(c, h.turn, h.step), ApprovalRequest(a, c, "")];
      var closing := ClosingBatch(h, Suspend("tool-calls", [], [a]));
      && SettleJob(h, "m", "tool-calls", Some(([], [a]))) == Some(Close(h, Suspend("tool-calls", [], [a])))
      && Accepts(late, closing) && ReadSuspension(late + closing) == Err(NoOwner)
  {
    hide Validate, Tracks, Allowed, After, ReadSuspension, LastSuspend;
    var g := GuardOf(log).value;
    GuardTracks(log);
    TracksMeans(log, g);
    var call, result, ask := ToolCall(c, h, "", false), ToolResult(c, h.turn, h.step), ApprovalRequest(a, c, "");
    AppendOne(log, call);
    AppendOne(log + [call], result);
    AppendOne(log + [call] + [result], ask);
    LateAllowed(g, h, c, a);
    var late := log + [call] + [result] + [ask];
    assert late == log + [call, result, ask];
    var closing := ClosingBatch(h, Suspend("tool-calls", [], [a]));
    AppendOne(late, closing[0]);
    AppendOne(late + [closing[0]], closing[1]);
    assert late + closing == late + [closing[0]] + [closing[1]];
    LateSuspends(g, h, c, a);
    SuspensionReadBack(late, h, "tool-calls", [], [a]);
    SuspensionReported(late + closing);
  }

  lemma LateAllowed(g: Guard, h: Handle, c: string, a: string)
    requires Coherent(g) && AtStep(g, h.turn, h.step) && OwnsRequest(g, h) && h.request != "" && c != "" && a != ""
    requires c !in g.calls && a !in g.approvals && g.unresolvedCalls == {}
    ensures Allowed(g, ToolCall(c, h, "", false))
    ensures var one := After(g, ToolCall(c, h, "", false));
      && Allowed(one, ToolResult(c, h.turn, h.step))
      && (var two := After(one, ToolResult(c, h.turn, h.step));
          Allowed(two, ApprovalRequest(a, c, "")) && After(two, ApprovalRequest(a, c, "")) == Late(g, h, c, a))
  {
    hide CallsOk, ApprovalsOk, RetriesOk, SuspensionOk, BracketRule, RequestRule, RetryRule;
  }

  lemma LateSuspends(g: Guard, h: Handle, c: string, a: string)
    requires BracketsOk(g) && ModeIn(g) == InStep(h.turn, h.step) && OwnsRequest(g, h) && h.request != "" && a != ""
    requires g.unresolvedCalls == {} && g.pendingApprovals == {}
    ensures var u := Late(g, h, c, a);
      var closing := ClosingBatch(h, Suspend("tool-calls", [], [a]));
      Allowed(u, closing[0]) && After(u, closing[0]) == u && Allowed(u, closing[1])
  {
    hide ToolRule, RetryRule, ResumeRule, TurnEndRule, StepEndRule;
    var u := Late(g, h, c, a);
    assert UnresolvedAt(u, h.turn, h.step) == Elements([]);
    assert PendingAt(u, h.turn, h.step) == {a} == Elements([a]);
    assert SuspendRule(u, h.turn, h.step, [], [a]).None?;
  }

  // ----- the request a session may open -----

  lemma {:induction false} NumbersAgree(log: seq<Event>)
    requires GuardOf(log).Ok?
    ensures GuardOf(log).value.lastTurn == LastTurn(log) && GuardOf(log).value.lastStep == LastStep(log)
    decreases |log|
  {
    hide Validate, Allowed, After, Tracks, LastTurn, LastStep, Ends, StepEnds, TurnNumbers, StepNumbers;
    if log == [] {
      EmptyNumbers();
    } else {
      var before, e := log[..|log| - 1], log[|log| - 1];
      assert log == before + [e];
      AppendOne(before, e);
      NumbersAgree(before);
      CountsAppend(before, e);
      NumbersMove(GuardOf(before).value, e);
    }
  }

  lemma EmptyNumbers()
    ensures GuardOf([]) == Ok(EMPTY) && LastTurn([]) == 0 && LastStep([]) == 0
  {
  }

  lemma NumbersMove(g: Guard, e: Event)
    requires Allowed(g, e)
    ensures After(g, e).lastTurn == if e.TurnStart? then Max(g.lastTurn, e.turn) else g.lastTurn
    ensures After(g, e).lastStep == if e.StepStart? then Max(g.lastStep, e.step) else g.lastStep
  {
    hide WellFormed, ToolRule, RequestRule, RetryRule, SuspendRule, ResumeRule, TurnEndRule, StepEndRule;
  }

  /** A request id no header of the history carries. */
  predicate NewRequest(log: seq<Event>, request: string) {
    request != "" && !HasHeader(log, request)
  }

  lemma HeadersAgree(log: seq<Event>, request: string)
    requires GuardOf(log).Ok?
    ensures HasHeader(log, request) <==> request in GuardOf(log).value.requests
  {
    hide Validate, Tracks, Coherent, HasCall, HasResult, HasRequest, HasDecision;
    var g := GuardOf(log).value;
    GuardTracks(log);
    TracksMeans(log, g);
    if HasHeader(log, request) {
      var e :| e in log && e.RequestHeader? && e.handle.request == request;
      Known(log, g, e);
    }
  }

  /** The job numbered on the log it was chosen for. */
  function Opening(log: seq<Event>, job: Job): seq<Event> {
    Batch(job, LastTurn(log) + 1, LastStep(log) + 1)
  }

  /**
   The request `beginOwnedChatRequest` chooses lands on the history it was chosen for exactly when
   the session is idle or suspended and the request id is new; a suspended session never falls
   through to a new turn, and a resumed one is the suspended turn and step.
   */
  lemma ChosenRequestLands(log: seq<Event>, request: string)
    requires GuardOf(log).Ok? && ChooseRequest(log, request).Ok?
    ensures var m := ModeOf(log).value;
      var job := ChooseRequest(log, request).value;
      && (job.Begin? <==> !m.Paused?)
      && (job.Resume? ==> m == Paused(job.suspended.turn, job.suspended.step))
      && (Accepts(log, Opening(log, job)) <==> (m == Idle || m.Paused?) && NewRequest(log, request))
  {
    hide Validate, ModeIn, Accepts, LastTurn, LastStep, ReadSuspension, LastSuspend, RequestEvents, HasHeader, ReadyToResume;
    SuspensionReported(log);
    SuspendTracksMode(log);
    NumbersAgree(log);
    HeadersAgree(log, request);
    var job := ChooseRequest(log, request).value;
    if job.Begin? {
      BeginAccepted(log, Handle(LastTurn(log) + 1, LastStep(log) + 1, request));
    } else {
      OwnerMayResume(log, "response");
      ResumeAccepted(log, job.suspended, request);
    }
  }

  /**
   It is the only legal one: a begin or a resume of any handle that the history accepts is the one
   chosen, up to the request id. A suspension that cannot be read back is the one case in which
   nothing is chosen although a resume would land.
   */
  lemma OnlyLegalRequest(log: seq<Event>, job: Job, request: string)
    requires GuardOf(log).Ok? && (job.Begin? || job.Resume?) && Accepts(log, Opening(log, job))
    ensures ChooseRequest(log, request).Ok? || ChooseRequest(log, request) == Err(Unreadable(NoOwner))
    ensures ChooseRequest(log, request).Ok? ==>
      var chosen := ChooseRequest(log, request).value;
      && (chosen.Begin? <==> job.Begin?)
      && (job.Resume? ==>
            && chosen.Resume?
            && job.suspended.turn == chosen.suspended.turn && job.suspended.step == chosen.suspended.step)
  {
    hide Validate, LastTurn, LastStep, ReadSuspension, LastSuspend, RequestEvents, Accepts;
    SuspensionReported(log);
    SuspendTracksMode(log);
    NumbersAgree(log);
    if job.Begin? {
      BeginAccepted(log, Handle(LastTurn(log) + 1, LastStep(log) + 1, job.request));
    } else {
      ResumeAccepted(log, job.suspended, job.request);
      ResumeIsPaused(log, job.suspended);
      if ReadSuspension(log).Ok? {
        OwnerMayResume(log, "response");
        assert ReadSuspension(log).value.value.owner.turn == job.suspended.turn;
        assert ReadSuspension(log).value.value.owner.step == job.suspended.step;
      }
    }
  }

  lemma ResumeIsPaused(log: seq<Event>, h: Handle)
    requires GuardOf(log).Ok? && Accepts(log, [TurnResume(h.turn, h.step, "response")])
    ensures ModeOf(log) == Some(Paused(h.turn, h.step))
  {
    hide Validate, Tracks, Coherent;
    AppendOne(log, TurnResume(h.turn, h.step, "response"));
    GuardTracks(log);
    TracksMeans(log, GuardOf(log).value);
    ResumeOpens(GuardOf(log).value, TurnResume(h.turn, h.step, "response"));
  }

  /** In a suspension the only bracket event the log accepts is the resume of that step. */
  lemma PausedLeavesByResume(log: seq<Event>, e: Event)
    requires ModeOf(log).Some? && ModeOf(log).value.Paused?
    requires Accepts(log, [e])
    ensures LastSuspend(log).Some?
    ensures var was := LastSuspend(log).value;
      LastSuspend(log + [e]) ==
        if e.TurnResume? && e.turn == was.turn && e.step == was.step then None else Some(was)
  {
    hide ModeOf, LastSuspend;
    SuspendTracksMode(log);
    AcceptedMode(log, [e]);
    ModeAppend(log, e);
    LastSuspendAppend(log, e);
  }

  // ----- when it stays ready -----

  /** The session is suspended, its suspension can be read back, and nothing in it is pending. */
  predicate Ready(log: seq<Event>) {
    ReadSuspension(log).Ok? && ReadSuspension(log).value.Some? && ReadyToResume(ReadSuspension(log).value.value)
  }

  /** Ready means: the guard keeps a suspension that names a call, and would let it resume. */
  lemma ReadyMeans(log: seq<Event>)
    requires GuardOf(log).Ok?
    ensures var g := GuardOf(log).value;
      Ready(log) <==> g.suspension.Some? && g.suspension.value.callIds != [] && Answered(g)
  {
    hide Validate, LastSuspend, ReadSuspension, ReadyToResume, Answered, Tracks, Coherent, Allowed;
    var g := GuardOf(log).value;
    SuspensionReported(log);
    ScanFindsSuspension(log);
    if g.suspension.Some? && ReadSuspension(log).Ok? {
      var was := g.suspension.value;
      OwnerMayResume(log, "response");
      SuspendTracksMode(log);
      GuardTracks(log);
      TracksMeans(log, g);
      AppendOne(log, TurnResume(was.turn, was.step, "response"));
      AllowsResume(g, "response");
    }
  }

  lemma CallAnswerStays(g: Guard, e: Event, c: string)
    requires Allowed(g, e) && c in g.calls && CallAnswered(g, c)
    ensures CallAnswered(After(g, e), c)
  {
    hide WellFormed, BracketRule, RequestRule, RetryRule;
  }

  lemma ApprovalAnswerStays(g: Guard, e: Event, a: string)
    requires Allowed(g, e) && a in g.approvals && ApprovalAnswered(g, a)
    ensures ApprovalAnswered(After(g, e), a)
  {
    hide WellFormed, BracketRule, RequestRule, RetryRule;
  }

  /** Results and decisions are final, and no answered call of a suspension gets another approval. */
  lemma AnsweredStays(g: Guard, e: Event)
    requires Coherent(g) && g.suspension.Some? && Answered(g) && Allowed(g, e) && !e.TurnResume?
    ensures After(g, e).suspension == g.suspension && Answered(After(g, e))
  {
    hide CallsOk, ApprovalsOk, RetriesOk, Allowed, After, CallAnswered, ApprovalAnswered;
    SuspensionKept(g, e);
    var was := g.suspension.value;
    forall c | c in was.callIds ensures CallAnswered(After(g, e), c) { CallAnswerStays(g, e, c); }
    forall a | a in was.approvalIds ensures ApprovalAnswered(After(g, e), a) { ApprovalAnswerStays(g, e, a); }
  }

  /** Only the resume takes a suspension away. */
  lemma SuspensionKept(g: Guard, e: Event)
    requires BracketsOk(g) && g.suspension.Some? && Allowed(g, e) && !e.TurnResume?
    ensures After(g, e).suspension == g.suspension
  {
    hide WellFormed, ToolRule, RequestRule, RetryRule;
  }

  /** A ready suspension of an accepted history stays ready, unchanged, until its turn resumes. */
  lemma {:induction false} ReadyStays(log: seq<Event>, events: seq<Event>)
    requires GuardOf(log + events).Ok? && Ready(log)
    requires forall e :: e in events ==> !e.TurnResume?
    ensures Ready(log + events) && LastSuspend(log + events) == LastSuspend(log)
    decreases |events|
  {
    hide Validate, Ready, LastSuspend, Answered, Allowed, After, Tracks, Coherent;
    if events == [] {
      assert log + events == log;
    } else {
      var n := |events| - 1;
      var before, e := log + events[..n], events[n];
      assert log + events == before + [e];
      assert e in events;
      AppendOne(before, e);
      ReadyStays(log, events[..n]);
      ReadyMeans(before);
      ReadyMeans(before + [e]);
      var g := GuardOf(before).value;
      GuardTracks(before);
      TracksMeans(before, g);
      AnsweredStays(g, e);
      ScanFindsSuspension(before);
      ScanFindsSuspension(before + [e]);
    }
  }

  // ----- what a landed batch leaves open -----

  /** What a bracket event leaves open, wherever it is accepted. */
  function Opens(e: Event): Mode
    requires Bracket(e)
  {
    match e
    case TurnStart(t) => InTurn(t)
    case StepStart(t, s) => InStep(t, s)
    case StepEnd(t, _, _) => InTurn(t)
    case TurnEnd(_, _) => Idle
    case TurnSuspend(t, s, _, _) => Paused(t, s)
    case TurnResume(t, s, _) => InStep(t, s)
  }

  lemma LastBracket(log: seq<Event>, batch: seq<Event>, i: nat)
    requires i < |batch| && ModeOf(log + batch).Some? && Bracket(batch[i])
    requires forall e :: e in batch[i + 1..] ==> !Bracket(e)
    ensures ModeOf(log + batch) == Some(Opens(batch[i]))
  {
    hide ModeOf;
    var before := log + batch[..i];
    assert log + batch == (before + [batch[i]]) + batch[i + 1..];
    NeutralKeeps(before + [batch[i]], batch[i + 1..]);
    ModePrefix(before + [batch[i]], batch[i + 1..]);
    ModeAppend(before, batch[i]);
  }

  lemma NeutralRequest(h: Handle, reason: string)
    ensures forall e :: e in RequestEvents(h, reason) ==> !Bracket(e)
  {
  }

  /** The mode of a session once the batch of a job has landed. */
  function Leaves(job: Job, h: Handle, before: Mode): Mode {
    match job
    case Close(_, closing) => if closing.Suspend? then Paused(h.turn, h.step) else Idle
    case Append(_) => before
    case _ => InStep(h.turn, h.step)
  }

  /**
   The handle a builder returns names the step its batch left open; a suspension leaves that step
   paused, every other closer leaves the session idle.
   */
  lemma LandedLeaves(log: seq<Event>, job: Job, turn: nat, step: nat)
    requires Accepts(log, Batch(job, turn, step)) && Queued(job)
    ensures ModeOf(log).Some?
    ensures ModeOf(log + Batch(job, turn, step)) == Some(Leaves(job, HandleOf(job, turn, step), ModeOf(log).value))
  {
    hide ModeOf, RequestEvents, Accepts;
    var batch, h := Batch(job, turn, step), HandleOf(job, turn, step);
    AcceptedMode(log, batch);
    AcceptsFirst(log, batch);
    match job {
      case Begin(_) =>
        NeutralRequest(h, "initial");
        assert batch[3..] == RequestEvents(h, "initial");
        LastBracket(log, batch, 2);
      case NextStep(_, _) =>
        NeutralRequest(h, "step");
        assert batch[2..] == RequestEvents(h, "step");
        LastBracket(log, batch, 1);
      case Resume(_, _) =>
        NeutralRequest(h, "resume");
        assert batch[1..] == RequestEvents(h, "resume");
        LastBracket(log, batch, 0);
      case Append(_) => NeutralKeeps(log, batch);
      case Close(_, _) => LastBracket(log, batch, |batch| - 1);
    }
  }

  // ----- how a turn ends -----

  /**
   The end of a turn stands right behind the end of its step, for the same reason, and a completed
   turn behind a message that was not aborted.
   */
  predicate EndsWhole(log: seq<Event>, i: nat)
    requires i < |log| && log[i].TurnEnd?
  {
    && i > 0 && log[i - 1].StepEnd? && log[i - 1].turn == log[i].turn && log[i - 1].reason == log[i].reason
    && (log[i].reason == "completed" ==> i > 1 && log[i - 2].AssistantMessage? && log[i - 2].finishReason != "abort")
    && (log[i].reason == "provider-error" ==> i > 1 && log[i - 2].RequestFailure?)
  }

  ghost predicate AllEndWhole(log: seq<Event>) {
    forall i :: 0 <= i < |log| && log[i].TurnEnd? ==> EndsWhole(log, i)
  }

  lemma BatchEndsWhole(job: Job, turn: nat, step: nat)
    requires Queued(job)
    ensures AllEndWhole(Batch(job, turn, step))
  {
    var batch := Batch(job, turn, step);
    forall i | 0 <= i < |batch| && batch[i].TurnEnd? ensures EndsWhole(batch, i) {
      assert batch[i] in batch;
      assert "aborted"[0] != "completed"[0] && "provider-error"[0] != "completed"[0];
    }
  }

  lemma WholeAppends(log: seq<Event>, batch: seq<Event>)
    requires AllEndWhole(log) && AllEndWhole(batch)
    ensures AllEndWhole(log + batch)
  {
    hide EndsWhole;
    var all := log + batch;
    forall i | 0 <= i < |all| && all[i].TurnEnd? ensures EndsWhole(all, i) { WholeAt(log, batch, i); }
  }

  lemma WholeAt(log: seq<Event>, batch: seq<Event>, i: nat)
    requires AllEndWhole(log) && AllEndWhole(batch)
    requires i < |log + batch| && (log + batch)[i].TurnEnd?
    ensures EndsWhole(log + batch, i)
  {
    hide AllEndWhole;
    var all := log + batch;
    if i < |log| {
      assert all[i] == log[i];
      WholeIn(log, i);
      assert all[i - 1] == log[i - 1] && (i > 1 ==> all[i - 2] == log[i - 2]);
    } else {
      var k := i - |log|;
      assert all[i] == batch[k];
      WholeIn(batch, k);
      assert all[i - 1] == batch[k - 1] && (k > 1 ==> all[i - 2] == batch[k - 2]);
    }
  }

  lemma WholeIn(log: seq<Event>, i: nat)
    requires AllEndWhole(log) && i < |log| && log[i].TurnEnd?
    ensures EndsWhole(log, i)
  {
  }

  lemma StepEndsWhole(s: State, a: Action)
    requires Inv(s) && Enabled(s, a) && AllEndWhole(s.log)
    ensures AllEndWhole(Apply(s, a).log)
  {
    hide Good, CountsOk, Accepts, AllEndWhole, Batch;
    if a.DoLand? {
      var t := s.tickets[s.next];
      assert StatusOk(s, s.next);
      BatchEndsWhole(t.job, if t.status.Numbered? then t.status.turn else 0, if t.status.Numbered? then t.status.step else 0);
      WholeAppends(s.log, BatchAt(s));
    }
    if a.DoTool? {
      ToolEndsNothing(a.event);
      WholeAppends(s.log, [a.event]);
    }
  }

  lemma ToolEndsNothing(e: Event)
    requires !Bracket(e)
    ensures AllEndWhole([e])
  {
  }

  lemma {:induction false} RunEndsWhole(s: State, acts: seq<Action>)
    requires Inv(s) && AllEndWhole(s.log) && ValidRun(s, acts)
    ensures AllEndWhole(Run(s, acts).log)
    decreases |acts|
  {
    hide Inv, Enabled, Apply, AllEndWhole;
    if acts != [] {
      SessionSafety.StepKeepsInv(s, acts[0]);
      StepEndsWhole(s, acts[0]);
      RunEndsWhole(Apply(s, acts[0]), acts[1..]);
    }
  }

  /** On every run, whatever is interleaved, turns end whole. */
  lemma TurnsEndWhole(acts: seq<Action>)
    requires ValidRun(Init(), acts)
    ensures AllEndWhole(Run(Init(), acts).log)
  {
    hide Inv;
    InitInv();
    RunEndsWhole(Init(), acts);
  }

  // ----- the input that cannot be read back -----

  /** A session that has just begun its first turn meets the conditions of `LateApprovalUnreadable`. */
  lemma FirstTurnOpen(request: string)
    requires request != ""
    ensures var log := Batch(Begin(request), 1, 1);
      var h := Handle(1, 1, request);
      && GuardOf(log).Ok? && ModeOf(log) == Some(InStep(1, 1)) && OwnsRequest(GuardOf(log).value, h)
      && GuardOf(log).value.calls == map[] && GuardOf(log).value.approvals == map[]
      && GuardOf(log).value.unresolvedCalls == {} && GuardOf(log).value.pendingApprovals == {}
  {
    hide Validate, Tracks, ModeIn, ModeOf, Batch, Accepts;
    var h, log := Handle(1, 1, request), Batch(Begin(request), 1, 1);
    EmptyScan();
    EmptyMode();
    BeginAccepted([], h);
    assert [] + log == log;
    LandedLeaves([], Begin(request), 1, 1);
    AcceptedMode([], log);
    AcceptedGuard(log);
    GuardTracks(log);
    BeginEvents(request);
    Known(log, GuardOf(log).value, RequestHeader(h, "initial"));
    NothingCalled(log, GuardOf(log).value);
  }

  lemma AcceptedGuard(log: seq<Event>)
    requires ModeOf(log).Some?
    ensures GuardOf(log).Ok?
  {
  }

  lemma BeginEvents(request: string)
    ensures var log := Batch(Begin(request), 1, 1);
      RequestHeader(Handle(1, 1, request), "initial") in log && forall e :: e in log ==> !Tool(e)
  {
    var log := Batch(Begin(request), 1, 1);
    assert log[3] == RequestHeader(Handle(1, 1, request), "initial");
  }

  lemma NothingCalled(log: seq<Event>, g: Guard)
    requires Tracks(log, g) && forall e :: e in log ==> !Tool(e)
    ensures g.calls == map[] && g.approvals == map[] && g.unresolvedCalls == {} && g.pendingApprovals == {}
  {
    hide Tracks, HasHeader, HasResult, HasDecision, RetriesOk, SuspensionOk, BracketsOk;
    TracksMeans(log, g);
    forall c ensures c !in g.calls { assert !HasCall(log, c); }
    forall a ensures a !in g.approvals { assert !HasRequest(log, a); }
  }

  lemma EmptyMode()
    ensures ModeOf([]) == Some(Idle) && ModeIn(EMPTY) == Idle
  {
  }

  /** The concrete run: a first turn, a call that gets its result, an approval asked for afterwards, and the suspension. */
  lemma UnreadableSuspension()
    ensures var h := Handle(1, 1, "r");
      var late := Batch(Begin("r"), 1, 1) + [ToolCall("c", h, "", false), ToolResult("c", 1, 1), ApprovalRequest("a", "c", "")];
      var closing := ClosingBatch(h, Suspend("tool-calls", [], ["a"]));
      Accepts(late, closing) && ReadSuspension(late + closing) == Err(NoOwner)
  {
    hide GuardOf, ModeOf, ReadSuspension, Accepts, OwnsRequest, Batch;
    FirstTurnOpen("r");
    LateApprovalUnreadable(Batch(Begin("r"), 1, 1), Handle(1, 1, "r"), "c", "a");
  }
}

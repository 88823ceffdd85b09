/** The invariant of the guard, and what an accepted history holds at most once. */
module HistorySafety {
  // The invariant of the guard, what its maps say about the events it accepted, and what an
  // accepted history therefore holds at most once.

  import opened Wrappers
  import opened HistoryModel

  // ----- batches -----

  lemma {:induction false} ValidateConcat(g: Guard, a: seq<Event>, b: seq<Event>)
    ensures Validate(g, a + b) == if Validate(g, a).Err? then Validate(g, a) else Validate(Validate(g, a).value, b)
    decreases |a|
  {
    hide Allowed, After, Broken;
    if a == [] {
      assert a + b == b;
    } else {
      assert (a + b)[1..] == a[1..] + b;
      if Allowed(g, a[0]) { ValidateConcat(After(g, a[0]), a[1..], b); }
    }
  }

  lemma ValidateOne(g: Guard, e: Event)
    ensures Validate(g, [e]) == if Allowed(g, e) then Ok(After(g, e)) else Err(Broken(g, e).value)
  {
    hide Allowed, After, Broken;
    if Allowed(g, e) { assert Validate(g, [e]) == Validate(After(g, e), [e][1..]); }
  }

  lemma ValidateCons(g: Guard, e: Event, rest: seq<Event>)
    ensures Validate(g, [e] + rest) == if Allowed(g, e) then Validate(After(g, e), rest) else Err(Broken(g, e).value)
  {
    hide Allowed, After, Broken;
    assert ([e] + rest)[1..] == rest;
  }

  /** An accepted history was accepted up to every event, which was allowed there. */
  lemma AppendOne(log: seq<Event>, e: Event)
    ensures GuardOf(log + [e]).Ok? <==> GuardOf(log).Ok? && Allowed(GuardOf(log).value, e)
    ensures GuardOf(log + [e]).Ok? ==> GuardOf(log + [e]) == Ok(After(GuardOf(log).value, e))
  {
    hide Validate, Allowed, After, Broken;
    ValidateConcat(EMPTY, log, [e]);
    if GuardOf(log).Ok? { ValidateOne(GuardOf(log).value, e); }
  }

  lemma Prefix(a: seq<Event>, b: seq<Event>)
    requires GuardOf(a + b).Ok?
    ensures GuardOf(a).Ok? && Validate(GuardOf(a).value, b) == GuardOf(a + b)
  {
    hide Validate;
    ValidateConcat(EMPTY, a, b);
  }

  // ----- the invariant of the guard -----

  predicate BracketsOk(g: Guard) {
    && (g.openStep.Some? ==> g.openTurn.Some? && g.openStep.value == g.lastStep > 0)
    && (g.openTurn.Some? ==> g.openTurn.value == g.lastTurn > 0)
    && (g.suspension.Some? ==> AtStep(g, g.suspension.value.turn, g.suspension.value.step))
  }

  /** A call without a result belongs to the open step. */
  ghost predicate CallsOk(g: Guard) {
    && (forall c :: c in g.unresolvedCalls <==> c in g.calls && !g.calls[c].result)
    && (forall c :: c in g.unresolvedCalls ==> AtStep(g, g.calls[c].turn, g.calls[c].step))
    && (forall c :: c in g.calls ==> 0 < g.calls[c].turn <= g.lastTurn && 0 < g.calls[c].step <= g.lastStep)
  }

  /** Approvals and calls name each other, one to one. */
  ghost predicate ApprovalsOk(g: Guard) {
    && (forall a :: a in g.approvals ==> g.approvals[a] in g.calls && g.calls[g.approvals[a]].approval == Some(a))
    && (forall c :: c in g.calls && g.calls[c].approval.Some? ==>
          g.calls[c].approval.value in g.approvals && g.approvals[g.calls[c].approval.value] == c)
    && (forall c :: c in g.calls && g.calls[c].decided ==> g.calls[c].approval.Some?)
    && (forall a :: a in g.pendingApprovals <==> a in g.approvals && !g.calls[g.approvals[a]].decided)
  }

  ghost predicate RetriesOk(g: Guard) {
    && (forall r :: r in g.pendingRetries <==> r in g.retries && (g.retries[r].phase == Scheduled || g.retries[r].phase == Started))
    && (forall r :: r in g.retries ==> g.retries[r].request in g.requests)
  }

  /** A suspension names calls of its step, and each approval of it belongs to one of them or to a call with a result. */
  predicate SuspensionOk(g: Guard) {
    g.suspension.Some? ==>
      var was := g.suspension.value;
      && (was.callIds != [] || was.approvalIds != [])
      && (forall c :: c in was.callIds ==> CallAt(g, c, was.turn, was.step))
      && (forall a :: a in was.approvalIds ==>
            && a in g.approvals && CallAt(g, g.approvals[a], was.turn, was.step)
            && (g.approvals[a] in was.callIds || g.calls[g.approvals[a]].result))
  }

  ghost predicate Coherent(g: Guard) {
    BracketsOk(g) && CallsOk(g) && ApprovalsOk(g) && RetriesOk(g) && SuspensionOk(g)
  }

  lemma EmptyCoherent()
    ensures Coherent(EMPTY)
  {
  }

  lemma BracketKeepsCoherent(g: Guard, e: Event)
    requires Coherent(g) && Bracket(e) && Allowed(g, e)
    ensures Coherent(After(g, e))
  {
    hide ApprovalsOk, RetriesOk, SuspensionOk, WellFormed, RequestRule, RetryRule, ToolRule, ResumeRule;
    var u := AfterBracket(g, e);
    BracketKeepsSuspension(g, e);
    assert ApprovalsOk(u) && RetriesOk(u) by { SameRecords(g, u); }
    if e.StepEnd? {
      assert StepEndRule(g, e.turn, e.step).None?;
    }
    if e.TurnEnd? {
      assert TurnEndRule(g, e.turn).None?;
      assert g.openStep.None?;
    }
  }

  lemma BracketKeepsSuspension(g: Guard, e: Event)
    requires Coherent(g) && Bracket(e) && Allowed(g, e)
    ensures SuspensionOk(After(g, e))
  {
    hide BracketsOk, RetriesOk, RequestRule, RetryRule, ToolRule, ResumeRule, TurnEndRule, StepEndRule;
    if e.TurnSuspend? {
      assert SuspendRule(g, e.turn, e.step, e.callIds, e.approvalIds).None?;
      forall c | c in e.callIds ensures CallAt(g, c, e.turn, e.step) { assert c in Elements(e.callIds); }
      forall a | a in e.approvalIds
        ensures a in g.approvals && CallAt(g, g.approvals[a], e.turn, e.step)
        ensures g.approvals[a] in e.callIds || g.calls[g.approvals[a]].result
      {
        assert a in Elements(e.approvalIds);
        if !g.calls[g.approvals[a]].result { assert g.approvals[a] in UnresolvedAt(g, e.turn, e.step); }
      }
    }
  }

  lemma SameRecords(g: Guard, u: Guard)
    requires ApprovalsOk(g) && RetriesOk(g)
    requires u.calls == g.calls && u.approvals == g.approvals && u.pendingApprovals == g.pendingApprovals
    requires u.retries == g.retries && u.pendingRetries == g.pendingRetries && u.requests == g.requests
    ensures ApprovalsOk(u) && RetriesOk(u)
  {
  }

  lemma ToolKeepsCoherent(g: Guard, e: Event)
    requires Coherent(g) && Tool(e) && Allowed(g, e)
    ensures Coherent(After(g, e))
  {
    hide RetriesOk, CallsOk, ApprovalsOk, SuspensionOk, ToolRule, WellFormed;
    var u := After(g, e);
    assert RetriesOk(u) by { SameRetries(g, u); }
    ToolKeepsCalls(g, e);
    ToolKeepsSuspension(g, e);
    match e {
      case ToolCall(c, h, _, _) => CallKeepsApprovals(g, e);
      case ToolResult(c, _, _) => ResultKeepsApprovals(g, e);
      case ApprovalRequest(a, c, _) => AskKeepsApprovals(g, e);
      case ApprovalDecision(a, c, _) => DecisionKeepsApprovals(g, e);
    }
  }

  lemma SameRetries(g: Guard, u: Guard)
    requires RetriesOk(g)
    requires u.retries == g.retries && u.pendingRetries == g.pendingRetries && u.requests == g.requests
    ensures RetriesOk(u)
  {
  }

  lemma ToolKeepsSuspension(g: Guard, e: Event)
    requires SuspensionOk(g) && Tool(e) && Allowed(g, e)
    ensures SuspensionOk(After(g, e))
  {
    hide WellFormed, BracketRule, RequestRule, RetryRule;
  }

  lemma ToolKeepsCalls(g: Guard, e: Event)
    requires CallsOk(g) && BracketsOk(g) && Tool(e) && Allowed(g, e)
    ensures CallsOk(After(g, e)) && BracketsOk(After(g, e))
  {
    hide CallsOk, WellFormed, ToolRule, BracketRule, RequestRule, RetryRule;
    if e.ToolCall? { NewCall(g, e); }
    else if e.ToolResult? { NewResult(g, e); }
    else { OldCalls(g, e); }
  }

  lemma NewCall(g: Guard, e: Event)
    requires CallsOk(g) && BracketsOk(g) && e.ToolCall? && Allowed(g, e)
    ensures CallsOk(After(g, e))
  {
    hide WellFormed, BracketRule, RequestRule, RetryRule;
  }

  lemma NewResult(g: Guard, e: Event)
    requires CallsOk(g) && e.ToolResult? && Allowed(g, e)
    ensures CallsOk(After(g, e))
  {
    hide WellFormed, BracketRule, RequestRule, RetryRule;
  }

  lemma OldCalls(g: Guard, e: Event)
    requires CallsOk(g) && (e.ApprovalRequest? || e.ApprovalDecision?) && Allowed(g, e)
    ensures CallsOk(After(g, e))
  {
    hide WellFormed, BracketRule, RequestRule, RetryRule;
  }

  lemma CallKeepsApprovals(g: Guard, e: Event)
    requires ApprovalsOk(g) && e.ToolCall? && Allowed(g, e)
    ensures ApprovalsOk(After(g, e))
  {
    hide WellFormed, BracketRule, RequestRule, RetryRule;
  }

  lemma ResultKeepsApprovals(g: Guard, e: Event)
    requires ApprovalsOk(g) && e.ToolResult? && Allowed(g, e)
    ensures ApprovalsOk(After(g, e))
  {
    hide WellFormed, BracketRule, RequestRule, RetryRule;
  }

  lemma AskKeepsApprovals(g: Guard, e: Event)
    requires ApprovalsOk(g) && e.ApprovalRequest? && Allowed(g, e)
    ensures ApprovalsOk(After(g, e))
  {
    hide WellFormed, BracketRule, RequestRule, RetryRule;
  }

  lemma DecisionKeepsApprovals(g: Guard, e: Event)
    requires ApprovalsOk(g) && e.ApprovalDecision? && Allowed(g, e)
    ensures ApprovalsOk(After(g, e))
  {
    hide WellFormed, BracketRule, RequestRule, RetryRule;
  }

  lemma RequestKeepsCoherent(g: Guard, e: Event)
    requires Coherent(g) && !Tool(e) && !Bracket(e) && Allowed(g, e)
    ensures Coherent(After(g, e))
  {
    hide CallsOk, ApprovalsOk, RetriesOk, SuspensionOk, WellFormed, BracketRule, ToolRule, RequestRule, RetryRule;
    RequestKeepsRetries(g, e);
    SameCalls(g, After(g, e));
  }

  lemma SameCalls(g: Guard, u: Guard)
    requires CallsOk(g) && ApprovalsOk(g) && SuspensionOk(g)
    requires u.suspension == g.suspension
    requires u.openTurn == g.openTurn && u.openStep == g.openStep && u.lastTurn == g.lastTurn && u.lastStep == g.lastStep
    requires u.calls == g.calls && u.unresolvedCalls == g.unresolvedCalls
    requires u.approvals == g.approvals && u.pendingApprovals == g.pendingApprovals
    ensures CallsOk(u) && ApprovalsOk(u) && SuspensionOk(u)
  {
  }

  lemma RequestKeepsRetries(g: Guard, e: Event)
    requires RetriesOk(g) && !Tool(e) && !Bracket(e) && Allowed(g, e)
    ensures RetriesOk(After(g, e))
  {
    hide WellFormed, BracketRule, ToolRule, AssistantRule;
  }

  lemma StepKeepsCoherent(g: Guard, e: Event)
    requires Coherent(g) && Allowed(g, e)
    ensures Coherent(After(g, e))
  {
    hide Coherent, Allowed, After;
    if Bracket(e) { BracketKeepsCoherent(g, e); }
    else if Tool(e) { ToolKeepsCoherent(g, e); }
    else { RequestKeepsCoherent(g, e); }
  }

  // ----- what the guard knows of an event it accepted -----

  predicate Knows(g: Guard, e: Event) {
    match e
    case TurnStart(t) => t <= g.lastTurn
    case StepStart(_, s) => s <= g.lastStep
    case TurnEnd(t, _) => t <= g.lastTurn && g.openTurn != Some(t)
    case StepEnd(_, s, _) => s <= g.lastStep && g.openStep != Some(s)
    case RequestHeader(h, _) => OwnsRequest(g, h)
    case ToolCall(c, h, _, _) => CallAt(g, c, h.turn, h.step) && OwnsRequest(g, h)
    case ToolResult(c, _, _) => c in g.calls && g.calls[c].result
    case ApprovalRequest(a, c, _) => a in g.approvals && g.approvals[a] == c
    case ApprovalDecision(a, c, _) => a in g.approvals && g.approvals[a] == c && c in g.calls && g.calls[c].decided
    case RetryScheduled(r, _, _, _) => r in g.retries
    case _ => true
  }

  lemma KnowsNew(g: Guard, e: Event)
    requires Coherent(g) && Allowed(g, e)
    ensures Knows(After(g, e), e)
  {
    hide CallsOk, RetriesOk, ApprovalsOk, SuspensionOk, WellFormed;
  }

  lemma KnowsStays(g: Guard, e: Event, f: Event)
    requires Coherent(g) && Allowed(g, e) && Knows(g, f)
    ensures Knows(After(g, e), f)
  {
    hide Coherent, Knows, WellFormed, BracketRule, ToolRule, RequestRule, RetryRule;
    if Bracket(e) { KnowsBracket(g, e, f); }
    else if Tool(e) { KnowsTool(g, e, f); }
    else { KnowsRequest(g, e, f); }
  }

  lemma KnowsBracket(g: Guard, e: Event, f: Event)
    requires Coherent(g) && Bracket(e) && Allowed(g, e) && Knows(g, f)
    ensures Knows(After(g, e), f)
  {
    hide CallsOk, RetriesOk, ApprovalsOk, SuspensionOk, WellFormed, ToolRule, RequestRule, RetryRule;
  }

  lemma KnowsTool(g: Guard, e: Event, f: Event)
    requires Coherent(g) && Tool(e) && Allowed(g, e) && Knows(g, f)
    ensures Knows(After(g, e), f)
  {
    hide CallsOk, RetriesOk, ApprovalsOk, SuspensionOk, WellFormed, BracketRule, RequestRule, RetryRule;
  }

  lemma KnowsRequest(g: Guard, e: Event, f: Event)
    requires Coherent(g) && !Tool(e) && !Bracket(e) && Allowed(g, e) && Knows(g, f)
    ensures Knows(After(g, e), f)
  {
    hide CallsOk, RetriesOk, ApprovalsOk, SuspensionOk, WellFormed, BracketRule, ToolRule;
  }

  // ----- what the history holds for each entry of the guard -----

  /** Every entry came from an event. */
  ghost predicate Witnessed(log: seq<Event>, g: Guard) {
    && (forall c :: c in g.calls ==> HasCall(log, c) && (g.calls[c].result ==> HasResult(log, c)))
    && (forall a :: a in g.approvals ==>
          HasRequest(log, a) && (g.approvals[a] in g.calls && g.calls[g.approvals[a]].decided ==> HasDecision(log, a)))
    && (forall r :: r in g.requests ==> HasHeader(log, r))
  }

  lemma HasGrows(log: seq<Event>, e: Event)
    ensures forall c :: HasCall(log + [e], c) <==> HasCall(log, c) || (e.ToolCall? && e.callId == c)
    ensures forall c :: HasResult(log + [e], c) <==> HasResult(log, c) || (e.ToolResult? && e.callId == c)
    ensures forall a :: HasRequest(log + [e], a) <==> HasRequest(log, a) || (e.ApprovalRequest? && e.approvalId == a)
    ensures forall a :: HasDecision(log + [e], a) <==> HasDecision(log, a) || (e.ApprovalDecision? && e.approvalId == a)
    ensures forall r :: HasHeader(log + [e], r) <==> HasHeader(log, r) || (e.RequestHeader? && e.handle.request == r)
  {
    assert forall f :: f in log ==> f in log + [e];
    assert e in log + [e];
  }

  lemma WitnessedStep(log: seq<Event>, g: Guard, e: Event)
    requires Coherent(g) && Witnessed(log, g) && Allowed(g, e)
    ensures Witnessed(log + [e], After(g, e))
  {
    hide HasCall, HasResult, HasRequest, HasDecision, HasHeader, Coherent, WellFormed,
      BracketRule, ToolRule, RetryRule, AfterTool;
    if Tool(e) { WitnessedTool(log, g, e); } else { HasGrows(log, e); }
  }

  lemma WitnessedTool(log: seq<Event>, g: Guard, e: Event)
    requires Coherent(g) && Witnessed(log, g) && Tool(e) && Allowed(g, e)
    ensures Witnessed(log + [e], After(g, e))
  {
    hide HasCall, HasResult, HasRequest, HasDecision, HasHeader, BracketsOk, CallsOk, RetriesOk, SuspensionOk, WellFormed,
      BracketRule, RequestRule, RetryRule;
    HasGrows(log, e);
  }

  /** The guard of an accepted history is coherent, knows each event, and holds nothing else. */
  ghost predicate Tracks(log: seq<Event>, g: Guard) {
    Coherent(g) && Witnessed(log, g) && forall e :: e in log ==> Knows(g, e)
  }

  lemma {:induction false} GuardTracks(log: seq<Event>)
    requires GuardOf(log).Ok?
    ensures Tracks(log, GuardOf(log).value)
    decreases |log|
  {
    hide Coherent, Witnessed, Knows, Allowed, After, Validate;
    if log == [] {
      EmptyTracks();
    } else {
      var n := |log| - 1;
      var before, e := log[..n], log[n];
      assert log == before + [e];
      AppendOne(before, e);
      GuardTracks(before);
      var g := GuardOf(before).value;
      StepKeepsCoherent(g, e);
      WitnessedStep(before, g, e);
      KnowsNew(g, e);
      forall f | f in log ensures Knows(After(g, e), f) {
        if f in before { KnowsStays(g, e, f); }
      }
    }
  }

  lemma EmptyTracks()
    ensures GuardOf([]) == Ok(EMPTY) && Tracks([], EMPTY)
  {
    EmptyCoherent();
  }

  lemma Known(log: seq<Event>, g: Guard, e: Event)
    requires Tracks(log, g) && e in log
    ensures e.ToolCall? ==> CallAt(g, e.callId, e.handle.turn, e.handle.step) && OwnsRequest(g, e.handle)
    ensures e.RequestHeader? ==> OwnsRequest(g, e.handle)
    ensures e.ToolResult? ==> e.callId in g.calls && g.calls[e.callId].result
    ensures e.ApprovalRequest? ==> e.approvalId in g.approvals && g.approvals[e.approvalId] == e.callId
    ensures e.ApprovalDecision? ==>
      && e.approvalId in g.approvals && g.approvals[e.approvalId] == e.callId
      && e.callId in g.calls && g.calls[e.callId].decided
  {
    hide Coherent, Witnessed;
    assert Knows(g, e);
  }

  lemma TracksMeans(log: seq<Event>, g: Guard)
    requires Tracks(log, g)
    ensures Coherent(g) && Witnessed(log, g)
  {
  }

  // ----- at most once -----

  /** Two events of which an accepted history holds at most one. */
  predicate Repeats(e: Event, f: Event) {
    match e
    case TurnStart(t) => f.TurnStart? && f.turn == t
    case StepStart(_, s) => f.StepStart? && f.step == s
    case TurnEnd(t, _) => f.TurnEnd? && f.turn == t
    case StepEnd(_, s, _) => f.StepEnd? && f.step == s
    case RequestHeader(h, _) => f.RequestHeader? && f.handle.request == h.request
    case ToolCall(c, _, _, _) => f.ToolCall? && f.callId == c
    case ToolResult(c, _, _) => f.ToolResult? && f.callId == c
    case ApprovalRequest(a, c, _) => f.ApprovalRequest? && (f.approvalId == a || f.callId == c)
    case ApprovalDecision(a, c, _) => f.ApprovalDecision? && (f.approvalId == a || f.callId == c)
    case RetryScheduled(r, _, _, _) => f.RetryScheduled? && f.retryId == r
    case _ => false
  }

  lemma KnownIsRefused(g: Guard, e: Event, f: Event)
    requires Coherent(g) && Knows(g, e) && Repeats(e, f)
    ensures !Allowed(g, f)
  {
    hide WellFormed, CallsOk, RetriesOk, SuspensionOk;
  }

  /**
   Whoever writes to it, an accepted history holds at most one start and one end of a turn and of a
   step, one header per request, one call and one result per call id, one approval request and one
   decision per approval and per call, and one schedule per retry.
   */
  lemma EachOnce(log: seq<Event>, i: nat, k: nat)
    requires GuardOf(log).Ok? && i < k < |log|
    ensures !Repeats(log[i], log[k])
  {
    hide Validate, Coherent, Knows, Repeats, Allowed, After;
    assert log == (log[..k] + [log[k]]) + log[k + 1..];
    Prefix(log[..k] + [log[k]], log[k + 1..]);
    AppendOne(log[..k], log[k]);
    GuardTracks(log[..k]);
    assert log[..k][i] == log[i];
    assert log[i] in log[..k];
    if Repeats(log[i], log[k]) { KnownIsRefused(GuardOf(log[..k]).value, log[i], log[k]); }
  }
}

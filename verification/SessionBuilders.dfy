/** What each builder needs. */
module SessionBuilders {
  // When the guard accepts the batch of a builder: for each of them exactly the condition, read off
  // the report of the guard.

  import opened Wrappers
  import opened HistoryModel
  import opened HistorySafety
  import opened SessionModel
  import opened SessionSafety

  predicate OpenAt(log: seq<Event>, h: Handle) {
    ModeOf(log) == Some(InStep(h.turn, h.step))
  }

  /** A request id the guard has not seen. */
  predicate Unused(g: Guard, request: string) {
    request != "" && request !in g.requests
  }

  /** Nothing in the history holds the closer back; a caller reads this off the report of the guard. */
  predicate Closable(g: Guard, h: Handle, closing: Closing) {
    && g.unresolvedCalls == {} && g.pendingRetries == {}
    && match closing
       case Fail(n) => h.request in g.requests && g.requests[h.request].lastAttempt == n > 0 && h.request != ""
       case Complete(finish) => OwnsRequest(g, h) && h.request != "" && finish != ""
       case _ => true
  }

  // ----- closing an open step -----

  lemma EndOfStep(g: Guard, turn: nat, step: nat, why: string, reason: string)
    requires Coherent(g)
    ensures Validate(g, [StepEnd(turn, step, why), TurnEnd(turn, reason)]).Ok? <==>
      ModeIn(g) == InStep(turn, step) && g.unresolvedCalls == {} && g.pendingRetries == {}
  {
    hide Validate, ApprovalsOk, RetriesOk, SuspensionOk, ToolRule, RequestRule, RetryRule, Allowed, After;
    var e, f := StepEnd(turn, step, why), TurnEnd(turn, reason);
    ValidateCons(g, e, [f]);
    assert [e] + [f] == [e, f];
    AllowsStepEnd(g, turn, step, why);
    if Allowed(g, e) {
      ValidateOne(After(g, e), f);
      AllowsTurnEnd(g, turn, step, why, reason);
    }
  }

  lemma AllowsStepEnd(g: Guard, turn: nat, step: nat, why: string)
    requires Coherent(g)
    ensures Allowed(g, StepEnd(turn, step, why)) <==> ModeIn(g) == InStep(turn, step) && g.unresolvedCalls == {}
  {
    hide ApprovalsOk, RetriesOk, SuspensionOk, ToolRule, RequestRule, RetryRule;
    if Allowed(g, StepEnd(turn, step, why)) { assert StepEndRule(g, turn, step).None?; }
  }

  lemma AllowsTurnEnd(g: Guard, turn: nat, step: nat, why: string, reason: string)
    requires Coherent(g) && Allowed(g, StepEnd(turn, step, why))
    ensures Allowed(After(g, StepEnd(turn, step, why)), TurnEnd(turn, reason)) <==> g.pendingRetries == {}
  {
    hide ApprovalsOk, RetriesOk, SuspensionOk, ToolRule, RequestRule, RetryRule, StepEndRule;
    AllowsStepEnd(g, turn, step, why);
  }

  /** Fail, abort and complete are accepted exactly on their open step when nothing holds them back. */
  lemma CloserAccepted(log: seq<Event>, h: Handle, closing: Closing)
    requires GuardOf(log).Ok? && (closing.Fail? || closing.Abort? || closing.Complete?)
    ensures Accepts(log, ClosingBatch(h, closing)) <==> OpenAt(log, h) && Closable(GuardOf(log).value, h, closing)
    ensures Accepts(log, ClosingBatch(h, closing)) ==> Closed(log + ClosingBatch(h, closing), h)
  {
    hide Validate, Coherent, Knows, Witnessed, Allowed, After;
    var g, batch := GuardOf(log).value, ClosingBatch(h, closing);
    var n := |batch|;
    GuardTracks(log);
    ValidateConcat(EMPTY, log, batch);
    assert batch[n - 1] in log + batch;
    EndOfStep(g, h.turn, h.step, batch[n - 2].reason, batch[n - 1].reason);
    if !closing.Abort? {
      assert batch == [batch[0]] + [batch[1], batch[2]];
      ValidateCons(g, batch[0], [batch[1], batch[2]]);
      AllowsMessage(g, h, closing);
    }
  }

  lemma AllowsMessage(g: Guard, h: Handle, closing: Closing)
    requires Coherent(g) && (closing.Fail? || closing.Complete?)
    ensures ModeIn(g) == InStep(h.turn, h.step) && g.unresolvedCalls == {} && g.pendingRetries == {} ==>
      (Allowed(g, ClosingBatch(h, closing)[0]) <==> Closable(g, h, closing))
    ensures Allowed(g, ClosingBatch(h, closing)[0]) ==> After(g, ClosingBatch(h, closing)[0]) == g
  {
    hide CallsOk, ApprovalsOk, RetriesOk, SuspensionOk, ToolRule, BracketRule, RetryRule;
  }

  // ----- opening a request -----

  /** The three request events are allowed exactly for a new request id in the open step. */
  lemma RequestAllowed(g: Guard, h: Handle, reason: string)
    requires Coherent(g) && g.openTurn.Some? && g.openStep.Some?
    requires h.turn == g.openTurn.value && h.step == g.openStep.value
    ensures Validate(g, RequestEvents(h, reason)).Ok? <==> Unused(g, h.request)
  {
    hide Validate, CallsOk, ApprovalsOk, RetriesOk, SuspensionOk, BracketRule, ToolRule, RetryRule;
    var e, f, k := RequestHeader(h, reason), RequestContext(h.request), RequestAttempt(h.request, 1, None);
    assert RequestEvents(h, reason) == [e] + ([f] + [k]);
    ValidateCons(g, e, [f] + [k]);
    if Allowed(g, e) {
      var u := After(g, e);
      ValidateCons(u, f, [k]);
      ValidateOne(u, k);
    }
  }

  lemma BeginAccepted(log: seq<Event>, h: Handle)
    requires GuardOf(log).Ok? && h.turn > GuardOf(log).value.lastTurn && h.step > GuardOf(log).value.lastStep
    ensures Accepts(log, Batch(Begin(h.request), h.turn, h.step)) <==>
      ModeOf(log).value == Idle && Unused(GuardOf(log).value, h.request)
  {
    hide Validate, RequestEvents, Tracks, Allowed, After;
    var g, batch := GuardOf(log).value, Batch(Begin(h.request), h.turn, h.step);
    GuardTracks(log);
    TracksMeans(log, g);
    ValidateConcat(EMPTY, log, batch);
    var e, f, k := TurnStart(h.turn), UserMessage(h.turn), StepStart(h.turn, h.step);
    var rest := RequestEvents(h, "initial");
    assert batch == [e] + ([f] + ([k] + rest));
    ValidateCons(g, e, [f] + ([k] + rest));
    TurnAllowed(g, h);
    if Allowed(g, e) {
      var u := After(g, e);
      ValidateCons(u, f, [k] + rest);
      ValidateCons(u, k, rest);
      RequestAllowed(After(u, k), h, "initial");
    }
  }

  lemma TurnAllowed(g: Guard, h: Handle)
    requires Coherent(g) && h.turn > g.lastTurn && h.step > g.lastStep
    ensures Allowed(g, TurnStart(h.turn)) <==> ModeIn(g) == Idle
    ensures Allowed(g, TurnStart(h.turn)) ==>
      var u := After(g, TurnStart(h.turn));
      && Allowed(u, UserMessage(h.turn)) && After(u, UserMessage(h.turn)) == u && Allowed(u, StepStart(h.turn, h.step))
      && (var v := After(u, StepStart(h.turn, h.step));
          Coherent(v) && v.openTurn == Some(h.turn) && v.openStep == Some(h.step) && v.requests == g.requests)
  {
    hide CallsOk, ApprovalsOk, RetriesOk, SuspensionOk, ToolRule, RetryRule, SuspendRule, ResumeRule, TurnEndRule, StepEndRule;
    var e, k := TurnStart(h.turn), StepStart(h.turn, h.step);
    if Allowed(g, e) {
      StepKeepsCoherent(g, e);
      StepKeepsCoherent(After(g, e), k);
    }
  }

  lemma ResumeAccepted(log: seq<Event>, h: Handle, request: string)
    requires GuardOf(log).Ok?
    ensures Accepts(log, Batch(Resume(h, request), 0, 0)) <==>
      && Accepts(log, [TurnResume(h.turn, h.step, "response")])
      && Unused(GuardOf(log).value, request)
  {
    hide Validate, RequestEvents, Tracks, Allowed, After;
    var g, next := GuardOf(log).value, Handle(h.turn, h.step, request);
    var e, rest := TurnResume(h.turn, h.step, "response"), RequestEvents(next, "resume");
    GuardTracks(log);
    TracksMeans(log, g);
    AppendOne(log, e);
    ValidateConcat(EMPTY, log, [e] + rest);
    ValidateCons(g, e, rest);
    if Allowed(g, e) {
      ResumeOpens(g, e);
      RequestAllowed(After(g, e), next, "resume");
    }
  }

  lemma ResumeOpens(g: Guard, e: Event)
    requires Coherent(g) && e.TurnResume? && Allowed(g, e)
    ensures var u := After(g, e);
      Coherent(u) && u.openTurn == Some(e.turn) && u.openStep == Some(e.step) && u.requests == g.requests
    ensures g.suspension.Some? && AtStep(g, e.turn, e.step)
  {
    hide Coherent, WellFormed, ToolRule, RequestRule, RetryRule;
    StepKeepsCoherent(g, e);
    assert ResumeRule(g, e.turn, e.step).None?;
  }

  // ----- leaving a suspension -----

  /** When the guard allows the resume of the suspended step. */
  predicate Answered(g: Guard)
    requires g.suspension.Some?
  {
    && (forall c :: c in g.suspension.value.callIds ==> CallAnswered(g, c))
    && (forall a :: a in g.suspension.value.approvalIds ==> ApprovalAnswered(g, a))
  }

  lemma AllowsResume(g: Guard, cause: string)
    requires Coherent(g) && g.suspension.Some?
    ensures Allowed(g, TurnResume(g.suspension.value.turn, g.suspension.value.step, cause)) <==> Answered(g)
  {
    hide CallsOk, ApprovalsOk, RetriesOk, SuspensionOk, CallAnswered, ApprovalAnswered, ToolRule, RequestRule, RetryRule;
    var was := g.suspension.value;
    assert ResumeRule(g, was.turn, was.step).None? <==> Answered(g);
  }

  /** A suspension may be cancelled once all its calls have results, its approvals are decided and no retry is pending. */
  lemma CancelAccepted(log: seq<Event>, h: Handle)
    requires GuardOf(log).Ok?
    ensures var g := GuardOf(log).value;
      Accepts(log, ClosingBatch(h, Cancel)) <==>
        && ModeOf(log) == Some(Paused(h.turn, h.step)) && g.unresolvedCalls == {} && g.pendingRetries == {}
        && g.suspension.Some? && forall a :: a in g.suspension.value.approvalIds ==> ApprovalAnswered(g, a)
  {
    hide Validate, Tracks, Allowed, After, ApprovalsOk, RetriesOk, ApprovalAnswered;
    var g := GuardOf(log).value;
    var e, rest := TurnResume(h.turn, h.step, "cancel"), [StepEnd(h.turn, h.step, "aborted"), TurnEnd(h.turn, "aborted")];
    GuardTracks(log);
    TracksMeans(log, g);
    ValidateConcat(EMPTY, log, [e] + rest);
    assert ClosingBatch(h, Cancel) == [e] + rest;
    ValidateCons(g, e, rest);
    if Allowed(g, e) {
      ResumeOpens(g, e);
      ResumeKeeps(g, e);
      EndOfStep(After(g, e), h.turn, h.step, "aborted", "aborted");
    }
    if ModeOf(log) == Some(Paused(h.turn, h.step)) { AllowsResume(g, "cancel"); }
  }

  lemma ResumeKeeps(g: Guard, e: Event)
    requires e.TurnResume? && Allowed(g, e)
    ensures After(g, e) == g.(suspension := None)
  {
    hide WellFormed, ToolRule, RequestRule, RetryRule, ResumeRule;
  }

  // ----- suspending and moving on -----

  /** The batch suspends exactly the open step, with all its unresolved calls and undecided approvals. */
  lemma SuspendAccepted(log: seq<Event>, h: Handle, finish: string, callIds: seq<string>, approvalIds: seq<string>)
    requires GuardOf(log).Ok?
    ensures var g := GuardOf(log).value;
      Accepts(log, ClosingBatch(h, Suspend(finish, callIds, approvalIds))) <==>
        && OpenAt(log, h) && OwnsRequest(g, h) && h.request != "" && finish != ""
        && (callIds != [] || approvalIds != []) && "" !in callIds && "" !in approvalIds
        && Distinct(callIds) && Elements(callIds) == g.unresolvedCalls
        && Distinct(approvalIds) && Elements(approvalIds) == PendingAt(g, h.turn, h.step)
  {
    hide Validate, Tracks, Allowed, After, ApprovalsOk, RetriesOk, SuspensionOk, PendingAt, Distinct, Elements;
    var g := GuardOf(log).value;
    var e, f := AssistantMessage(h, finish), TurnSuspend(h.turn, h.step, callIds, approvalIds);
    GuardTracks(log);
    TracksMeans(log, g);
    ValidateConcat(EMPTY, log, [e] + [f]);
    assert ClosingBatch(h, Suspend(finish, callIds, approvalIds)) == [e] + [f];
    ValidateCons(g, e, [f]);
    MessageAllowed(g, h, finish);
    if Allowed(g, e) {
      ValidateOne(g, f);
      SuspendAllowed(g, f);
    }
  }

  lemma MessageAllowed(g: Guard, h: Handle, finish: string)
    requires Coherent(g)
    ensures Allowed(g, AssistantMessage(h, finish)) <==> OwnsRequest(g, h) && Named(h) && finish != ""
    ensures Allowed(g, AssistantMessage(h, finish)) ==> After(g, AssistantMessage(h, finish)) == g
  {
    hide Coherent, ToolRule, BracketRule, RetryRule;
  }

  lemma SuspendAllowed(g: Guard, e: Event)
    requires BracketsOk(g) && CallsOk(g) && e.TurnSuspend?
    ensures Allowed(g, e) <==>
      && WellFormed(e) && ModeIn(g) == InStep(e.turn, e.step)
      && Distinct(e.callIds) && Elements(e.callIds) == g.unresolvedCalls
      && Distinct(e.approvalIds) && Elements(e.approvalIds) == PendingAt(g, e.turn, e.step)
  {
    hide WellFormed, ToolRule, RequestRule, RetryRule, PendingAt, Distinct, Elements;
    if AtStep(g, e.turn, e.step) { assert UnresolvedAt(g, e.turn, e.step) == g.unresolvedCalls; }
  }

  /** The next step begins exactly when the previous one is open and all its calls have results. */
  lemma NextAccepted(log: seq<Event>, previous: Handle, request: string)
    requires GuardOf(log).Ok?
    ensures Accepts(log, Batch(NextStep(previous, request), 0, 0)) <==>
      OpenAt(log, previous) && GuardOf(log).value.unresolvedCalls == {} && Unused(GuardOf(log).value, request)
  {
    hide Validate, RequestEvents, Tracks, Allowed, After, Coherent;
    var g, h := GuardOf(log).value, HandleOf(NextStep(previous, request), 0, 0);
    var e, f := StepEnd(previous.turn, previous.step, "completed"), StepStart(h.turn, h.step);
    var rest := RequestEvents(h, "step");
    GuardTracks(log);
    TracksMeans(log, g);
    assert Batch(NextStep(previous, request), 0, 0) == [e] + ([f] + rest);
    ValidateConcat(EMPTY, log, [e] + ([f] + rest));
    ValidateCons(g, e, [f] + rest);
    AllowsStepEnd(g, previous.turn, previous.step, "completed");
    if Allowed(g, e) {
      ValidateCons(After(g, e), f, rest);
      NextAllowed(g, e, f);
      RequestAllowed(After(After(g, e), f), h, "step");
    }
  }

  lemma NextAllowed(g: Guard, e: Event, f: Event)
    requires Coherent(g) && e.StepEnd? && Allowed(g, e) && f == StepStart(e.turn, e.step + 1)
    ensures Allowed(After(g, e), f)
    ensures var u := After(After(g, e), f);
      Coherent(u) && u.openTurn == Some(f.turn) && u.openStep == Some(f.step) && u.requests == g.requests
  {
    hide CallsOk, ApprovalsOk, RetriesOk, SuspensionOk, ToolRule, RequestRule, RetryRule, StepEndRule;
    StepKeepsCoherent(g, e);
    AllowsStepEnd(g, e.turn, e.step, e.reason);
    StepKeepsCoherent(After(g, e), f);
  }
}

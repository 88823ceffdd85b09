/** The guard refines the rules. */
module HistoryRules {
  // The guard keeps maps and sets and looks at each event once. Here are the same rules as conditions
  // on the events of the history alone, and the proof that the guard decides exactly them.

  import opened Wrappers
  import opened HistoryModel
  import opened HistorySafety
  import opened SessionModel
  import opened SessionSafety
  import opened SessionBuilders
  import opened SessionSuspension

  // ----- what the history says -----

  /** What the last bracket event left open. */
  function Where(log: seq<Event>): Mode {
    if log == [] then Idle
    else
      match log[|log| - 1]
      case TurnStart(t) => InTurn(t)
      case StepStart(t, s) => InStep(t, s)
      case StepEnd(t, _, _) => InTurn(t)
      case TurnEnd(_, _) => Idle
      case TurnSuspend(t, s, _, _) => Paused(t, s)
      case TurnResume(t, s, _) => InStep(t, s)
      case _ => Where(log[..|log| - 1])
  }

  predicate InsideTurn(log: seq<Event>, t: nat) {
    match Where(log)
    case Idle => false
    case InTurn(turn) => turn == t
    case InStep(turn, _) => turn == t
    case Paused(turn, _) => turn == t
  }

  predicate InsideStep(log: seq<Event>, t: nat, s: nat) {
    Where(log) == InStep(t, s) || Where(log) == Paused(t, s)
  }

  /** The request was opened under this handle. */
  ghost predicate Opened(log: seq<Event>, h: Handle) {
    exists reason :: RequestHeader(h, reason) in log
  }

  /** The call was made in this step. */
  ghost predicate CalledAt(log: seq<Event>, c: string, t: nat, s: nat) {
    exists h: Handle, identity, safe :: ToolCall(c, h, identity, safe) in log && h.turn == t && h.step == s
  }

  ghost predicate AskedFor(log: seq<Event>, a: string, c: string) {
    exists policy :: ApprovalRequest(a, c, policy) in log
  }

  /** How often the request was attempted. */
  function Attempts(log: seq<Event>, r: string): nat {
    if log == [] then 0
    else
      var e := log[|log| - 1];
      Attempts(log[..|log| - 1], r) + if e.RequestAttempt? && e.request == r then 1 else 0
  }

  ghost predicate ScheduledFor(log: seq<Event>, id: string, r: string, next: nat) {
    exists previous :: RetryScheduled(id, r, previous, next) in log
  }

  predicate HasSchedule(log: seq<Event>, id: string) {
    exists e :: e in log && e.RetryScheduled? && e.retryId == id
  }

  predicate HasStart(log: seq<Event>, id: string) {
    exists e :: e in log && e.RetryStarted? && e.retryId == id
  }

  predicate HasCancel(log: seq<Event>, id: string) {
    exists e :: e in log && e.RetryCancelled? && e.retryId == id
  }

  predicate HasUse(log: seq<Event>, id: string) {
    exists e :: e in log && e.RequestAttempt? && e.retry == Some(id)
  }

  /** A retry that was scheduled and neither cancelled nor used. */
  predicate OpenRetry(log: seq<Event>, id: string) {
    HasSchedule(log, id) && !HasCancel(log, id) && !HasUse(log, id)
  }

  // ----- the rules -----

  ghost predicate LegalBracket(log: seq<Event>, e: Event)
    requires Bracket(e)
  {
    match e
    case TurnStart(t) => Where(log) == Idle && t > LastTurn(log)
    case StepStart(t, s) => Where(log) == InTurn(t) && s > LastStep(log)
    case StepEnd(t, s, _) =>
      Where(log) == InStep(t, s) && forall c, turn :: CalledAt(log, c, turn, s) ==> HasResult(log, c)
    case TurnEnd(t, _) =>
      && Where(log) == InTurn(t)
      && (forall c, step :: CalledAt(log, c, t, step) ==> HasResult(log, c))
      && (forall id :: !OpenRetry(log, id))
    case TurnSuspend(t, s, callIds, approvalIds) =>
      && Where(log) == InStep(t, s) && Distinct(callIds) && Distinct(approvalIds)
      && (forall c :: c in callIds <==> CalledAt(log, c, t, s) && !HasResult(log, c))
      && (forall a :: a in approvalIds <==> OpenApproval(log, a, t, s))
    case TurnResume(t, s, _) =>
      && Where(log) == Paused(t, s) && LastSuspend(log).Some?
      && (forall c :: c in LastSuspend(log).value.callIds ==> HasResult(log, c) || ApprovedCall(log, c))
      && (forall a :: a in LastSuspend(log).value.approvalIds ==> HasDecision(log, a))
  }

  /** An approval of a call of this step was asked for and is undecided. */
  ghost predicate OpenApproval(log: seq<Event>, a: string, t: nat, s: nat) {
    !HasDecision(log, a) && exists c :: AskedFor(log, a, c) && CalledAt(log, c, t, s)
  }

  /** An approval of the call was decided. */
  ghost predicate ApprovedCall(log: seq<Event>, c: string) {
    exists a :: AskedFor(log, a, c) && HasDecision(log, a)
  }

  ghost predicate LegalTool(log: seq<Event>, e: Event)
    requires Tool(e)
  {
    match e
    case ToolCall(c, h, _, _) => InsideStep(log, h.turn, h.step) && Opened(log, h) && !HasCall(log, c)
    case ToolResult(c, t, s) =>
      && CalledAt(log, c, t, s) && !HasResult(log, c)
      && (forall a :: AskedFor(log, a, c) ==> HasDecision(log, a))
    case ApprovalRequest(a, c, _) => HasCall(log, c) && !HasRequest(log, a) && forall b :: !AskedFor(log, b, c)
    case ApprovalDecision(a, c, _) => AskedFor(log, a, c) && !HasDecision(log, a)
  }

  ghost predicate LegalOther(log: seq<Event>, e: Event)
    requires !Bracket(e) && !Tool(e)
  {
    match e
    case UserMessage(t) => InsideTurn(log, t)
    case ContextInjected(t, s) => InsideStep(log, t, s)
    case RequestHeader(h, _) => InsideStep(log, h.turn, h.step) && !HasHeader(log, h.request)
    case RequestContext(r) => HasHeader(log, r)
    case RequestAttempt(r, n, retry) =>
      && HasHeader(log, r) && n == Attempts(log, r) + 1
      && (if retry.None? then n == 1
          else ScheduledFor(log, retry.value, r, n) && HasStart(log, retry.value) && OpenRetry(log, retry.value))
    case RequestFailure(r, n) => HasHeader(log, r) && n == Attempts(log, r)
    case AssistantChunk(h) => Opened(log, h)
    case AssistantMessage(h, _) => Opened(log, h)
    case RetryScheduled(id, r, previous, next) =>
      HasHeader(log, r) && previous == Attempts(log, r) && next == previous + 1 && !HasSchedule(log, id)
    case RetryStarted(id, r, n) => ScheduledFor(log, id, r, n) && !HasStart(log, id) && OpenRetry(log, id)
    case RetryCancelled(id) => OpenRetry(log, id)
    case _ => true
  }

  /** The event may follow the history. */
  ghost predicate Legal(log: seq<Event>, e: Event) {
    WellFormed(e) &&
    if Bracket(e) then LegalBracket(log, e) else if Tool(e) then LegalTool(log, e) else LegalOther(log, e)
  }

  // ----- the guard knows where the history stands -----

  lemma WhereAppend(log: seq<Event>, e: Event)
    ensures Where(log + [e]) == if Bracket(e) then Opens(e) else Where(log)
  {
    assert (log + [e])[..|log|] == log;
  }

  lemma {:induction false} WhereIs(log: seq<Event>)
    requires GuardOf(log).Ok?
    ensures ModeOf(log) == Some(Where(log))
    decreases |log|
  {
    hide ModeOf, GuardOf, Where;
    if log == [] {
      EmptyMode();
      EmptyWhere();
    } else {
      var before, e := log[..|log| - 1], log[|log| - 1];
      assert log == before + [e];
      Prefix(before, [e]);
      WhereIs(before);
      WhereAppend(before, e);
      ModeOk(log);
      ModeAppend(before, e);
    }
  }

  lemma EmptyWhere()
    ensures Where([]) == Idle
  {
  }

  lemma ModeOk(log: seq<Event>)
    ensures GuardOf(log).Ok? <==> ModeOf(log).Some?
  {
  }

  // ----- attempts and retries -----

  ghost predicate RetryIs(log: seq<Event>, id: string, r: Retry) {
    && ScheduledFor(log, id, r.request, r.nextAttempt)
    && (r.phase == Cancelled <==> HasCancel(log, id))
    && (r.phase == Consumed <==> HasUse(log, id) && !HasCancel(log, id))
    && (r.phase == Started <==> HasStart(log, id) && !HasUse(log, id) && !HasCancel(log, id))
    && (HasUse(log, id) ==> HasStart(log, id) && !HasCancel(log, id))
  }

  /** The counters of requests and the phases of retries are those of the history. */
  ghost predicate Counted(log: seq<Event>, g: Guard) {
    && (forall r :: r in g.requests ==> g.requests[r].lastAttempt == Attempts(log, r))
    && (forall r :: r !in g.requests ==> Attempts(log, r) == 0)
    && (forall id :: id in g.retries <==> HasSchedule(log, id))
    && (forall id :: id in g.retries ==> RetryIs(log, id, g.retries[id]))
    && (forall id :: HasStart(log, id) || HasCancel(log, id) || HasUse(log, id) ==> HasSchedule(log, id))
    && (forall e :: e in log && e.RetryScheduled? ==>
          e.retryId in g.retries && g.retries[e.retryId].request == e.request && g.retries[e.retryId].nextAttempt == e.next)
  }

  lemma CountsAppend(log: seq<Event>, e: Event)
    ensures forall r :: Attempts(log + [e], r) == Attempts(log, r) + if e.RequestAttempt? && e.request == r then 1 else 0
    ensures forall id :: HasSchedule(log + [e], id) <==> HasSchedule(log, id) || (e.RetryScheduled? && e.retryId == id)
    ensures forall id :: HasStart(log + [e], id) <==> HasStart(log, id) || (e.RetryStarted? && e.retryId == id)
    ensures forall id :: HasCancel(log + [e], id) <==> HasCancel(log, id) || (e.RetryCancelled? && e.retryId == id)
    ensures forall id :: HasUse(log + [e], id) <==> HasUse(log, id) || (e.RequestAttempt? && e.retry == Some(id))
  {
    assert (log + [e])[..|log|] == log;
    assert forall f :: f in log ==> f in log + [e];
    assert e in log + [e];
  }

  lemma ScheduledForAppend(log: seq<Event>, e: Event, id: string, r: string, next: nat)
    ensures ScheduledFor(log + [e], id, r, next) <==>
      ScheduledFor(log, id, r, next) || (e.RetryScheduled? && e.retryId == id && e.request == r && e.next == next)
  {
    if ScheduledFor(log, id, r, next) {
      var previous :| RetryScheduled(id, r, previous, next) in log;
      assert RetryScheduled(id, r, previous, next) in log + [e];
    }
    if e.RetryScheduled? { assert RetryScheduled(e.retryId, e.request, e.previous, e.next) in log + [e]; }
  }

  /** Events that count nothing. */
  lemma QuietCounts(log: seq<Event>, g: Guard, e: Event)
    requires Counted(log, g) && Allowed(g, e)
    requires !e.RequestHeader? && !e.RequestAttempt? && !e.RetryScheduled? && !e.RetryStarted? && !e.RetryCancelled?
    ensures Counted(log + [e], After(g, e))
  {
    hide WellFormed, BracketRule, ToolRule, RequestRule, RetryRule, HasSchedule, HasStart, HasCancel, HasUse, Attempts, ScheduledFor;
    var u := After(g, e);
    assert u.requests == g.requests && u.retries == g.retries;
    CountsAppend(log, e);
    forall id | id in u.retries ensures RetryIs(log + [e], id, u.retries[id]) {
      ScheduledForAppend(log, e, id, u.retries[id].request, u.retries[id].nextAttempt);
      assert RetryIs(log, id, g.retries[id]);
    }
  }

  lemma HeaderCounts(log: seq<Event>, g: Guard, e: Event)
    requires Counted(log, g) && Allowed(g, e) && e.RequestHeader?
    ensures Counted(log + [e], After(g, e))
  {
    hide WellFormed, RetryRule, HasSchedule, HasStart, HasCancel, HasUse, Attempts, ScheduledFor;
    CountsAppend(log, e);
    forall id | id in g.retries ensures RetryIs(log + [e], id, g.retries[id]) {
      ScheduledForAppend(log, e, id, g.retries[id].request, g.retries[id].nextAttempt);
      assert RetryIs(log, id, g.retries[id]);
    }
  }

  lemma AttemptRetryIs(log: seq<Event>, g: Guard, e: Event, id: string)
    requires Allowed(g, e) && e.RequestAttempt? && id in After(g, e).retries
    requires id in g.retries && RetryIs(log, id, g.retries[id])
    ensures RetryIs(log + [e], id, After(g, e).retries[id])
  {
    hide WellFormed, RetryRule, HasSchedule, HasStart, HasCancel, HasUse, Attempts, ScheduledFor;
    CountsAppend(log, e);
    var r := After(g, e).retries[id];
    ScheduledForAppend(log, e, id, r.request, r.nextAttempt);
  }

  lemma AttemptCounts(log: seq<Event>, g: Guard, e: Event)
    requires Counted(log, g) && Allowed(g, e) && e.RequestAttempt?
    ensures Counted(log + [e], After(g, e))
  {
    hide WellFormed, RetryRule, HasSchedule, HasStart, HasCancel, HasUse, Attempts, RetryIs;
    var u := After(g, e);
    CountsAppend(log, e);
    assert u.retries.Keys == g.retries.Keys;
    forall id | id in u.retries ensures RetryIs(log + [e], id, u.retries[id]) { AttemptRetryIs(log, g, e, id); }
  }

  lemma RetryCounts(log: seq<Event>, g: Guard, e: Event)
    requires Counted(log, g) && Allowed(g, e) && (e.RetryStarted? || e.RetryCancelled?)
    ensures Counted(log + [e], After(g, e))
  {
    hide WellFormed, RequestRule, HasSchedule, HasStart, HasCancel, HasUse, Attempts, ScheduledFor;
    var u := After(g, e);
    CountsAppend(log, e);
    forall id | id in u.retries ensures RetryIs(log + [e], id, u.retries[id]) {
      ScheduledForAppend(log, e, id, u.retries[id].request, u.retries[id].nextAttempt);
      assert RetryIs(log, id, g.retries[id]);
    }
  }

  lemma ScheduleCounts(log: seq<Event>, g: Guard, e: Event)
    requires Counted(log, g) && Allowed(g, e) && e.RetryScheduled?
    ensures Counted(log + [e], After(g, e))
  {
    hide WellFormed, RequestRule, HasSchedule, HasStart, HasCancel, HasUse, Attempts, ScheduledFor;
    var u := After(g, e);
    CountsAppend(log, e);
    forall id | id in u.retries ensures RetryIs(log + [e], id, u.retries[id]) {
      ScheduledForAppend(log, e, id, u.retries[id].request, u.retries[id].nextAttempt);
      if id != e.retryId { assert RetryIs(log, id, g.retries[id]); }
    }
  }

  lemma {:induction false} GuardCounts(log: seq<Event>)
    requires GuardOf(log).Ok?
    ensures Counted(log, GuardOf(log).value)
    decreases |log|
  {
    hide Counted, Validate, Allowed, After, Tracks, Coherent;
    if log == [] {
      EmptyScan();
      EmptyCounted();
    } else {
      var before, e := log[..|log| - 1], log[|log| - 1];
      assert log == before + [e];
      AppendOne(before, e);
      GuardCounts(before);
      GuardTracks(before);
      var g := GuardOf(before).value;
      TracksMeans(before, g);
      match e
      case RequestHeader(_, _) => HeaderCounts(before, g, e);
      case RequestAttempt(_, _, _) => AttemptCounts(before, g, e);
      case RetryScheduled(_, _, _, _) => ScheduleCounts(before, g, e);
      case RetryStarted(_, _, _) => RetryCounts(before, g, e);
      case RetryCancelled(_) => RetryCounts(before, g, e);
      case _ => QuietCounts(before, g, e);
    }
  }

  lemma EmptyCounted()
    ensures Counted([], EMPTY)
  {
  }

  // ----- calls, requests and approvals -----

  /** The maps of the guard say what the history says. */
  ghost predicate Agrees(log: seq<Event>, g: Guard) {
    && (forall c, t, s :: CalledAt(log, c, t, s) <==> CallAt(g, c, t, s))
    && (forall c :: HasCall(log, c) <==> c in g.calls)
    && (forall c :: HasResult(log, c) <==> c in g.calls && g.calls[c].result)
    && (forall h :: Opened(log, h) <==> OwnsRequest(g, h))
    && (forall r :: HasHeader(log, r) <==> r in g.requests)
    && (forall a, c :: AskedFor(log, a, c) <==> a in g.approvals && g.approvals[a] == c)
    && (forall a :: HasRequest(log, a) <==> a in g.approvals)
    && (forall a :: HasDecision(log, a) <==> a in g.approvals && ApprovalAnswered(g, a))
  }

  lemma CalledMeans(log: seq<Event>, g: Guard, c: string, t: nat, s: nat)
    requires Tracks(log, g)
    ensures CalledAt(log, c, t, s) <==> CallAt(g, c, t, s)
    ensures HasCall(log, c) <==> c in g.calls
  {
    hide Tracks, Coherent, HasResult, HasRequest, HasDecision, HasHeader;
    TracksMeans(log, g);
    forall e | e in log && e.ToolCall? ensures CallAt(g, e.callId, e.handle.turn, e.handle.step) { Known(log, g, e); }
    if c in g.calls {
      var e :| e in log && e.ToolCall? && e.callId == c;
      assert ToolCall(c, e.handle, e.identity, e.safe) in log;
    }
  }

  lemma ResultMeansGuard(log: seq<Event>, g: Guard, c: string)
    requires Tracks(log, g)
    ensures HasResult(log, c) <==> c in g.calls && g.calls[c].result
  {
    hide Tracks, Coherent;
    if c in g.calls { ResultsAgree(log, g, c); }
    else if HasResult(log, c) {
      var e :| e in log && e.ToolResult? && e.callId == c;
      Known(log, g, e);
    }
  }

  lemma OpenedMeans(log: seq<Event>, g: Guard, h: Handle)
    requires Tracks(log, g)
    ensures Opened(log, h) <==> OwnsRequest(g, h)
    ensures HasHeader(log, h.request) <==> h.request in g.requests
  {
    hide Tracks, Coherent, HasCall, HasResult, HasRequest, HasDecision;
    TracksMeans(log, g);
    forall e | e in log && e.RequestHeader? ensures OwnsRequest(g, e.handle) { Known(log, g, e); }
    if h.request in g.requests {
      var e :| e in log && e.RequestHeader? && e.handle.request == h.request;
      if OwnsRequest(g, h) { assert RequestHeader(h, e.reason) in log; }
    }
  }

  lemma AskedMeans(log: seq<Event>, g: Guard, a: string, c: string)
    requires Tracks(log, g)
    ensures AskedFor(log, a, c) <==> a in g.approvals && g.approvals[a] == c
    ensures HasRequest(log, a) <==> a in g.approvals
    ensures HasDecision(log, a) <==> a in g.approvals && ApprovalAnswered(g, a)
  {
    hide Tracks, Coherent, HasCall, HasResult, HasHeader;
    TracksMeans(log, g);
    forall e | e in log && e.ApprovalRequest? ensures e.approvalId in g.approvals && g.approvals[e.approvalId] == e.callId {
      Known(log, g, e);
    }
    if a in g.approvals {
      DecisionsAgree(log, g, a);
      var e :| e in log && e.ApprovalRequest? && e.approvalId == a;
      assert ApprovalRequest(a, e.callId, e.policy) in log;
    } else if HasDecision(log, a) {
      var e :| e in log && e.ApprovalDecision? && e.approvalId == a;
      Known(log, g, e);
    }
  }

  lemma GuardAgrees(log: seq<Event>, g: Guard)
    requires Tracks(log, g)
    ensures Agrees(log, g)
  {
    hide Tracks, CalledAt, CallAt, HasCall, HasResult, Opened, OwnsRequest, HasHeader, AskedFor, HasRequest, HasDecision, ApprovalAnswered;
    forall c, t, s ensures CalledAt(log, c, t, s) <==> CallAt(g, c, t, s) { CalledMeans(log, g, c, t, s); }
    forall c ensures HasCall(log, c) <==> c in g.calls { CalledMeans(log, g, c, 0, 0); }
    forall c ensures HasResult(log, c) <==> c in g.calls && g.calls[c].result { ResultMeansGuard(log, g, c); }
    forall h ensures Opened(log, h) <==> OwnsRequest(g, h) { OpenedMeans(log, g, h); }
    forall r ensures HasHeader(log, r) <==> r in g.requests { OpenedMeans(log, g, Handle(0, 0, r)); }
    forall a, c ensures AskedFor(log, a, c) <==> a in g.approvals && g.approvals[a] == c { AskedMeans(log, g, a, c); }
    forall a ensures HasRequest(log, a) <==> a in g.approvals { AskedMeans(log, g, a, ""); }
    forall a ensures HasDecision(log, a) <==> a in g.approvals && ApprovalAnswered(g, a) { AskedMeans(log, g, a, ""); }
  }

  // ----- the guard decides the rules -----

  lemma ToolDecided(log: seq<Event>, g: Guard, e: Event)
    requires Agrees(log, g) && Coherent(g) && ModeIn(g) == Where(log) && Tool(e) && WellFormed(e)
    ensures Allowed(g, e) <==> LegalTool(log, e)
  {
    hide CallsOk, RetriesOk, SuspensionOk, CalledAt, HasCall, HasResult, Opened, HasHeader, AskedFor, HasRequest, HasDecision,
      BracketRule, RequestRule, RetryRule, Where, WellFormed;
    match e
    case ToolResult(c, t, s) =>
      if c in g.calls && g.calls[c].approval.Some? { assert AskedFor(log, g.calls[c].approval.value, c); }
    case ApprovalRequest(a, c, _) =>
      if c in g.calls && g.calls[c].approval.Some? { assert AskedFor(log, g.calls[c].approval.value, c); }
    case _ =>
  }

  lemma OtherDecided(log: seq<Event>, g: Guard, e: Event)
    requires Agrees(log, g) && Counted(log, g) && BracketsOk(g) && ModeIn(g) == Where(log)
    requires !Tool(e) && !Bracket(e) && WellFormed(e)
    requires !e.RetryStarted? && !e.RetryCancelled? && !(e.RequestAttempt? && e.retry.Some?)
    ensures Allowed(g, e) <==> LegalOther(log, e)
  {
    hide CalledAt, HasCall, HasResult, Opened, HasHeader, AskedFor, HasRequest, HasDecision, RetryIs, ScheduledFor,
      HasSchedule, HasStart, HasCancel, HasUse, Attempts, BracketRule, ToolRule, Where, WellFormed;
  }

  /** The retry the guard keeps under an id. */
  lemma RetryMeans(log: seq<Event>, g: Guard, id: string, r: string, n: nat)
    requires Counted(log, g)
    ensures ScheduledFor(log, id, r, n) <==> id in g.retries && g.retries[id].request == r && g.retries[id].nextAttempt == n
    ensures OpenRetry(log, id) <==> id in g.retries && (g.retries[id].phase == Scheduled || g.retries[id].phase == Started)
    ensures OpenRetry(log, id) ==> (HasStart(log, id) <==> g.retries[id].phase == Started)
  {
    hide HasStart, HasCancel, HasUse, Attempts;
    if id in g.retries { assert RetryIs(log, id, g.retries[id]); }
    if ScheduledFor(log, id, r, n) {
      var previous :| RetryScheduled(id, r, previous, n) in log;
    }
  }

  lemma RetryDecided(log: seq<Event>, g: Guard, e: Event)
    requires Agrees(log, g) && Counted(log, g) && WellFormed(e)
    requires e.RetryStarted? || e.RetryCancelled? || (e.RequestAttempt? && e.retry.Some?)
    ensures Allowed(g, e) <==> LegalOther(log, e)
  {
    hide CalledAt, HasCall, HasResult, Opened, HasHeader, AskedFor, HasRequest, HasDecision, RetryIs, ScheduledFor,
      HasSchedule, HasStart, HasCancel, HasUse, Attempts, BracketRule, ToolRule, Where, WellFormed, OpenRetry;
    match e
    case RetryStarted(id, r, n) => RetryMeans(log, g, id, r, n);
    case RetryCancelled(id) => RetryMeans(log, g, id, "", 0);
    case RequestAttempt(r, n, retry) => RetryMeans(log, g, retry.value, r, n);
  }

  lemma StartDecided(log: seq<Event>, g: Guard, e: Event)
    requires BracketsOk(g) && ModeIn(g) == Where(log) && WellFormed(e) && (e.TurnStart? || e.StepStart?)
    requires g.lastTurn == LastTurn(log) && g.lastStep == LastStep(log)
    ensures Allowed(g, e) <==> LegalBracket(log, e)
  {
    hide ToolRule, RequestRule, RetryRule, Where, WellFormed, LastTurn, LastStep, SuspendRule, ResumeRule, TurnEndRule, StepEndRule;
  }

  lemma EndDecided(log: seq<Event>, g: Guard, e: Event)
    requires Agrees(log, g) && Counted(log, g) && Coherent(g) && ModeIn(g) == Where(log) && WellFormed(e)
    requires e.StepEnd? || e.TurnEnd?
    ensures Allowed(g, e) <==> LegalBracket(log, e)
  {
    hide ToolRule, RequestRule, RetryRule, Where, WellFormed, LastTurn, LastStep, SuspendRule, ResumeRule, Agrees, Counted, OpenRetry,
      HasResult, CalledAt;
    UnresolvedMeans(log, g);
    assert forall c :: c in g.unresolvedCalls && c in g.calls ==> CallAt(g, c, g.calls[c].turn, g.calls[c].step);
    if e.TurnEnd? { PendingRetryMeans(log, g); }
  }

  lemma UnresolvedMeans(log: seq<Event>, g: Guard)
    requires Agrees(log, g) && CallsOk(g)
    ensures forall c, t, s :: CalledAt(log, c, t, s) && !HasResult(log, c) <==> c in g.unresolvedCalls && CallAt(g, c, t, s)
  {
    hide CalledAt, HasCall, HasResult, Opened, HasHeader, AskedFor, HasRequest, HasDecision;
  }

  lemma PendingRetryMeans(log: seq<Event>, g: Guard)
    requires Counted(log, g) && RetriesOk(g)
    ensures g.pendingRetries == {} <==> forall id :: !OpenRetry(log, id)
  {
    hide Counted, OpenRetry;
    forall id ensures OpenRetry(log, id) <==> id in g.pendingRetries { RetryMeans(log, g, id, "", 0); }
  }

  lemma SuspendDecided(log: seq<Event>, g: Guard, e: Event)
    requires Agrees(log, g) && Coherent(g) && ModeIn(g) == Where(log) && WellFormed(e) && e.TurnSuspend?
    ensures Allowed(g, e) <==> LegalBracket(log, e)
  {
    hide ToolRule, RequestRule, RetryRule, Where, WellFormed, LastTurn, LastStep, TurnEndRule, StepEndRule, ResumeRule, Agrees,
      HasResult, CalledAt, OpenApproval, Distinct;
    UnresolvedMeans(log, g);
    PendingApprovalMeans(log, g, e.turn, e.step);
    assert Elements(e.callIds) == UnresolvedAt(g, e.turn, e.step) <==>
      forall c :: c in e.callIds <==> CalledAt(log, c, e.turn, e.step) && !HasResult(log, c)
    by { SameElements(e.callIds, UnresolvedAt(g, e.turn, e.step)); }
    assert Elements(e.approvalIds) == PendingAt(g, e.turn, e.step) <==>
      forall a :: a in e.approvalIds <==> OpenApproval(log, a, e.turn, e.step)
    by { SameElements(e.approvalIds, PendingAt(g, e.turn, e.step)); }
  }

  lemma SameElements(ids: seq<string>, all: set<string>)
    ensures Elements(ids) == all <==> forall i :: i in ids <==> i in all
  {
    assert forall i :: i in Elements(ids) <==> i in ids;
  }

  lemma PendingApprovalMeans(log: seq<Event>, g: Guard, t: nat, s: nat)
    requires Agrees(log, g) && ApprovalsOk(g)
    ensures forall a :: OpenApproval(log, a, t, s) <==> a in PendingAt(g, t, s)
  {
    hide CalledAt, HasCall, HasResult, Opened, HasHeader, AskedFor, HasRequest, HasDecision;
    forall a ensures OpenApproval(log, a, t, s) <==> a in PendingAt(g, t, s) {
      if a in g.approvals { assert AskedFor(log, a, g.approvals[a]); }
    }
  }

  lemma ResumeDecided(log: seq<Event>, g: Guard, e: Event)
    requires Agrees(log, g) && Coherent(g) && ModeIn(g) == Where(log) && WellFormed(e) && e.TurnResume?
    requires g.suspension == SuspendedBy(LastSuspend(log))
    ensures Allowed(g, e) <==> LegalBracket(log, e)
  {
    hide ToolRule, RequestRule, RetryRule, Where, WellFormed, LastTurn, LastStep, TurnEndRule, StepEndRule, SuspendRule, LastSuspend,
      Agrees, HasResult, HasDecision, ApprovedCall, CallAnswered, ApprovalAnswered;
    if g.suspension.Some? {
      var was := g.suspension.value;
      forall c | c in was.callIds ensures CallAnswered(g, c) <==> HasResult(log, c) || ApprovedCall(log, c) {
        AnsweredMeans(log, g, c);
      }
      forall a | a in was.approvalIds ensures ApprovalAnswered(g, a) <==> HasDecision(log, a) { DecidedMeans(log, g, a); }
    }
  }

  lemma AnsweredMeans(log: seq<Event>, g: Guard, c: string)
    requires Agrees(log, g) && ApprovalsOk(g) && c in g.calls
    ensures CallAnswered(g, c) <==> HasResult(log, c) || ApprovedCall(log, c)
  {
    hide CalledAt, HasCall, HasResult, Opened, HasHeader, AskedFor, HasRequest, HasDecision;
    if g.calls[c].approval.Some? { assert AskedFor(log, g.calls[c].approval.value, c); }
  }

  lemma DecidedMeans(log: seq<Event>, g: Guard, a: string)
    requires Agrees(log, g) && a in g.approvals
    ensures ApprovalAnswered(g, a) <==> HasDecision(log, a)
  {
    hide CalledAt, HasCall, HasResult, Opened, HasHeader, AskedFor, HasRequest, HasDecision;
  }

  /** On every history the guard accepts an event exactly when the rules do. */
  lemma GuardDecides(log: seq<Event>, e: Event)
    requires GuardOf(log).Ok?
    ensures Allowed(GuardOf(log).value, e) <==> Legal(log, e)
  {
    hide GuardOf, Tracks, Coherent, Agrees, Counted, Where, LegalBracket, LegalTool, LegalOther, WellFormed, LastTurn, LastStep,
      BracketRule, ToolRule, RequestRule, RetryRule, ModeIn;
    var g := GuardOf(log).value;
    GuardTracks(log);
    TracksMeans(log, g);
    GuardAgrees(log, g);
    GuardCounts(log);
    assert ModeIn(g) == Where(log) by { WhereIs(log); }
    NumbersAgree(log);
    ScanFindsSuspension(log);
    CoherentBrackets(g);
    if WellFormed(e) {
      if Tool(e) { ToolDecided(log, g, e); }
      else if e.TurnStart? || e.StepStart? { StartDecided(log, g, e); }
      else if e.StepEnd? || e.TurnEnd? { EndDecided(log, g, e); }
      else if e.TurnSuspend? { SuspendDecided(log, g, e); }
      else if e.TurnResume? { ResumeDecided(log, g, e); }
      else if e.RetryStarted? || e.RetryCancelled? || (e.RequestAttempt? && e.retry.Some?) { RetryDecided(log, g, e); }
      else { OtherDecided(log, g, e); }
    }
  }

  lemma CoherentBrackets(g: Guard)
    requires Coherent(g)
    ensures BracketsOk(g)
  {
  }

  /**
   The guard refines the rules: a history is accepted exactly when each of its events was legal by the
   events before it, with nothing remembered but the history itself; and a batch exactly when it goes on
   that way.
   */
  lemma {:induction false} AcceptedIffLegal(log: seq<Event>)
    ensures GuardOf(log).Ok? <==> forall k: nat :: k < |log| ==> Legal(log[..k], log[k])
    decreases |log|
  {
    hide GuardOf, Allowed, Legal;
    if log == [] {
      EmptyScan();
    } else {
      var n := |log| - 1;
      var before := log[..n];
      assert log == before + [log[n]];
      AppendOne(before, log[n]);
      AcceptedIffLegal(before);
      forall k: nat | k < n ensures before[..k] == log[..k] && before[k] == log[k] {}
      if GuardOf(before).Ok? { GuardDecides(before, log[n]); }
      if forall k: nat :: k < |log| ==> Legal(log[..k], log[k]) {
        forall k: nat | k < |before| ensures Legal(before[..k], before[k]) { assert Legal(log[..k], log[k]); }
      }
    }
  }
}

/** The guard of appends. */
module HistoryModel {
  // The events of a session history and the rules of `@termco/session-base` that every append
  // has to pass, event by event.

  import opened Wrappers

  datatype Handle = Handle(turn: nat, step: nat, request: string)

  /** `identity`, `policy` and `outcome` stand for the payload the rules do not look at. */
  datatype Event =
    | TurnStart(turn: nat)
    | UserMessage(turn: nat)
    | StepStart(turn: nat, step: nat)
    | StepEnd(turn: nat, step: nat, reason: string)
    | TurnEnd(turn: nat, reason: string)
    | TurnSuspend(turn: nat, step: nat, callIds: seq<string>, approvalIds: seq<string>)
    | TurnResume(turn: nat, step: nat, cause: string)
    | ContextInjected(turn: nat, step: nat)
    | RequestHeader(handle: Handle, reason: string)
    | RequestContext(request: string)
    | RequestAttempt(request: string, attempt: nat, retry: Option<string>)
    | RequestFailure(request: string, attempt: nat)
    | AssistantChunk(handle: Handle)
    | AssistantMessage(handle: Handle, finishReason: string)
    | ToolCall(callId: string, handle: Handle, identity: string, safe: bool)
    | ToolResult(callId: string, turn: nat, step: nat)
    | ApprovalRequest(approvalId: string, callId: string, policy: string)
    | ApprovalDecision(approvalId: string, callId: string, outcome: string)
    | RetryScheduled(retryId: string, request: string, previous: nat, next: nat)
    | RetryStarted(retryId: string, request: string, attempt: nat)
    | RetryCancelled(retryId: string)
    | Adapter(kind: string)

  datatype Request = Request(turn: nat, step: nat, lastAttempt: nat)

  datatype Call = Call(turn: nat, step: nat, approval: Option<string>, decided: bool, result: bool)

  datatype Phase = Scheduled | Started | Consumed | Cancelled

  datatype Retry = Retry(request: string, nextAttempt: nat, phase: Phase)

  datatype Suspended = Suspended(turn: nat, step: nat, callIds: seq<string>, approvalIds: seq<string>)

  /** The variables of `createSessionHistoryValidator`. */
  datatype Guard = Guard(
    openTurn: Option<nat>, openStep: Option<nat>, lastTurn: nat, lastStep: nat, suspension: Option<Suspended>,
    requests: map<string, Request>, calls: map<string, Call>, approvals: map<string, string>, retries: map<string, Retry>,
    unresolvedCalls: set<string>, pendingApprovals: set<string>, pendingRetries: set<string>)

  const EMPTY := Guard(None, None, 0, 0, None, map[], map[], map[], map[], {}, {}, {})

  /** The rules by name; `Malformed` stands for the checks of the single event. */
  datatype Rule =
    | Malformed
    | SingleOpenTurn | MonotonicTurnId
    | SuspensionInsideStep | SingleSuspension | UniqueSuspendedCalls | UniqueSuspendedApprovals
    | SuspensionCallSet | SuspensionApprovalSet
    | ResumeSuspendedTurn | ResolveBeforeResume | ApprovalBeforeResume
    | TurnBalance | ResumeBeforeTurnEnd | StepBeforeTurnEnd | ToolCallBalance | RetryBalance
    | StepInsideTurn | SingleOpenStep | GlobalMonotonicStepId
    | StepBalance | ResumeBeforeStepEnd | ToolCallBeforeStepEnd
    | InputInsideTurn | ContextInsideStep
    | RequestInsideStep | UniqueRequestId | RequestContextReference
    | RequestAttemptReference | MonotonicRequestAttempt | AttemptRetryReference | RetryRequired
    | RequestFailureReference | FailureAttemptReference
    | AssistantRequestReference | AssistantRequestOwner
    | ToolRequestReference | ToolInsideRequestStep | UniqueToolCall
    | ToolResultReference | SingleToolResult | ToolResultOwner | ApprovalBeforeResult
    | ApprovalCallReference | SingleApprovalRequest | ApprovalDecisionReference | SingleApprovalDecision
    | RetryRequestReference | RetryAttemptSequence | UniqueRetryId
    | RetryStartReference | RetryStartMatch | RetryCancelReference

  // ----- the single event -----

  predicate Located(turn: nat, step: nat) {
    turn >= 1 && step >= 1
  }

  predicate Named(h: Handle) {
    Located(h.turn, h.step) && h.request != ""
  }

  /** `parseSessionEvent`: numbers in range, ids not empty, a suspension that waits for something. */
  predicate WellFormed(e: Event) {
    match e
    case TurnStart(t) => t >= 1
    case UserMessage(t) => t >= 1
    case StepStart(t, s) => Located(t, s)
    case StepEnd(t, s, _) => Located(t, s)
    case TurnEnd(t, _) => t >= 1
    case TurnSuspend(t, s, callIds, approvalIds) =>
      Located(t, s) && "" !in callIds && "" !in approvalIds && (callIds != [] || approvalIds != [])
    case TurnResume(t, s, _) => Located(t, s)
    case ContextInjected(t, s) => Located(t, s)
    case RequestHeader(h, _) => Named(h)
    case RequestContext(r) => r != ""
    case RequestAttempt(r, n, retry) => r != "" && n >= 1 && retry != Some("")
    case RequestFailure(r, n) => r != "" && n >= 1
    case AssistantChunk(h) => Named(h)
    case AssistantMessage(h, finish) => Named(h) && finish != ""
    case ToolCall(c, h, _, _) => c != "" && Named(h)
    case ToolResult(c, t, s) => c != "" && Located(t, s)
    case ApprovalRequest(a, c, _) => a != "" && c != ""
    case ApprovalDecision(a, c, _) => a != "" && c != ""
    case RetryScheduled(r, q, previous, next) => r != "" && q != "" && previous >= 1 && next >= 2
    case RetryStarted(r, q, n) => r != "" && q != "" && n >= 2
    case RetryCancelled(r) => r != ""
    case Adapter(kind) => kind != ""
  }

  // ----- the rules across events -----

  predicate AtStep(g: Guard, turn: nat, step: nat) {
    g.openTurn == Some(turn) && g.openStep == Some(step)
  }

  predicate CallAt(g: Guard, c: string, turn: nat, step: nat) {
    c in g.calls && g.calls[c].turn == turn && g.calls[c].step == step
  }

  function Elements(ids: seq<string>): set<string> {
    set i | i in ids
  }

  predicate Distinct(ids: seq<string>) {
    forall i, k :: 0 <= i < k < |ids| ==> ids[i] != ids[k]
  }

  /** The unresolved calls of a step, and its undecided approvals. */
  function UnresolvedAt(g: Guard, turn: nat, step: nat): set<string> {
    set c | c in g.unresolvedCalls && CallAt(g, c, turn, step)
  }

  function PendingAt(g: Guard, turn: nat, step: nat): set<string> {
    set a | a in g.pendingApprovals && a in g.approvals && CallAt(g, g.approvals[a], turn, step)
  }

  function SuspendRule(g: Guard, turn: nat, step: nat, callIds: seq<string>, approvalIds: seq<string>): Option<Rule> {
    if !AtStep(g, turn, step) then Some(SuspensionInsideStep)
    else if g.suspension.Some? then Some(SingleSuspension)
    else if !Distinct(callIds) then Some(UniqueSuspendedCalls)
    else if !Distinct(approvalIds) then Some(UniqueSuspendedApprovals)
    else if Elements(callIds) != UnresolvedAt(g, turn, step) then Some(SuspensionCallSet)
    else if Elements(approvalIds) != PendingAt(g, turn, step) then Some(SuspensionApprovalSet)
    else None
  }

  /** A suspended call lets the turn resume once it has a result or its approval is decided. */
  predicate CallAnswered(g: Guard, c: string) {
    c !in g.calls || g.calls[c].result || (g.calls[c].approval.Some? && g.calls[c].decided)
  }

  predicate ApprovalAnswered(g: Guard, a: string) {
    a !in g.approvals || (g.approvals[a] in g.calls && g.calls[g.approvals[a]].decided)
  }

  function ResumeRule(g: Guard, turn: nat, step: nat): Option<Rule> {
    if !AtStep(g, turn, step) || g.suspension.None? then Some(ResumeSuspendedTurn)
    else if exists c :: c in g.suspension.value.callIds && !CallAnswered(g, c) then Some(ResolveBeforeResume)
    else if exists a :: a in g.suspension.value.approvalIds && !ApprovalAnswered(g, a) then Some(ApprovalBeforeResume)
    else None
  }

  function TurnEndRule(g: Guard, turn: nat): Option<Rule> {
    if g.openTurn != Some(turn) then Some(TurnBalance)
    else if g.suspension.Some? then Some(ResumeBeforeTurnEnd)
    else if g.openStep.Some? then Some(StepBeforeTurnEnd)
    else if exists c :: c in g.unresolvedCalls && c in g.calls && g.calls[c].turn == turn then Some(ToolCallBalance)
    else if g.pendingRetries != {} then Some(RetryBalance)
    else None
  }

  function StepEndRule(g: Guard, turn: nat, step: nat): Option<Rule> {
    if !AtStep(g, turn, step) then Some(StepBalance)
    else if g.suspension.Some? then Some(ResumeBeforeStepEnd)
    else if exists c :: c in g.unresolvedCalls && c in g.calls && g.calls[c].step == step then Some(ToolCallBeforeStepEnd)
    else None
  }

  function BracketRule(g: Guard, e: Event): Option<Rule> {
    match e
    case TurnStart(t) =>
      if g.openTurn.Some? then Some(SingleOpenTurn) else if t <= g.lastTurn then Some(MonotonicTurnId) else None
    case TurnSuspend(t, s, callIds, approvalIds) => SuspendRule(g, t, s, callIds, approvalIds)
    case TurnResume(t, s, _) => ResumeRule(g, t, s)
    case TurnEnd(t, _) => TurnEndRule(g, t)
    case StepStart(t, s) =>
      if g.openTurn != Some(t) then Some(StepInsideTurn)
      else if g.openStep.Some? then Some(SingleOpenStep)
      else if s <= g.lastStep then Some(GlobalMonotonicStepId)
      else None
    case StepEnd(t, s, _) => StepEndRule(g, t, s)
    case _ => None
  }

  predicate StartedFor(g: Guard, retry: string, request: string, attempt: nat) {
    retry in g.retries && g.retries[retry] == Retry(request, attempt, Started)
  }

  function RequestRule(g: Guard, e: Event): Option<Rule> {
    match e
    case UserMessage(t) => if g.openTurn != Some(t) then Some(InputInsideTurn) else None
    case ContextInjected(t, s) => if !AtStep(g, t, s) then Some(ContextInsideStep) else None
    case RequestHeader(h, _) =>
      if !AtStep(g, h.turn, h.step) then Some(RequestInsideStep)
      else if h.request in g.requests then Some(UniqueRequestId)
      else None
    case RequestContext(r) => if r !in g.requests then Some(RequestContextReference) else None
    case RequestAttempt(r, n, retry) =>
      if r !in g.requests then Some(RequestAttemptReference)
      else if n != g.requests[r].lastAttempt + 1 then Some(MonotonicRequestAttempt)
      else if retry.Some? && !StartedFor(g, retry.value, r, n) then Some(AttemptRetryReference)
      else if retry.None? && n != 1 then Some(RetryRequired)
      else None
    case RequestFailure(r, n) =>
      if r !in g.requests then Some(RequestFailureReference)
      else if n != g.requests[r].lastAttempt then Some(FailureAttemptReference)
      else None
    case AssistantChunk(h) => AssistantRule(g, h)
    case AssistantMessage(h, _) => AssistantRule(g, h)
    case _ => None
  }

  function AssistantRule(g: Guard, h: Handle): Option<Rule> {
    if h.request !in g.requests then Some(AssistantRequestReference)
    else if !OwnsRequest(g, h) then Some(AssistantRequestOwner)
    else None
  }

  predicate OwnsRequest(g: Guard, h: Handle) {
    h.request in g.requests && g.requests[h.request].turn == h.turn && g.requests[h.request].step == h.step
  }

  function ToolRule(g: Guard, e: Event): Option<Rule> {
    match e
    case ToolCall(c, h, _, _) =>
      if h.request !in g.requests then Some(ToolRequestReference)
      else if !OwnsRequest(g, h) || !AtStep(g, h.turn, h.step) then Some(ToolInsideRequestStep)
      else if c in g.calls then Some(UniqueToolCall)
      else None
    case ToolResult(c, t, s) =>
      if c !in g.calls then Some(ToolResultReference)
      else if g.calls[c].result then Some(SingleToolResult)
      else if !CallAt(g, c, t, s) then Some(ToolResultOwner)
      else if g.calls[c].approval.Some? && !g.calls[c].decided then Some(ApprovalBeforeResult)
      else None
    case ApprovalRequest(a, c, _) =>
      if c !in g.calls then Some(ApprovalCallReference)
      else if a in g.approvals || g.calls[c].approval.Some? then Some(SingleApprovalRequest)
      else None
    case ApprovalDecision(a, c, _) =>
      if a !in g.approvals || g.approvals[a] != c || c !in g.calls then Some(ApprovalDecisionReference)
      else if g.calls[c].decided then Some(SingleApprovalDecision)
      else None
    case _ => None
  }

  function RetryRule(g: Guard, e: Event): Option<Rule> {
    match e
    case RetryScheduled(r, q, previous, next) =>
      if q !in g.requests then Some(RetryRequestReference)
      else if previous != g.requests[q].lastAttempt || next != previous + 1 then Some(RetryAttemptSequence)
      else if r in g.retries then Some(UniqueRetryId)
      else None
    case RetryStarted(r, q, n) =>
      if r !in g.retries || g.retries[r].phase != Scheduled then Some(RetryStartReference)
      else if g.retries[r].request != q || g.retries[r].nextAttempt != n then Some(RetryStartMatch)
      else None
    case RetryCancelled(r) =>
      if r !in g.retries || (g.retries[r].phase != Scheduled && g.retries[r].phase != Started) then Some(RetryCancelReference)
      else None
    case _ => None
  }

  /** The first rule the event breaks. */
  function Broken(g: Guard, e: Event): Option<Rule> {
    if !WellFormed(e) then Some(Malformed)
    else if Bracket(e) then BracketRule(g, e)
    else if Tool(e) then ToolRule(g, e)
    else if e.RetryScheduled? || e.RetryStarted? || e.RetryCancelled? then RetryRule(g, e)
    else RequestRule(g, e)
  }

  /** Events that open or close a turn or step, or pause one. */
  predicate Bracket(e: Event) {
    e.TurnStart? || e.StepStart? || e.StepEnd? || e.TurnEnd? || e.TurnSuspend? || e.TurnResume?
  }

  predicate Tool(e: Event) {
    e.ToolCall? || e.ToolResult? || e.ApprovalRequest? || e.ApprovalDecision?
  }

  predicate Allowed(g: Guard, e: Event) {
    Broken(g, e).None?
  }

  // ----- what an event changes -----

  function AfterBracket(g: Guard, e: Event): Guard
    requires Bracket(e)
  {
    match e
    case TurnStart(t) => g.(openTurn := Some(t), lastTurn := t)
    case StepStart(_, s) => g.(openStep := Some(s), lastStep := s)
    case StepEnd(_, _, _) => g.(openStep := None)
    case TurnEnd(_, _) => g.(openTurn := None)
    case TurnSuspend(t, s, callIds, approvalIds) => g.(suspension := Some(Suspended(t, s, callIds, approvalIds)))
    case TurnResume(_, _, _) => g.(suspension := None)
  }

  function AfterTool(g: Guard, e: Event): Guard
    requires Tool(e) && Allowed(g, e)
  {
    match e
    case ToolCall(c, h, _, _) =>
      g.(calls := g.calls[c := Call(h.turn, h.step, None, false, false)], unresolvedCalls := g.unresolvedCalls + {c})
    case ToolResult(c, _, _) =>
      g.(calls := g.calls[c := g.calls[c].(result := true)], unresolvedCalls := g.unresolvedCalls - {c})
    case ApprovalRequest(a, c, _) =>
      g.(approvals := g.approvals[a := c], calls := g.calls[c := g.calls[c].(approval := Some(a))],
         pendingApprovals := g.pendingApprovals + {a})
    case ApprovalDecision(a, c, _) =>
      g.(calls := g.calls[c := g.calls[c].(decided := true)], pendingApprovals := g.pendingApprovals - {a})
  }

  /** A phase a retry leaves only by `request/attempt` or `retry/cancelled`. */
  function SetPhase(g: Guard, retry: string, phase: Phase): Guard
    requires retry in g.retries
  {
    g.(retries := g.retries[retry := g.retries[retry].(phase := phase)],
       pendingRetries := if phase == Started then g.pendingRetries else g.pendingRetries - {retry})
  }

  function AfterRequest(g: Guard, e: Event): Guard
    requires !Tool(e) && !Bracket(e) && Allowed(g, e)
  {
    match e
    case RequestHeader(h, _) => g.(requests := g.requests[h.request := Request(h.turn, h.step, 0)])
    case RequestAttempt(r, n, retry) =>
      var u := if retry.Some? then SetPhase(g, retry.value, Consumed) else g;
      u.(requests := u.requests[r := u.requests[r].(lastAttempt := n)])
    case RetryScheduled(r, q, _, next) =>
      g.(retries := g.retries[r := Retry(q, next, Scheduled)], pendingRetries := g.pendingRetries + {r})
    case RetryStarted(r, _, _) => SetPhase(g, r, Started)
    case RetryCancelled(r) => SetPhase(g, r, Cancelled)
    case _ => g
  }

  function After(g: Guard, e: Event): Guard
    requires Allowed(g, e)
  {
    if Bracket(e) then AfterBracket(g, e) else if Tool(e) then AfterTool(g, e) else AfterRequest(g, e)
  }

  /** One pass over a history, stopped by the first broken rule. */
  function Validate(g: Guard, events: seq<Event>): Result<Guard, Rule>
    decreases |events|
  {
    if events == [] then Ok(g)
    else if !Allowed(g, events[0]) then Err(Broken(g, events[0]).value)
    else Validate(After(g, events[0]), events[1..])
  }

  function GuardOf(log: seq<Event>): Result<Guard, Rule> {
    Validate(EMPTY, log)
  }

  /** A history takes a batch as a whole or not at all; it takes no empty one. */
  predicate Accepts(log: seq<Event>, batch: seq<Event>) {
    batch != [] && GuardOf(log + batch).Ok?
  }

  // ----- what a history holds -----

  predicate HasCall(log: seq<Event>, c: string) {
    exists e :: e in log && e.ToolCall? && e.callId == c
  }

  predicate HasResult(log: seq<Event>, c: string) {
    exists e :: e in log && e.ToolResult? && e.callId == c
  }

  predicate HasRequest(log: seq<Event>, a: string) {
    exists e :: e in log && e.ApprovalRequest? && e.approvalId == a
  }

  predicate HasDecision(log: seq<Event>, a: string) {
    exists e :: e in log && e.ApprovalDecision? && e.approvalId == a
  }

  predicate HasHeader(log: seq<Event>, r: string) {
    exists e :: e in log && e.RequestHeader? && e.handle.request == r
  }
}

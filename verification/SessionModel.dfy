/** The event log of a chat session. */
module SessionModel {
  // The brackets of turns and steps, the per-session queue of operations, and the batches the turn
  // builders append to a guarded history.

  import opened Wrappers
  import opened HistoryModel

  // ----- the brackets -----

  /** What is open: nothing, a turn, a step of it, or a suspended step. */
  datatype Mode = Idle | InTurn(turn: nat) | InStep(turn: nat, step: nat) | Paused(turn: nat, step: nat)

  function ModeIn(g: Guard): Mode {
    if g.openTurn.None? then Idle
    else if g.openStep.None? then InTurn(g.openTurn.value)
    else if g.suspension.None? then InStep(g.openTurn.value, g.openStep.value)
    else Paused(g.openTurn.value, g.openStep.value)
  }

  /** None stands for a history the guard does not accept. */
  function ModeOf(log: seq<Event>): Option<Mode> {
    if GuardOf(log).Ok? then Some(ModeIn(GuardOf(log).value)) else None
  }

  /** The bracket automaton. */
  function Next(m: Mode, e: Event): Option<Mode> {
    match e
    case TurnStart(t) => if m == Idle then Some(InTurn(t)) else None
    case StepStart(t, s) => if m == InTurn(t) then Some(InStep(t, s)) else None
    case StepEnd(t, s, _) => if m == InStep(t, s) then Some(InTurn(t)) else None
    case TurnEnd(t, _) => if m == InTurn(t) then Some(Idle) else None
    case TurnSuspend(t, s, _, _) => if m == InStep(t, s) then Some(Paused(t, s)) else None
    case TurnResume(t, s, _) => if m == Paused(t, s) then Some(InStep(t, s)) else None
    case _ => Some(m)
  }

  // ----- numbering -----

  function Max(a: nat, b: nat): nat {
    if a < b then b else a
  }

  /** The largest number of a `turn/start`, 0 when there is none. */
  function LastTurn(log: seq<Event>): nat {
    if log == [] then 0
    else
      var e := log[|log| - 1];
      if e.TurnStart? then Max(LastTurn(log[..|log| - 1]), e.turn) else LastTurn(log[..|log| - 1])
  }

  function LastStep(log: seq<Event>): nat {
    if log == [] then 0
    else
      var e := log[|log| - 1];
      if e.StepStart? then Max(LastStep(log[..|log| - 1]), e.step) else LastStep(log[..|log| - 1])
  }

  // ----- the builders -----

  datatype Closing = Fail(attempt: nat) | Abort | Complete(finishReason: string) | Cancel
                   | Suspend(finishReason: string, callIds: seq<string>, approvalIds: seq<string>)

  datatype Job =
    | Begin(request: string)
    | NextStep(previous: Handle, request: string)
    | Resume(suspended: Handle, request: string)
    | Close(handle: Handle, closing: Closing)
    | Append(events: seq<Event>)

  function RequestEvents(h: Handle, reason: string): seq<Event> {
    [RequestHeader(h, reason), RequestContext(h.request), RequestAttempt(h.request, 1, None)]
  }

  function EndReason(finishReason: string): string {
    if finishReason == "abort" then "aborted" else "completed"
  }

  function ClosingBatch(h: Handle, closing: Closing): seq<Event> {
    match closing
    case Fail(attempt) =>
      [RequestFailure(h.request, attempt), StepEnd(h.turn, h.step, "provider-error"), TurnEnd(h.turn, "provider-error")]
    case Abort => [StepEnd(h.turn, h.step, "aborted"), TurnEnd(h.turn, "aborted")]
    case Complete(finish) =>
      [AssistantMessage(h, finish), StepEnd(h.turn, h.step, EndReason(finish)), TurnEnd(h.turn, EndReason(finish))]
    case Cancel =>
      [TurnResume(h.turn, h.step, "cancel"), StepEnd(h.turn, h.step, "aborted"), TurnEnd(h.turn, "aborted")]
    case Suspend(finish, calls, approvals) =>
      [AssistantMessage(h, finish), TurnSuspend(h.turn, h.step, calls, approvals)]
  }

  /** The handle a builder returns; `turn` and `step` are the numbers `nextTurnAndStep` found. */
  function HandleOf(job: Job, turn: nat, step: nat): Handle {
    match job
    case Begin(request) => Handle(turn, step, request)
    case NextStep(previous, request) => Handle(previous.turn, previous.step + 1, request)
    case Resume(suspended, request) => Handle(suspended.turn, suspended.step, request)
    case Close(h, _) => h
    case Append(_) => Handle(0, 0, "")
  }

  function Batch(job: Job, turn: nat, step: nat): seq<Event> {
    var h := HandleOf(job, turn, step);
    match job
    case Begin(_) => [TurnStart(turn), UserMessage(turn), StepStart(turn, step)] + RequestEvents(h, "initial")
    case NextStep(p, _) => [StepEnd(p.turn, p.step, "completed"), StepStart(h.turn, h.step)] + RequestEvents(h, "step")
    case Resume(_, _) => [TurnResume(h.turn, h.step, "response")] + RequestEvents(h, "resume")
    case Close(_, closing) => ClosingBatch(h, closing)
    case Append(events) => events
  }

  /** `settleChatProviderEnd`: a response that waits for the human suspends, any other completes. */
  function SettleJob(h: Handle, messageId: string, finish: string, waiting: Option<(seq<string>, seq<string>)>): Option<Job> {
    if messageId == "" then None
    else if waiting.Some? && (waiting.value.0 != [] || waiting.value.1 != []) then
      Some(Close(h, Suspend(finish, waiting.value.0, waiting.value.1)))
    else Some(Close(h, Complete(finish)))
  }

  // ----- the queue -----

  /** `fault` marks a call that met a failing read or append. */
  datatype Status =
    | Waiting
    | Running
    | Numbered(turn: nat, step: nat)
    | Checking(fault: bool)
    | Landed(handle: Handle)
    | AlreadyClosed
    | Rejected(fault: bool)

  datatype Ticket = Ticket(job: Job, status: Status)

  /** Tickets below `next` have left the queue; the ticket at `next` may be running. */
  datatype State = State(log: seq<Event>, tickets: seq<Ticket>, next: nat)

  function Init(): State {
    State([], [], 0)
  }

  function SetStatus(s: State, i: nat, status: Status): State
    requires i < |s.tickets|
  {
    s.(tickets := s.tickets[i := s.tickets[i].(status := status)])
  }

  function Enqueue(s: State, job: Job): State {
    s.(tickets := s.tickets + [Ticket(job, Waiting)])
  }

  function Start(s: State): State
    requires s.next < |s.tickets|
  {
    SetStatus(s, s.next, Running)
  }

  /** `nextTurnAndStep` inside the queued operation. */
  function Number(s: State): State
    requires s.next < |s.tickets|
  {
    SetStatus(s, s.next, Numbered(LastTurn(s.log) + 1, LastStep(s.log) + 1))
  }

  /** A failed operation leaves the queue; only a closer goes on to look at the log. */
  function Refuse(s: State, fault: bool): State
    requires s.next < |s.tickets|
  {
    var status := if s.tickets[s.next].job.Close? then Checking(fault) else Rejected(fault);
    SetStatus(s, s.next, status).(next := s.next + 1)
  }

  function BatchAt(s: State): seq<Event>
    requires s.next < |s.tickets|
  {
    var t := s.tickets[s.next];
    if t.status.Numbered? then Batch(t.job, t.status.turn, t.status.step) else Batch(t.job, 0, 0)
  }

  function HandleAt(s: State): Handle
    requires s.next < |s.tickets|
  {
    var t := s.tickets[s.next];
    if t.status.Numbered? then HandleOf(t.job, t.status.turn, t.status.step) else HandleOf(t.job, 0, 0)
  }

  function Land(s: State): State
    requires s.next < |s.tickets|
  {
    if Accepts(s.log, BatchAt(s)) then
      SetStatus(s, s.next, Landed(HandleAt(s))).(next := s.next + 1, log := s.log + BatchAt(s))
    else Refuse(s, false)
  }

  predicate ClosesEvent(e: Event, h: Handle) {
    (e.TurnEnd? && e.turn == h.turn) || (e.StepEnd? && e.turn == h.turn && e.step == h.step)
  }

  /** What `appendForOpenHandle` looks for in the log it read after a rejection. */
  predicate Closed(log: seq<Event>, h: Handle) {
    exists e :: e in log && ClosesEvent(e, h)
  }

  function Check(s: State, i: nat): State
    requires i < |s.tickets| && s.tickets[i].status.Checking? && s.tickets[i].job.Close?
  {
    SetStatus(s, i, if Closed(s.log, s.tickets[i].job.handle) then AlreadyClosed
                    else Rejected(s.tickets[i].status.fault))
  }

  datatype Action =
    | DoEnqueue(job: Job)
    | DoStart
    | DoNumber
    | DoReadFails
    | DoLand
    | DoLandFails
    | DoCheck(ticket: nat)
    | DoCheckFails(ticket: nat)
    | DoTool(event: Event)

  /**
   What callers put into the queue: `appendSessionEvents` gets no bracket events.
   */
  predicate Queued(job: Job) {
    job.Append? ==> forall e :: e in job.events ==> !Bracket(e)
  }

  /** The tool executor appends beside the queue; the guard takes its event or refuses it. */
  function AppendBeside(s: State, e: Event): State {
    if Accepts(s.log, [e]) then s.(log := s.log + [e]) else s
  }

  /** A ticket has its numbers when it needs them, so its append may be attempted. */
  predicate ReadyToLand(t: Ticket) {
    if t.job.Begin? then t.status.Numbered? else t.status == Running
  }

  predicate Enabled(s: State, a: Action) {
    match a
    case DoEnqueue(job) => Queued(job)
    case DoStart => s.next < |s.tickets| && s.tickets[s.next].status == Waiting
    case DoNumber => s.next < |s.tickets| && s.tickets[s.next].job.Begin? && s.tickets[s.next].status == Running
    case DoReadFails => s.next < |s.tickets| && s.tickets[s.next].job.Begin? && s.tickets[s.next].status == Running
    case DoLand => s.next < |s.tickets| && ReadyToLand(s.tickets[s.next])
    case DoLandFails => s.next < |s.tickets| && ReadyToLand(s.tickets[s.next])
    case DoCheck(i) => i < |s.tickets| && s.tickets[i].status.Checking? && s.tickets[i].job.Close?
    case DoCheckFails(i) => i < |s.tickets| && s.tickets[i].status.Checking? && s.tickets[i].job.Close?
    case DoTool(e) => !Bracket(e)
  }

  function Apply(s: State, a: Action): State
    requires Enabled(s, a)
  {
    match a
    case DoEnqueue(job) => Enqueue(s, job)
    case DoStart => Start(s)
    case DoNumber => Number(s)
    case DoReadFails => Refuse(s, true)
    case DoLand => Land(s)
    case DoLandFails => Refuse(s, true)
    case DoCheck(i) => Check(s, i)
    case DoCheckFails(i) => SetStatus(s, i, Rejected(true))
    case DoTool(e) => AppendBeside(s, e)
  }

  predicate ValidRun(s: State, acts: seq<Action>)
    decreases |acts|
  {
    acts == [] || (Enabled(s, acts[0]) && ValidRun(Apply(s, acts[0]), acts[1..]))
  }

  function Run(s: State, acts: seq<Action>): State
    requires ValidRun(s, acts)
    decreases |acts|
  {
    if acts == [] then s else Run(Apply(s, acts[0]), acts[1..])
  }

  // ----- the suspension read back from the log -----

  function LastSuspend(log: seq<Event>): (r: Option<Event>)
    ensures r.Some? ==> r.value.TurnSuspend? && r.value in log
  {
    if log == [] then None
    else
      var e := log[|log| - 1];
      if e.TurnSuspend? then Some(e)
      else if e.TurnResume? || e.TurnEnd? then None
      else LastSuspend(log[..|log| - 1])
  }

  /** `approvalByCallId`: the latest request for a call wins. */
  function ApprovalFor(log: seq<Event>, callId: string): (r: Option<string>)
    ensures r.Some? ==> exists e :: e in log && e.ApprovalRequest? && e.callId == callId && e.approvalId == r.value
    ensures r.None? ==> forall e :: e in log && e.ApprovalRequest? ==> e.callId != callId
  {
    if log == [] then None
    else
      var e := log[|log| - 1];
      if e.ApprovalRequest? && e.callId == callId then Some(e.approvalId)
      else ApprovalFor(log[..|log| - 1], callId)
  }

  /** The handle of the first `tool/call` for the id. */
  function FirstCall(log: seq<Event>, callId: string): (r: Option<Handle>)
    ensures r.Some? ==> exists e :: e in log && e.ToolCall? && e.callId == callId && e.handle == r.value
    ensures r.None? ==> forall e :: e in log && e.ToolCall? ==> e.callId != callId
  {
    if log == [] then None
    else if log[0].ToolCall? && log[0].callId == callId then Some(log[0].handle)
    else FirstCall(log[1..], callId)
  }

  predicate PendingCall(log: seq<Event>, callId: string) {
    !HasResult(log, callId) &&
    (ApprovalFor(log, callId).None? || !HasDecision(log, ApprovalFor(log, callId).value))
  }

  function PendingCalls(log: seq<Event>, callIds: seq<string>): seq<string> {
    if callIds == [] then []
    else (if PendingCall(log, callIds[0]) then [callIds[0]] else []) + PendingCalls(log, callIds[1..])
  }

  function PendingApprovals(log: seq<Event>, approvalIds: seq<string>): seq<string> {
    if approvalIds == [] then []
    else (if HasDecision(log, approvalIds[0]) then [] else [approvalIds[0]]) + PendingApprovals(log, approvalIds[1..])
  }

  datatype Suspension = Suspension(owner: Handle, pendingCalls: seq<string>, pendingApprovals: seq<string>)

  datatype ReadError = MissingApproval | MissingCall | NoOwner

  /** `readOwnedSuspension`. */
  function ReadSuspension(log: seq<Event>): Result<Option<Suspension>, ReadError> {
    match LastSuspend(log)
    case None => Ok(None)
    case Some(e) =>
      if exists a :: a in e.approvalIds && !HasRequest(log, a) then Err(MissingApproval)
      else if exists c :: c in e.callIds && FirstCall(log, c).None? then Err(MissingCall)
      else if e.callIds == [] then Err(NoOwner)
      else Ok(Some(Suspension(FirstCall(log, e.callIds[0]).value,
                              PendingCalls(log, e.callIds), PendingApprovals(log, e.approvalIds))))
  }

  predicate ReadyToResume(r: Suspension) {
    r.pendingCalls == [] && r.pendingApprovals == []
  }

  datatype OpenError = Unreadable(error: ReadError) | StillWaiting

  /** `beginOwnedChatRequest`: the one job it may queue for the log it read. */
  function ChooseRequest(log: seq<Event>, request: string): Result<Job, OpenError> {
    match ReadSuspension(log)
    case Err(error) => Err(Unreadable(error))
    case Ok(None) => Ok(Begin(request))
    case Ok(Some(r)) => if ReadyToResume(r) then Ok(Resume(r.owner, request)) else Err(StillWaiting)
  }
}

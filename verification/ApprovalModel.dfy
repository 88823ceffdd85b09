/** Approvals over a guarded log. */
module ApprovalModel {
  // Call registrations and approval records of the tool executor: requests that first register
  // their call, decisions, rehydration from the durable log, and restarts that lose all records.
  // Every append has to pass the guard of the history.

  import opened Wrappers
  import opened HistoryModel

  type ApprovalId = string
  type CallId = string

  /** `AiToolCallIdentity`; `identity` stands for name, input and contributor. */
  datatype CallInput = CallInput(id: CallId, handle: Handle, identity: string, safe: bool)

  function CallEvent(call: CallInput): Event {
    ToolCall(call.id, call.handle, call.identity, call.safe)
  }

  /** The `persisted` promise of a registration. */
  datatype Persist = Reading | Appending | Persisted | PersistFailed

  datatype Registration = Registration(call: CallInput, persist: Persist)

  /** The `request` promise of a record; `Refused` stands for a call registered under another identity. */
  datatype Asked = Registering(registration: nat) | Refused | Asking | Durable | AskFailed

  /** The `decision` of a record; a failed append leaves the decision in place. */
  datatype Choice = Undecided | Deciding(outcome: string) | Chosen(outcome: string) | ChoiceFailed(outcome: string)

  datatype Record = Record(id: ApprovalId, call: CallId, policy: string, request: Asked, decision: Choice)

  /** `calls` and `records` are the objects of this process; `recorded` and `current` are the maps that find them. */
  datatype State = State(
    log: seq<Event>, base: nat, calls: seq<Registration>, recorded: map<CallId, nat>,
    records: seq<Record>, current: map<ApprovalId, nat>)

  function Boot(log: seq<Event>): State {
    State(log, |log|, [], map[], [], map[])
  }

  // ----- the call -----

  /** `registerCall`: a registered call is reused or refused; otherwise a new registration starts. */
  function Register(s: State, call: CallInput, rehydrate: bool): State {
    if call.id in s.recorded then s
    else s.(calls := s.calls + [Registration(call, if rehydrate then Reading else Appending)],
            recorded := s.recorded[call.id := |s.calls|])
  }

  function SetPersist(s: State, r: nat, p: Persist): State
    requires r < |s.calls|
  {
    s.(calls := s.calls[r := s.calls[r].(persist := p)])
  }

  function PersistFails(s: State, r: nat): State
    requires r < |s.calls|
  {
    var id := s.calls[r].call.id;
    SetPersist(s, r, PersistFailed).(
      recorded := if id in s.recorded && s.recorded[id] == r then s.recorded - {id} else s.recorded)
  }

  function FirstCallEvent(log: seq<Event>, call: CallId): (r: Option<Event>)
    ensures r.Some? ==> r.value in log && r.value.ToolCall? && r.value.callId == call
    ensures r.None? ==> forall e :: e in log && e.ToolCall? ==> e.callId != call
  {
    if log == [] then None
    else if log[0].ToolCall? && log[0].callId == call then Some(log[0])
    else FirstCallEvent(log[1..], call)
  }

  /** `ensureDurableCall` after its read of the first `k` events. */
  function PersistRead(s: State, r: nat, k: nat): State
    requires r < |s.calls| && k <= |s.log|
  {
    match FirstCallEvent(s.log[..k], s.calls[r].call.id)
    case None => SetPersist(s, r, Appending)
    case Some(e) => if e == CallEvent(s.calls[r].call) then SetPersist(s, r, Persisted) else PersistFails(s, r)
  }

  function CallLands(s: State, r: nat): State
    requires r < |s.calls|
  {
    SetPersist(s, r, Persisted).(log := s.log + [CallEvent(s.calls[r].call)])
  }

  // ----- the request -----

  function AddRecord(s: State, r: Record): State {
    s.(records := s.records + [r], current := s.current[r.id := |s.records|])
  }

  /** How the request of a new record starts: its call is registered, or registered as another call. */
  function FirstAsked(s: State, call: CallInput): Asked {
    if call.id in s.recorded && s.recorded[call.id] < |s.calls| then
      (if s.calls[s.recorded[call.id]].call == call then Registering(s.recorded[call.id]) else Refused)
    else Registering(|s.calls|)
  }

  /** `recordApprovalRequest`: an existing record is joined or refused; otherwise a new one registers its call. */
  function Ask(s: State, id: ApprovalId, call: CallInput, policy: string): State {
    if id in s.current then s
    else AddRecord(Register(s, call, false), Record(id, call.id, policy, FirstAsked(s, call), Undecided))
  }

  function SetAsked(s: State, r: nat, a: Asked): State
    requires r < |s.records|
  {
    s.(records := s.records[r := s.records[r].(request := a)])
  }

  function RequestEvent(r: Record): Event {
    ApprovalRequest(r.id, r.call, r.policy)
  }

  function AskLands(s: State, r: nat): State
    requires r < |s.records|
  {
    SetAsked(s, r, Durable).(log := s.log + [RequestEvent(s.records[r])])
  }

  function AskFails(s: State, r: nat): State
    requires r < |s.records|
  {
    var id := s.records[r].id;
    SetAsked(s, r, AskFailed).(
      current := if id in s.current && s.current[id] == r then s.current - {id} else s.current)
  }

  /** The request of a record cannot go on: its call failed or was refused, or its own append may fail. */
  predicate MayFail(s: State, a: Asked) {
    match a
    case Registering(c) => c < |s.calls| && s.calls[c].persist == PersistFailed
    case Refused => true
    case Asking => true
    case _ => false
  }

  // ----- rehydration -----

  function FirstRequest(log: seq<Event>, id: ApprovalId, call: CallId): (r: Option<Event>)
    ensures r.Some? ==> r.value in log && r.value.ApprovalRequest? && r.value.approvalId == id && r.value.callId == call
    ensures r.None? ==> forall e :: e in log && e.ApprovalRequest? && e.approvalId == id ==> e.callId != call
  {
    if log == [] then None
    else if log[0].ApprovalRequest? && log[0].approvalId == id && log[0].callId == call then Some(log[0])
    else FirstRequest(log[1..], id, call)
  }

  function FirstDecision(log: seq<Event>, id: ApprovalId, call: CallId): (r: Option<Event>)
    ensures r.Some? ==> r.value in log && r.value.ApprovalDecision? && r.value.approvalId == id && r.value.callId == call
    ensures r.None? ==> forall e :: e in log && e.ApprovalDecision? && e.approvalId == id ==> e.callId != call
  {
    if log == [] then None
    else if log[0].ApprovalDecision? && log[0].approvalId == id && log[0].callId == call then Some(log[0])
    else FirstDecision(log[1..], id, call)
  }

  /** `assertPersistedCall` leaves the concurrency of the call aside here. */
  predicate SameCall(e: Event, call: CallInput)
    requires e.ToolCall?
  {
    e.callId == call.id && e.handle == call.handle && e.identity == call.identity
  }

  /** The record `hydrateApproval` builds from the part of the log it read, if it finds call and request. */
  function FromLog(log: seq<Event>, id: ApprovalId, call: CallInput): Option<Record> {
    var first := FirstCallEvent(log, call.id);
    if first.None? || !SameCall(first.value, call) then None
    else
      match FirstRequest(log, id, call.id)
      case None => None
      case Some(request) =>
        var decision := FirstDecision(log, id, call.id);
        Some(Record(id, call.id, request.policy, Durable,
                    if decision.Some? then Chosen(decision.value.outcome) else Undecided))
  }

  /** `hydrateApproval` having read the first `k` events: an existing record wins over the one built. */
  function Hydrate(s: State, id: ApprovalId, call: CallInput, k: nat): State
    requires k <= |s.log|
  {
    var built := FromLog(s.log[..k], id, call);
    if built.None? || id in s.current then s else AddRecord(s, built.value)
  }

  // ----- the decision -----

  function SetChoice(s: State, r: nat, c: Choice): State
    requires r < |s.records|
  {
    s.(records := s.records[r := s.records[r].(decision := c)])
  }

  /** `recordApprovalDecision` on a record: only its owner decides, and only once. */
  function Choose(s: State, r: nat, call: CallId, outcome: string): State
    requires r < |s.records|
  {
    if s.records[r].call != call || s.records[r].decision != Undecided then s else SetChoice(s, r, Deciding(outcome))
  }

  function DecisionEvent(r: Record): Event
    requires r.decision.Deciding?
  {
    ApprovalDecision(r.id, r.call, r.decision.outcome)
  }

  function ChoiceLands(s: State, r: nat): State
    requires r < |s.records| && s.records[r].decision.Deciding?
  {
    SetChoice(s, r, Chosen(s.records[r].decision.outcome)).(log := s.log + [DecisionEvent(s.records[r])])
  }

  // ----- runs -----

  /**
   An append may fail at any time; it lands only when the guard accepts the event. The rest of the
   application appends beside the executor, and a restart may repair the log before it goes on.
   */
  datatype Action =
    | DoRegister(call: CallInput, rehydrate: bool)
    | DoPersistRead(registration: nat, read: nat)
    | DoCallLands(registration: nat)
    | DoPersistFails(registration: nat)
    | DoAsk(id: ApprovalId, call: CallInput, policy: string)
    | DoCallAwaited(record: nat)
    | DoAskLands(record: nat)
    | DoAskFails(record: nat)
    | DoHydrate(id: ApprovalId, call: CallInput, read: nat)
    | DoChoose(record: nat, callId: CallId, outcome: string)
    | DoChoiceLands(record: nat)
    | DoChoiceFails(record: nat)
    | DoOther(batch: seq<Event>)
    | Restart(repair: seq<Event>)

  predicate Enabled(s: State, a: Action) {
    match a
    case DoRegister(_, _) => true
    case DoPersistRead(r, k) => r < |s.calls| && s.calls[r].persist == Reading && s.base <= k <= |s.log|
    case DoCallLands(r) => r < |s.calls| && s.calls[r].persist == Appending && Accepts(s.log, [CallEvent(s.calls[r].call)])
    case DoPersistFails(r) => r < |s.calls| && (s.calls[r].persist == Reading || s.calls[r].persist == Appending)
    case DoAsk(_, _, _) => true
    case DoCallAwaited(r) =>
      && r < |s.records| && s.records[r].request.Registering?
      && s.records[r].request.registration < |s.calls| && s.calls[s.records[r].request.registration].persist == Persisted
    case DoAskLands(r) => r < |s.records| && s.records[r].request == Asking && Accepts(s.log, [RequestEvent(s.records[r])])
    case DoAskFails(r) => r < |s.records| && MayFail(s, s.records[r].request)
    case DoHydrate(_, _, k) => s.base <= k <= |s.log|
    case DoChoose(r, _, _) => r < |s.records|
    case DoChoiceLands(r) =>
      && r < |s.records| && s.records[r].decision.Deciding? && s.records[r].request == Durable
      && Accepts(s.log, [DecisionEvent(s.records[r])])
    case DoChoiceFails(r) => r < |s.records| && s.records[r].decision.Deciding?
    case DoOther(batch) => Accepts(s.log, batch)
    case Restart(repair) => repair == [] || Accepts(s.log, repair)
  }

  function Apply(s: State, a: Action): State
    requires Enabled(s, a)
  {
    match a
    case DoRegister(call, rehydrate) => Register(s, call, rehydrate)
    case DoPersistRead(r, k) => PersistRead(s, r, k)
    case DoCallLands(r) => CallLands(s, r)
    case DoPersistFails(r) => PersistFails(s, r)
    case DoAsk(id, call, policy) => Ask(s, id, call, policy)
    case DoCallAwaited(r) => SetAsked(s, r, Asking)
    case DoAskLands(r) => AskLands(s, r)
    case DoAskFails(r) => AskFails(s, r)
    case DoHydrate(id, call, k) => Hydrate(s, id, call, k)
    case DoChoose(r, call, outcome) => Choose(s, r, call, outcome)
    case DoChoiceLands(r) => ChoiceLands(s, r)
    case DoChoiceFails(r) => SetChoice(s, r, ChoiceFailed(s.records[r].decision.outcome))
    case DoOther(batch) => s.(log := s.log + batch)
    case Restart(repair) => Boot(s.log + repair)
  }

  predicate ValidRun(s: State, acts: seq<Action>)
    decreases |acts|
  {
    acts == [] || (Enabled(s, acts[0]) && ValidRun(Apply(s, acts[0]), acts[1..]))
  }

  function Run(s: State, acts: seq<Action>): State
    requires ValidRun(s, acts)
    decreases |acts|
  {
    if acts == [] then s else Run(Apply(s, acts[0]), acts[1..])
  }
}

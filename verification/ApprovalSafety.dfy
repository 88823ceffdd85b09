/** One durable decision per approval, on every run. */
module ApprovalSafety {
  // On every run with restarts an approval has at most one durable decision, the records say what
  // is durable, and a request lands exactly when it is fresh.

  import opened Wrappers
  import opened HistoryModel
  import opened HistorySafety
  import opened ApprovalModel

  function Decisions(log: seq<Event>, id: ApprovalId): nat {
    if log == [] then 0
    else Decisions(log[..|log| - 1], id) + if log[|log| - 1].ApprovalDecision? && log[|log| - 1].approvalId == id then 1 else 0
  }

  /** No request of the approval, and none for the call. */
  predicate Fresh(log: seq<Event>, id: ApprovalId, call: CallId) {
    forall e :: e in log && e.ApprovalRequest? ==> e.approvalId != id && e.callId != call
  }

  // ----- the invariant -----

  /** A record whose request did not fail. */
  predicate Alive(r: Record) { r.request != AskFailed }

  /** What a record claims is durable is in the log. */
  predicate RecordOk(r: Record, log: seq<Event>, calls: seq<Registration>) {
    && (r.request.Registering? ==> r.request.registration < |calls| && calls[r.request.registration].call.id == r.call)
    && (r.request == Asking ==> HasCall(log, r.call))
    && (r.request == Durable ==> RequestEvent(r) in log)
    && (r.decision.Chosen? ==> r.request == Durable && ApprovalDecision(r.id, r.call, r.decision.outcome) in log)
  }

  predicate RegistrationOk(c: Registration, log: seq<Event>) {
    c.persist == Persisted ==> HasCall(log, c.call.id)
  }

  ghost predicate CallsInv(log: seq<Event>, calls: seq<Registration>, recorded: map<CallId, nat>) {
    && (forall c :: 0 <= c < |calls| ==> RegistrationOk(calls[c], log))
    && (forall id :: id in recorded ==> recorded[id] < |calls| && calls[recorded[id]].call.id == id)
  }

  ghost predicate RecordsInv(log: seq<Event>, calls: seq<Registration>, records: seq<Record>) {
    forall r :: 0 <= r < |records| ==> RecordOk(records[r], log, calls)
  }

  /** The map names exactly the live records. */
  ghost predicate CurrentInv(records: seq<Record>, current: map<ApprovalId, nat>) {
    && (forall id :: id in current ==> current[id] < |records| && records[current[id]].id == id && Alive(records[current[id]]))
    && (forall r :: 0 <= r < |records| && Alive(records[r]) ==> records[r].id in current && current[records[r].id] == r)
  }

  ghost predicate Inv(s: State) {
    && GuardOf(s.log).Ok? && s.base <= |s.log|
    && CallsInv(s.log, s.calls, s.recorded) && RecordsInv(s.log, s.calls, s.records)
    && CurrentInv(s.records, s.current)
  }

  // ----- the log grows -----

  lemma OtherKeepsInv(s: State, batch: seq<Event>)
    requires Inv(s) && Accepts(s.log, batch)
    ensures Inv(s.(log := s.log + batch))
  {
    hide Validate, CurrentInv;
    var t := s.(log := s.log + batch);
    assert forall e :: e in s.log ==> e in t.log;
    forall r | 0 <= r < |t.records| ensures RecordOk(t.records[r], t.log, t.calls) {
      assert RecordOk(s.records[r], s.log, s.calls);
    }
    forall c | 0 <= c < |t.calls| ensures RegistrationOk(t.calls[c], t.log) { assert RegistrationOk(s.calls[c], s.log); }
  }

  // ----- calls -----

  lemma PersistKeepsInv(s: State, r: nat, p: Persist)
    requires Inv(s) && r < |s.calls| && (p == Persisted ==> HasCall(s.log, s.calls[r].call.id))
    ensures Inv(SetPersist(s, r, p))
  {
    hide GuardOf, HasCall;
    var t := SetPersist(s, r, p);
    forall q | 0 <= q < |t.records| ensures RecordOk(t.records[q], t.log, t.calls) {
      assert RecordOk(s.records[q], s.log, s.calls);
    }
  }

  lemma PersistFailsKeepsInv(s: State, r: nat)
    requires Inv(s) && r < |s.calls|
    ensures Inv(PersistFails(s, r))
  {
    hide GuardOf, RecordOk;
    PersistKeepsInv(s, r, PersistFailed);
  }

  lemma RegisterKeepsInv(s: State, call: CallInput, rehydrate: bool)
    requires Inv(s)
    ensures Inv(Register(s, call, rehydrate))
  {
    hide GuardOf, HasCall;
    var t := Register(s, call, rehydrate);
    forall q | 0 <= q < |t.records| ensures RecordOk(t.records[q], t.log, t.calls) {
      assert RecordOk(s.records[q], s.log, s.calls);
    }
  }

  lemma PersistReadKeepsInv(s: State, r: nat, k: nat)
    requires Inv(s) && Enabled(s, DoPersistRead(r, k))
    ensures Inv(PersistRead(s, r, k))
  {
    hide GuardOf, CallsInv, RecordsInv, CurrentInv;
    var found := FirstCallEvent(s.log[..k], s.calls[r].call.id);
    if found.None? {
      PersistKeepsInv(s, r, Appending);
    } else if found.value == CallEvent(s.calls[r].call) {
      assert found.value in s.log;
      PersistKeepsInv(s, r, Persisted);
    } else {
      PersistFailsKeepsInv(s, r);
    }
  }

  lemma CallLandsKeepsInv(s: State, r: nat)
    requires Inv(s) && Enabled(s, DoCallLands(r))
    ensures Inv(CallLands(s, r))
  {
    hide GuardOf, CallsInv, RecordsInv, CurrentInv, Accepts;
    var e := CallEvent(s.calls[r].call);
    OtherKeepsInv(s, [e]);
    assert e in s.log + [e];
    PersistKeepsInv(s.(log := s.log + [e]), r, Persisted);
  }

  // ----- records -----

  lemma AddKeepsInv(s: State, r: Record)
    requires Inv(s) && r.id !in s.current && Alive(r) && RecordOk(r, s.log, s.calls)
    ensures Inv(AddRecord(s, r))
  {
    hide GuardOf, HasCall;
  }

  lemma AskKeepsInv(s: State, id: ApprovalId, call: CallInput, policy: string)
    requires Inv(s)
    ensures Inv(Ask(s, id, call, policy))
  {
    hide GuardOf, HasCall, RecordsInv, CurrentInv, Register;
    if id !in s.current {
      RegisterKeepsInv(s, call, false);
      FirstAskedOk(s, id, call, policy);
      AddKeepsInv(Register(s, call, false), Record(id, call.id, policy, FirstAsked(s, call), Undecided));
    }
  }

  lemma FirstAskedOk(s: State, id: ApprovalId, call: CallInput, policy: string)
    requires Inv(s)
    ensures var t := Register(s, call, false);
      t.log == s.log && t.current == s.current &&
      RecordOk(Record(id, call.id, policy, FirstAsked(s, call), Undecided), t.log, t.calls)
  {
    hide GuardOf, HasCall, RecordsInv, CurrentInv;
  }

  /** A record may change while it stays alive, as long as it claims nothing false. */
  lemma ChangeKeepsInv(s: State, r: nat, record: Record)
    requires Inv(s) && r < |s.records| && RecordOk(record, s.log, s.calls)
    requires record.id == s.records[r].id && Alive(record) == Alive(s.records[r])
    ensures Inv(s.(records := s.records[r := record]))
  {
    hide GuardOf, HasCall;
  }

  lemma AskFailsKeepsInv(s: State, r: nat)
    requires Inv(s) && Enabled(s, DoAskFails(r))
    ensures Inv(AskFails(s, r))
  {
    hide GuardOf, HasCall;
    assert RecordOk(s.records[r], s.log, s.calls);
  }

  lemma AskLandsKeepsInv(s: State, r: nat)
    requires Inv(s) && Enabled(s, DoAskLands(r))
    ensures Inv(AskLands(s, r))
  {
    hide GuardOf, CallsInv, CurrentInv, Accepts, HasCall;
    var record := s.records[r];
    var t := s.(log := s.log + [RequestEvent(record)]);
    OtherKeepsInv(s, [RequestEvent(record)]);
    assert RequestEvent(record) in t.log;
    assert RecordOk(record, t.log, t.calls);
    ChangeKeepsInv(t, r, record.(request := Durable));
  }

  lemma ChoiceLandsKeepsInv(s: State, r: nat)
    requires Inv(s) && Enabled(s, DoChoiceLands(r))
    ensures Inv(ChoiceLands(s, r))
  {
    hide GuardOf, CallsInv, CurrentInv, Accepts, HasCall;
    var record := s.records[r];
    var t := s.(log := s.log + [DecisionEvent(record)]);
    OtherKeepsInv(s, [DecisionEvent(record)]);
    assert DecisionEvent(record) in t.log;
    assert RecordOk(record, t.log, t.calls);
    ChangeKeepsInv(t, r, record.(decision := Chosen(record.decision.outcome)));
  }

  lemma AcceptedLog(log: seq<Event>, batch: seq<Event>)
    requires Accepts(log, batch)
    ensures GuardOf(log + batch).Ok?
  {
  }

  lemma HydrateKeepsInv(s: State, id: ApprovalId, call: CallInput, k: nat)
    requires Inv(s) && s.base <= k <= |s.log|
    ensures Inv(Hydrate(s, id, call, k))
  {
    hide GuardOf, CallsInv, RecordsInv, HasCall;
    var seen := s.log[..k];
    var built := FromLog(seen, id, call);
    if built.Some? && id !in s.current {
      assert forall e :: e in seen ==> e in s.log;
      AddKeepsInv(s, built.value);
    }
  }

  /** A decision belongs to the call its approval was requested for. */
  lemma OneOwner(log: seq<Event>, request: Event, decision: Event)
    requires GuardOf(log).Ok? && request in log && decision in log
    requires request.ApprovalRequest? && decision.ApprovalDecision? && request.approvalId == decision.approvalId
    ensures request.callId == decision.callId
  {
    hide Validate, Tracks;
    GuardTracks(log);
    Known(log, GuardOf(log).value, request);
    Known(log, GuardOf(log).value, decision);
  }

  lemma ChoiceKeepsInv(s: State, r: nat, c: Choice)
    requires Inv(s) && r < |s.records| && !s.records[r].decision.Chosen? && !c.Chosen?
    ensures Inv(SetChoice(s, r, c))
  {
    hide GuardOf, HasCall, CallsInv, CurrentInv;
    assert RecordOk(s.records[r], s.log, s.calls);
    ChangeKeepsInv(s, r, s.records[r].(decision := c));
  }

  lemma AwaitedKeepsInv(s: State, r: nat)
    requires Inv(s) && Enabled(s, DoCallAwaited(r))
    ensures Inv(SetAsked(s, r, Asking))
  {
    hide GuardOf, HasCall, CurrentInv;
    var record := s.records[r];
    assert RecordOk(record, s.log, s.calls);
    assert RegistrationOk(s.calls[record.request.registration], s.log);
    ChangeKeepsInv(s, r, record.(request := Asking));
  }

  lemma BootInv(log: seq<Event>)
    requires GuardOf(log).Ok?
    ensures Inv(Boot(log))
  {
  }

  lemma StepKeepsInv(s: State, a: Action)
    requires Inv(s) && Enabled(s, a)
    ensures Inv(Apply(s, a))
  {
    hide GuardOf, Accepts, FromLog, CallsInv, RecordsInv, CurrentInv, RecordOk;
    match a
    case DoRegister(call, rehydrate) => RegisterKeepsInv(s, call, rehydrate);
    case DoPersistRead(r, k) => PersistReadKeepsInv(s, r, k);
    case DoCallLands(r) => CallLandsKeepsInv(s, r);
    case DoPersistFails(r) => PersistFailsKeepsInv(s, r);
    case DoAsk(id, call, policy) => AskKeepsInv(s, id, call, policy);
    case DoCallAwaited(r) => AwaitedKeepsInv(s, r);
    case DoAskLands(r) => AskLandsKeepsInv(s, r);
    case DoAskFails(r) => AskFailsKeepsInv(s, r);
    case DoHydrate(id, call, k) => HydrateKeepsInv(s, id, call, k);
    case DoChoose(r, call, outcome) =>
      if s.records[r].call == call && s.records[r].decision == Undecided { ChoiceKeepsInv(s, r, Deciding(outcome)); }
    case DoChoiceLands(r) => ChoiceLandsKeepsInv(s, r);
    case DoChoiceFails(r) => ChoiceKeepsInv(s, r, ChoiceFailed(s.records[r].decision.outcome));
    case DoOther(batch) => OtherKeepsInv(s, batch);
    case Restart(repair) =>
      assert repair == [] ==> s.log + repair == s.log;
      if repair != [] { AcceptedLog(s.log, repair); }
      BootInv(s.log + repair) by { GuardStays(s); }
  }

  lemma GuardStays(s: State)
    requires Inv(s)
    ensures GuardOf(s.log).Ok?
  {
  }

  lemma {:induction false} RunKeepsInv(s: State, acts: seq<Action>)
    requires Inv(s) && ValidRun(s, acts)
    ensures Inv(Run(s, acts))
    decreases |acts|
  {
    hide Inv, Apply, Enabled;
    if acts != [] {
      StepKeepsInv(s, acts[0]);
      RunKeepsInv(Apply(s, acts[0]), acts[1..]);
    }
  }

  // ----- what lands -----

  /** An approval or call id that no durable request carries is new to the guard. */
  lemma RequestsAgree(log: seq<Event>, id: ApprovalId, call: CallId)
    requires GuardOf(log).Ok? && HasCall(log, call)
    ensures var g := GuardOf(log).value;
      && call in g.calls
      && (Fresh(log, id, call) <==> id !in g.approvals && g.calls[call].approval.None?)
  {
    hide Validate, Tracks, HasDecision, HasResult, HasHeader, CallsOk, RetriesOk, SuspensionOk, BracketsOk;
    var g := GuardOf(log).value;
    GuardTracks(log);
    TracksMeans(log, g);
    var c :| c in log && c.ToolCall? && c.callId == call;
    Known(log, g, c);
    if id !in g.approvals && g.calls[call].approval.None? {
      forall e | e in log && e.ApprovalRequest? ensures e.approvalId != id && e.callId != call { Known(log, g, e); }
    }
    if id in g.approvals { assert HasRequest(log, id); }
    if g.calls[call].approval.Some? {
      var a := g.calls[call].approval.value;
      assert HasRequest(log, a);
      var e :| e in log && e.ApprovalRequest? && e.approvalId == a;
      Known(log, g, e);
    }
  }

  lemma RequestAllowed(g: Guard, r: Record)
    requires r.call in g.calls
    ensures Allowed(g, RequestEvent(r)) <==>
      r.id != "" && r.call != "" && r.id !in g.approvals && g.calls[r.call].approval.None?
  {
    hide BracketRule, RequestRule, RetryRule;
  }

  /**
   Nothing in `recordApprovalRequest` looks at the log; its append is accepted exactly when the log
   holds no request of the approval and none for the call.
   */
  lemma RequestLandsIffFresh(s: State, r: nat)
    requires Inv(s) && r < |s.records| && s.records[r].request == Asking
    ensures Accepts(s.log, [RequestEvent(s.records[r])]) <==>
      s.records[r].id != "" && Fresh(s.log, s.records[r].id, s.records[r].call)
  {
    hide Validate, Allowed, CallsInv, CurrentInv, Fresh, HasCall;
    var record := s.records[r];
    assert RecordOk(record, s.log, s.calls);
    AppendOne(s.log, RequestEvent(record));
    RequestsAgree(s.log, record.id, record.call);
    RequestAllowed(GuardOf(s.log).value, record);
    CallIsNamed(s.log, record.call);
  }

  lemma {:induction false} CallIsNamed(log: seq<Event>, call: CallId)
    requires GuardOf(log).Ok? && HasCall(log, call)
    ensures call != ""
    decreases |log|
  {
    hide Validate, Allowed;
    var e :| e in log && e.ToolCall? && e.callId == call;
    var n := |log| - 1;
    assert log == log[..n] + [log[n]];
    AppendOne(log[..n], log[n]);
    if log[n] == e { CallNamed(GuardOf(log[..n]).value, e); } else { CallIsNamed(log[..n], call); }
  }

  lemma CallNamed(g: Guard, e: Event)
    requires e.ToolCall? && Allowed(g, e)
    ensures e.callId != ""
  {
  }

  /**
   Asking again for an approval, or for a call, that the log already holds a request for: whether the
   call is registered anew, as after a restart, or was registered before, its append is refused.
   */
  lemma RepeatedRequestRefused(s: State, r: nat)
    requires Inv(s) && r < |s.records| && !Fresh(s.log, s.records[r].id, s.records[r].call)
    ensures s.records[r].request == Asking ==> !Accepts(s.log, [RequestEvent(s.records[r])])
    ensures s.records[r].request.Registering? && HasCall(s.log, s.records[r].call) ==>
      !Accepts(s.log, [CallEvent(s.calls[s.records[r].request.registration].call)])
  {
    hide Validate, CallsInv, CurrentInv, Fresh, HasCall, Allowed;
    var record := s.records[r];
    assert RecordOk(record, s.log, s.calls);
    if record.request == Asking { RequestLandsIffFresh(s, r); }
    if record.request.Registering? && HasCall(s.log, record.call) { CallOnce(s.log, s.calls[record.request.registration].call); }
  }

  /** A second `tool/call` for an id is refused. */
  lemma CallOnce(log: seq<Event>, call: CallInput)
    requires GuardOf(log).Ok? && HasCall(log, call.id)
    ensures !Accepts(log, [CallEvent(call)])
  {
    hide Validate, Tracks, BracketRule, RequestRule, RetryRule;
    var g := GuardOf(log).value;
    GuardTracks(log);
    var e :| e in log && e.ToolCall? && e.callId == call.id;
    Known(log, g, e);
    AppendOne(log, CallEvent(call));
  }

  // ----- decisions are not refused -----

  /** Nobody else decides approvals while the executor lives. */
  predicate Alone(a: Action) {
    a.DoOther? ==> forall e :: e in a.batch ==> !e.ApprovalDecision?
  }

  /** An open decision is not in the log, and each decision since the restart has a record. */
  ghost predicate OpenInv(s: State) {
    && (forall r :: 0 <= r < |s.records| && s.records[r].request == Durable && !s.records[r].decision.Chosen? ==>
          !HasDecision(s.log, s.records[r].id))
    && (forall k :: s.base <= k < |s.log| && s.log[k].ApprovalDecision? ==>
          Recorded(s, s.log[k].approvalId))
  }

  predicate Recorded(s: State, id: ApprovalId) {
    id in s.current && s.current[id] < |s.records| && s.records[s.current[id]].request == Durable
  }

  /** Steps that append no decision and leave the durable records alone. */
  lemma QuietKeepsOpen(s: State, t: State)
    requires OpenInv(s) && t.base == s.base && |s.log| <= |t.log| && t.log[..|s.log|] == s.log
    requires forall k :: |s.log| <= k < |t.log| ==> !t.log[k].ApprovalDecision?
    requires forall id :: Recorded(s, id) ==> Recorded(t, id)
    requires forall r :: 0 <= r < |t.records| && t.records[r].request == Durable && !t.records[r].decision.Chosen? ==>
      (r < |s.records| && s.records[r].id == t.records[r].id && s.records[r].request == Durable && !s.records[r].decision.Chosen?) ||
      !HasDecision(t.log, t.records[r].id)
    ensures OpenInv(t)
  {
    assert forall e :: e in t.log && e.ApprovalDecision? ==> e in s.log;
    forall k | t.base <= k < |t.log| && t.log[k].ApprovalDecision? ensures Recorded(t, t.log[k].approvalId) {
      assert t.log[k] == s.log[k];
    }
  }

  lemma AskLandsKeepsOpen(s: State, r: nat)
    requires Inv(s) && OpenInv(s) && Enabled(s, DoAskLands(r))
    ensures OpenInv(AskLands(s, r))
  {
    hide GuardOf, CallsInv, RecordsInv;
    NoDecisionYet(s.log, RequestEvent(s.records[r]));
    QuietKeepsOpen(s, AskLands(s, r));
  }

  /** The guard takes a request only when the approval has no decision yet. */
  lemma NoDecisionYet(log: seq<Event>, e: Event)
    requires GuardOf(log).Ok? && e.ApprovalRequest? && Accepts(log, [e])
    ensures !HasDecision(log + [e], e.approvalId)
  {
    hide Validate, Tracks, Coherent, BracketRule, RequestRule, RetryRule;
    AppendOne(log, e);
    GuardTracks(log);
    if HasDecision(log + [e], e.approvalId) {
      var d :| d in log + [e] && d.ApprovalDecision? && d.approvalId == e.approvalId;
      Known(log, GuardOf(log).value, d);
    }
  }

  lemma ChoiceLandsKeepsOpen(s: State, r: nat)
    requires Inv(s) && OpenInv(s) && Enabled(s, DoChoiceLands(r))
    ensures OpenInv(ChoiceLands(s, r))
  {
    hide GuardOf, CallsInv, RecordsInv, Accepts, HasDecision;
    var record, t := s.records[r], ChoiceLands(s, r);
    HasGrows(s.log, DecisionEvent(record));
    forall k | t.base <= k < |t.log| && t.log[k].ApprovalDecision? ensures Recorded(t, t.log[k].approvalId) {
      if k < |s.log| { assert Recorded(s, s.log[k].approvalId); } else { assert t.log[k] == DecisionEvent(record); }
    }
    forall q | 0 <= q < |t.records| && t.records[q].request == Durable && !t.records[q].decision.Chosen?
      ensures !HasDecision(t.log, t.records[q].id)
    {
      assert q != r && s.records[q].id != record.id;
    }
  }

  /** A rehydrated record is right although the log it read may be stale. */
  lemma HydrateKeepsOpen(s: State, id: ApprovalId, call: CallInput, k: nat)
    requires Inv(s) && OpenInv(s) && s.base <= k <= |s.log|
    ensures OpenInv(Hydrate(s, id, call, k))
  {
    hide GuardOf, CallsInv, RecordsInv, HasCall;
    var seen := s.log[..k];
    var built := FromLog(seen, id, call);
    if built.Some? && id !in s.current {
      if !built.value.decision.Chosen? {
        assert forall e :: e in seen ==> e in s.log;
        if HasDecision(s.log, id) {
          var e :| e in s.log && e.ApprovalDecision? && e.approvalId == id;
          var i :| 0 <= i < |s.log| && s.log[i] == e;
          assert s.base <= i ==> Recorded(s, s.log[i].approvalId);
          assert seen[i] == e;
          OneOwner(s.log, FirstRequest(seen, id, call.id).value, e);
        }
      }
      QuietKeepsOpen(s, Hydrate(s, id, call, k));
    }
  }

  lemma CallStepKeepsOpen(s: State, a: Action)
    requires OpenInv(s) && Enabled(s, a)
    requires a.DoRegister? || a.DoPersistRead? || a.DoCallLands? || a.DoPersistFails?
    ensures OpenInv(Apply(s, a))
  {
    hide GuardOf, Accepts, HasDecision;
    var t := Apply(s, a);
    assert t.records == s.records && t.current == s.current && t.base == s.base;
    if a.DoCallLands? {
      var e := CallEvent(s.calls[a.registration].call);
      assert t.log == s.log + [e];
      HasGrows(s.log, e);
    } else {
      assert t.log == s.log;
    }
  }

  lemma AskKeepsOpen(s: State, id: ApprovalId, call: CallInput, policy: string)
    requires Inv(s) && OpenInv(s)
    ensures OpenInv(Ask(s, id, call, policy))
  {
    hide GuardOf, CallsInv, RecordsInv, HasDecision, OpenInv;
    QuietKeepsOpen(s, Ask(s, id, call, policy));
  }

  /** One record changes, without becoming durable or chosen. */
  lemma ChangeKeepsOpen(s: State, r: nat, record: Record, current: map<ApprovalId, nat>)
    requires OpenInv(s) && r < |s.records| && record.id == s.records[r].id
    requires record.request == Durable <==> s.records[r].request == Durable
    requires s.records[r].decision.Chosen? <==> record.decision.Chosen?
    requires forall id :: Recorded(s, id) ==> id in current && current[id] == s.current[id]
    ensures OpenInv(s.(records := s.records[r := record], current := current))
  {
    hide HasDecision;
    var t := s.(records := s.records[r := record], current := current);
    forall k | t.base <= k < |t.log| && t.log[k].ApprovalDecision? ensures Recorded(t, t.log[k].approvalId) {
      assert Recorded(s, s.log[k].approvalId);
    }
  }

  lemma RecordStepKeepsOpen(s: State, a: Action)
    requires Inv(s) && OpenInv(s) && Enabled(s, a)
    requires a.DoCallAwaited? || a.DoAskFails? || a.DoChoose? || a.DoChoiceFails?
    ensures OpenInv(Apply(s, a))
  {
    hide GuardOf, CallsInv, RecordsInv, CurrentInv, Accepts, OpenInv;
    var r := a.record;
    assert RecordOk(s.records[r], s.log, s.calls) by { RecordHolds(s, r); }
    ChangeKeepsOpen(s, r, Apply(s, a).records[r], Apply(s, a).current);
  }

  lemma RecordHolds(s: State, r: nat)
    requires Inv(s) && r < |s.records|
    ensures RecordOk(s.records[r], s.log, s.calls)
  {
  }

  lemma OtherKeepsOpen(s: State, batch: seq<Event>)
    requires OpenInv(s) && forall e :: e in batch ==> !e.ApprovalDecision?
    ensures OpenInv(s.(log := s.log + batch))
  {
    hide OpenInv;
    QuietKeepsOpen(s, s.(log := s.log + batch));
  }

  lemma StepKeepsOpen(s: State, a: Action)
    requires Inv(s) && OpenInv(s) && Enabled(s, a) && Alone(a)
    ensures OpenInv(Apply(s, a))
  {
    hide Inv, Accepts, FromLog, OpenInv;
    match a
    case DoAsk(id, call, policy) => AskKeepsOpen(s, id, call, policy);
    case DoAskLands(r) => AskLandsKeepsOpen(s, r);
    case DoHydrate(id, call, k) => HydrateKeepsOpen(s, id, call, k);
    case DoChoiceLands(r) => ChoiceLandsKeepsOpen(s, r);
    case DoOther(batch) => OtherKeepsOpen(s, batch);
    case Restart(repair) => BootOpen(s.log + repair);
    case DoCallAwaited(_) => RecordStepKeepsOpen(s, a);
    case DoAskFails(_) => RecordStepKeepsOpen(s, a);
    case DoChoose(_, _, _) => RecordStepKeepsOpen(s, a);
    case DoChoiceFails(_) => RecordStepKeepsOpen(s, a);
    case _ => CallStepKeepsOpen(s, a);
  }

  lemma BootOpen(log: seq<Event>)
    ensures OpenInv(Boot(log))
  {
  }

  predicate AllAlone(acts: seq<Action>) {
    forall a :: a in acts ==> Alone(a)
  }

  lemma {:induction false} RunKeepsOpen(s: State, acts: seq<Action>)
    requires Inv(s) && OpenInv(s) && ValidRun(s, acts) && AllAlone(acts)
    ensures Inv(Run(s, acts)) && OpenInv(Run(s, acts))
    decreases |acts|
  {
    hide Inv, OpenInv, Apply, Enabled, Alone;
    if acts != [] {
      assert acts[0] in acts;
      StepKeepsInv(s, acts[0]);
      StepKeepsOpen(s, acts[0]);
      RunKeepsOpen(Apply(s, acts[0]), acts[1..]);
    }
  }

  lemma DecisionAllowed(log: seq<Event>, r: Record)
    requires GuardOf(log).Ok? && RequestEvent(r) in log && !HasDecision(log, r.id) && r.decision.Deciding?
    ensures Accepts(log, [DecisionEvent(r)])
  {
    hide Validate, Tracks, HasCall, HasResult, HasHeader, CallsOk, RetriesOk, SuspensionOk, BracketsOk,
      BracketRule, RequestRule, RetryRule;
    var g := GuardOf(log).value;
    GuardTracks(log);
    TracksMeans(log, g);
    Known(log, g, RequestEvent(r));
    RequestIsNamed(log, RequestEvent(r));
    AppendOne(log, DecisionEvent(r));
  }

  lemma {:induction false} RequestIsNamed(log: seq<Event>, e: Event)
    requires GuardOf(log).Ok? && e in log
    ensures WellFormed(e)
    decreases |log|
  {
    hide Validate, Allowed, WellFormed;
    var n := |log| - 1;
    assert log == log[..n] + [log[n]];
    AppendOne(log[..n], log[n]);
    if log[n] == e { AllowedIsNamed(GuardOf(log[..n]).value, e); } else { RequestIsNamed(log[..n], e); }
  }

  lemma AllowedIsNamed(g: Guard, e: Event)
    requires Allowed(g, e)
    ensures WellFormed(e)
  {
    hide WellFormed;
  }

  /**
   While nobody else decides approvals, the records never run into the guard: on every run, with any
   failures, stale reads and restarts, a decision whose request is durable is accepted.
   */
  lemma DecisionNeverRefused(log: seq<Event>, acts: seq<Action>, r: nat)
    requires GuardOf(log).Ok? && ValidRun(Boot(log), acts) && AllAlone(acts)
    requires var s := Run(Boot(log), acts);
      r < |s.records| && s.records[r].request == Durable && s.records[r].decision.Deciding?
    ensures var s := Run(Boot(log), acts); Enabled(s, DoChoiceLands(r))
  {
    hide Run, ValidRun, GuardOf, Accepts, AllAlone, HasDecision;
    BootInv(log);
    BootOpen(log);
    RunKeepsOpen(Boot(log), acts);
    var s := Run(Boot(log), acts);
    assert RecordOk(s.records[r], s.log, s.calls);
    DecisionAllowed(s.log, s.records[r]);
  }

  // ----- the theorems over all runs -----

  lemma {:induction false} CountedIn(log: seq<Event>, id: ApprovalId) returns (i: nat)
    requires Decisions(log, id) >= 1
    ensures i < |log| && log[i].ApprovalDecision? && log[i].approvalId == id
  {
    var n := |log| - 1;
    if log[n].ApprovalDecision? && log[n].approvalId == id { i := n; } else { i := CountedIn(log[..n], id); }
  }

  lemma {:induction false} AtMostOneDecision(log: seq<Event>, id: ApprovalId)
    requires GuardOf(log).Ok?
    ensures Decisions(log, id) <= 1
    decreases |log|
  {
    hide Validate;
    if log != [] {
      var n := |log| - 1;
      assert log == log[..n] + [log[n]];
      Prefix(log[..n], [log[n]]);
      AtMostOneDecision(log[..n], id);
      if log[n].ApprovalDecision? && log[n].approvalId == id && Decisions(log[..n], id) >= 1 {
        var i := CountedIn(log[..n], id);
        EachOnce(log, i, n);
      }
    }
  }

  /**
   Across interleavings, failed appends, stale rehydration, repairs, other writers and restarts that
   lose all records: the log holds at most one decision per approval, every request and every
   decision a caller was told is durable is in the log, and no other decision of that approval is.
   */
  lemma OneDecisionAcrossRestarts(log: seq<Event>, acts: seq<Action>)
    requires GuardOf(log).Ok? && ValidRun(Boot(log), acts)
    ensures var s := Run(Boot(log), acts);
      && (forall id :: Decisions(s.log, id) <= 1)
      && (forall r :: 0 <= r < |s.records| && s.records[r].request == Durable ==> RequestEvent(s.records[r]) in s.log)
      && (forall r, e ::
            (0 <= r < |s.records| && s.records[r].decision.Chosen? &&
             e in s.log && e.ApprovalDecision? && e.approvalId == s.records[r].id) ==>
              e == ApprovalDecision(s.records[r].id, s.records[r].call, s.records[r].decision.outcome))
      && (forall r :: 0 <= r < |s.records| && s.records[r].decision.Chosen? ==> HasDecision(s.log, s.records[r].id))
  {
    hide Run, ValidRun, GuardOf, Decisions, CallsInv, CurrentInv;
    BootInv(log);
    RunKeepsInv(Boot(log), acts);
    var s := Run(Boot(log), acts);
    forall id ensures Decisions(s.log, id) <= 1 { AtMostOneDecision(s.log, id); }
    forall r, e | 0 <= r < |s.records| && s.records[r].decision.Chosen? &&
      e in s.log && e.ApprovalDecision? && e.approvalId == s.records[r].id
      ensures e == ApprovalDecision(s.records[r].id, s.records[r].call, s.records[r].decision.outcome)
    {
      assert RecordOk(s.records[r], s.log, s.calls);
      SameDecision(s.log, e, ApprovalDecision(s.records[r].id, s.records[r].call, s.records[r].decision.outcome));
    }
  }

  /** Two decisions of one approval in an accepted log are the same event. */
  lemma SameDecision(log: seq<Event>, e: Event, f: Event)
    requires GuardOf(log).Ok? && e in log && f in log
    requires e.ApprovalDecision? && f.ApprovalDecision? && e.approvalId == f.approvalId
    ensures e == f
  {
    hide GuardOf;
    var i :| 0 <= i < |log| && log[i] == e;
    var k :| 0 <= k < |log| && log[k] == f;
    if i < k { EachOnce(log, i, k); }
    if k < i { EachOnce(log, k, i); }
  }
}

/** Decisions traced back. */
module ApprovalOrigins {
  // Every event the executor's approvals append, and every outcome a record holds, is traced back to
  // the call that asked for it or to the log; and an accepted decision is never exchanged.

  import opened Wrappers
  import opened HistoryModel
  import opened HistorySafety
  import opened ApprovalModel

  /** The decision was asked for by the owner of a record that had none. */
  predicate Chooses(s: State, r: nat, call: CallId) {
    r < |s.records| && s.records[r].call == call && s.records[r].decision == Undecided
  }

  /** The events that one action gives reason for. */
  function Brings(s: State, a: Action): set<Event> {
    match a
    case DoRegister(call, _) => {ToolCall(call.id, call.handle, call.identity, call.safe)}
    case DoAsk(id, call, policy) =>
      {ToolCall(call.id, call.handle, call.identity, call.safe), ApprovalRequest(id, call.id, policy)}
    case DoChoose(r, call, outcome) =>
      if Chooses(s, r, call) then {ApprovalDecision(s.records[r].id, call, outcome)} else {}
    case DoOther(batch) => set e | e in batch
    case Restart(repair) => set e | e in repair
    case _ => {}
  }

  function Sources(s: State, acts: seq<Action>): set<Event>
    requires ValidRun(s, acts)
    decreases |acts|
  {
    if acts == [] then {} else Brings(s, acts[0]) + Sources(Apply(s, acts[0]), acts[1..])
  }

  /** The actions of the current process. */
  function SinceRestart(acts: seq<Action>): seq<Action> {
    if acts == [] then []
    else
      var last := acts[|acts| - 1];
      if last.Restart? then [] else SinceRestart(acts[..|acts| - 1]) + [last]
  }

  ghost predicate Said(base: seq<Event>, given: set<Event>, e: Event) {
    e in base || e in given
  }

  /** The outcome a record was given, if any. */
  function OutcomeOf(c: Choice): Option<string> {
    match c
    case Undecided => None
    case Deciding(outcome) => Some(outcome)
    case Chosen(outcome) => Some(outcome)
    case ChoiceFailed(outcome) => Some(outcome)
  }

  ghost predicate RegistrationTraced(c: Registration, log: seq<Event>, base: seq<Event>, given: set<Event>, own: seq<Action>) {
    && Said(base, given, CallEvent(c.call))
    && (c.persist == Persisted ==> CallEvent(c.call) in log)
    && ((exists rehydrate :: DoRegister(c.call, rehydrate) in own) || exists id, policy :: DoAsk(id, c.call, policy) in own)
  }

  /** The record was asked for with a call, and goes on only with that very call. */
  ghost predicate AskedWith(r: Record, call: CallInput, calls: seq<Registration>, log: seq<Event>, own: seq<Action>) {
    && call.id == r.call && DoAsk(r.id, call, r.policy) in own
    && (r.request.Registering? ==> r.request.registration < |calls| && calls[r.request.registration].call == call)
    && (r.request == Asking || r.request == Durable ==> CallEvent(call) in log)
    && (r.request == Refused ==> OtherwiseRegistered(call, calls))
  }

  /** The call id is registered for another call. */
  ghost predicate OtherwiseRegistered(call: CallInput, calls: seq<Registration>) {
    exists c :: 0 <= c < |calls| && calls[c].call.id == call.id && calls[c].call != call
  }

  ghost predicate AskedFor(r: Record, calls: seq<Registration>, log: seq<Event>, own: seq<Action>) {
    exists call: CallInput :: AskedWith(r, call, calls, log, own)
  }

  ghost predicate RequestTraced(r: Record, calls: seq<Registration>, log: seq<Event>, own: seq<Action>) {
    AskedFor(r, calls, log, own) || (r.request == Durable && RequestEvent(r) in log) || r.request == AskFailed
  }

  ghost predicate RecordTraced(k: nat, r: Record, log: seq<Event>, base: seq<Event>, given: set<Event>, own: seq<Action>) {
    && Said(base, given, RequestEvent(r))
    && (OutcomeOf(r.decision).Some? ==> Said(base, given, ApprovalDecision(r.id, r.call, OutcomeOf(r.decision).value)))
    && (OutcomeOf(r.decision).Some? ==>
          || DoChoose(k, r.call, OutcomeOf(r.decision).value) in own
          || (r.decision.Chosen? && ApprovalDecision(r.id, r.call, r.decision.outcome) in log))
  }

  ghost predicate Traced(s: State, base: seq<Event>, given: set<Event>, own: seq<Action>) {
    && base <= s.log
    && (forall e :: e in s.log ==> Said(base, given, e))
    && (forall c :: 0 <= c < |s.calls| ==> RegistrationTraced(s.calls[c], s.log, base, given, own))
    && (forall k :: 0 <= k < |s.records| ==> RecordTraced(k, s.records[k], s.log, base, given, own))
  }

  /** A call is registered under the one registration of it that has not failed. */
  ghost predicate RecordedExact(calls: seq<Registration>, recorded: map<CallId, nat>) {
    && (forall id :: id in recorded ==> recorded[id] < |calls| && calls[recorded[id]].call.id == id)
    && (forall c :: 0 <= c < |calls| ==>
          (calls[c].persist != PersistFailed <==> calls[c].call.id in recorded && recorded[calls[c].call.id] == c))
  }

  ghost predicate PersistedTraced(calls: seq<Registration>, log: seq<Event>) {
    forall c :: 0 <= c < |calls| && calls[c].persist == Persisted ==> CallEvent(calls[c].call) in log
  }

  ghost predicate RequestsTraced(records: seq<Record>, calls: seq<Registration>, log: seq<Event>, own: seq<Action>) {
    forall k :: 0 <= k < |records| ==> RequestTraced(records[k], calls, log, own)
  }

  /** The registrations behind the requests. */
  ghost predicate Linked(s: State, own: seq<Action>) {
    && RecordedExact(s.calls, s.recorded) && PersistedTraced(s.calls, s.log)
    && RequestsTraced(s.records, s.calls, s.log, own)
  }

  // ----- more reasons, a longer log -----

  lemma RegistrationGrows(c: Registration, log: seq<Event>, more: seq<Event>, base: seq<Event>,
                          given: set<Event>, given': set<Event>, own: seq<Action>, a: Action)
    requires RegistrationTraced(c, log, base, given, own) && log <= more && given <= given'
    ensures RegistrationTraced(c, more, base, given', own + [a])
  {
    assert forall b :: b in own ==> b in own + [a];
    if rehydrate :| DoRegister(c.call, rehydrate) in own {
      assert DoRegister(c.call, rehydrate) in own + [a];
    } else {
      var id, policy :| DoAsk(id, c.call, policy) in own;
      assert DoAsk(id, c.call, policy) in own + [a];
    }
  }

  lemma RecordGrows(k: nat, r: Record, log: seq<Event>, more: seq<Event>, base: seq<Event>,
                    given: set<Event>, given': set<Event>, own: seq<Action>, a: Action)
    requires RecordTraced(k, r, log, base, given, own) && log <= more && given <= given'
    ensures RecordTraced(k, r, more, base, given', own + [a])
  {
    assert forall b :: b in own ==> b in own + [a];
  }

  /** The action is over; the log may have grown by events there is a reason for. */
  lemma Grows(s: State, log: seq<Event>, base: seq<Event>, given: set<Event>, given': set<Event>, own: seq<Action>, a: Action)
    requires Traced(s, base, given, own) && s.log <= log && given <= given'
    requires forall e :: e in log[|s.log|..] ==> Said(base, given', e)
    ensures Traced(s.(log := log), base, given', own + [a])
  {
    hide RegistrationTraced, RecordTraced;
    forall e | e in log ensures Said(base, given', e) {
      assert log == s.log + log[|s.log|..];
      if e in s.log { assert Said(base, given, e); }
    }
    forall c | 0 <= c < |s.calls| ensures RegistrationTraced(s.calls[c], log, base, given', own + [a]) {
      RegistrationGrows(s.calls[c], s.log, log, base, given, given', own, a);
    }
    forall k | 0 <= k < |s.records| ensures RecordTraced(k, s.records[k], log, base, given', own + [a]) {
      RecordGrows(k, s.records[k], s.log, log, base, given, given', own, a);
    }
  }

  /** One registration or record is replaced, or one of each added. */
  lemma SetCall(s: State, r: nat, c: Registration, recorded: map<CallId, nat>, base: seq<Event>, given: set<Event>, own: seq<Action>)
    requires Traced(s, base, given, own) && r < |s.calls| && RegistrationTraced(c, s.log, base, given, own)
    ensures Traced(s.(calls := s.calls[r := c], recorded := recorded), base, given, own)
  {
    hide RegistrationTraced, RecordTraced, Said;
  }

  lemma AddCall(s: State, c: Registration, recorded: map<CallId, nat>, base: seq<Event>, given: set<Event>, own: seq<Action>)
    requires Traced(s, base, given, own) && RegistrationTraced(c, s.log, base, given, own)
    ensures Traced(s.(calls := s.calls + [c], recorded := recorded), base, given, own)
  {
    hide RegistrationTraced, RecordTraced, Said;
  }

  lemma SetRecord(s: State, k: nat, r: Record, current: map<ApprovalId, nat>, base: seq<Event>, given: set<Event>, own: seq<Action>)
    requires Traced(s, base, given, own) && k < |s.records| && RecordTraced(k, r, s.log, base, given, own)
    ensures Traced(s.(records := s.records[k := r], current := current), base, given, own)
  {
    hide RegistrationTraced, RecordTraced, Said;
  }

  lemma NewRecord(s: State, r: Record, base: seq<Event>, given: set<Event>, own: seq<Action>)
    requires Traced(s, base, given, own) && RecordTraced(|s.records|, r, s.log, base, given, own)
    ensures Traced(AddRecord(s, r), base, given, own)
  {
    hide RegistrationTraced, RecordTraced, Said;
  }

  lemma CallIs(s: State, c: nat, base: seq<Event>, given: set<Event>, own: seq<Action>)
    requires Traced(s, base, given, own) && c < |s.calls|
    ensures RegistrationTraced(s.calls[c], s.log, base, given, own)
  {
    hide RegistrationTraced, RecordTraced, Said;
  }

  lemma RecordIs(s: State, k: nat, base: seq<Event>, given: set<Event>, own: seq<Action>)
    requires Traced(s, base, given, own) && k < |s.records|
    ensures RecordTraced(k, s.records[k], s.log, base, given, own)
  {
    hide RegistrationTraced, RecordTraced, Said;
  }

  lemma LogIs(s: State, e: Event, base: seq<Event>, given: set<Event>, own: seq<Action>)
    requires Traced(s, base, given, own) && e in s.log
    ensures Said(base, given, e)
  {
    hide RegistrationTraced, RecordTraced, Said;
  }

  // ----- each step keeps the trace -----

  lemma RegisterTraced(s: State, call: CallInput, rehydrate: bool, base: seq<Event>, given: set<Event>, own: seq<Action>)
    requires Traced(s, base, given, own) && Said(base, given, CallEvent(call))
    requires (exists rehydrate :: DoRegister(call, rehydrate) in own) || exists id, policy :: DoAsk(id, call, policy) in own
    ensures Traced(Register(s, call, rehydrate), base, given, own)
    ensures Register(s, call, rehydrate).records == s.records && Register(s, call, rehydrate).log == s.log
  {
    hide Traced;
    AddCall(s, Registration(call, if rehydrate then Reading else Appending), s.recorded[call.id := |s.calls|], base, given, own);
  }

  lemma PersistTraced(s: State, r: nat, p: Persist, base: seq<Event>, given: set<Event>, own: seq<Action>)
    requires Traced(s, base, given, own) && r < |s.calls|
    requires p == Persisted ==> CallEvent(s.calls[r].call) in s.log
    ensures Traced(SetPersist(s, r, p), base, given, own) && Traced(PersistFails(s, r), base, given, own)
  {
    hide Traced;
    CallIs(s, r, base, given, own);
    var c := s.calls[r];
    SetCall(s, r, c.(persist := p), s.recorded, base, given, own);
    SetCall(s, r, c.(persist := PersistFailed), PersistFails(s, r).recorded, base, given, own);
  }

  lemma AskTraced(s: State, id: ApprovalId, call: CallInput, policy: string, base: seq<Event>, given: set<Event>, own: seq<Action>)
    requires Traced(s, base, given, own) && DoAsk(id, call, policy) in own
    requires Said(base, given, CallEvent(call)) && Said(base, given, ApprovalRequest(id, call.id, policy))
    ensures Traced(Ask(s, id, call, policy), base, given, own)
  {
    hide Traced, Register;
    if id !in s.current {
      RegisterTraced(s, call, false, base, given, own);
      var t := Register(s, call, false);
      var r := Record(id, call.id, policy, FirstAsked(s, call), Undecided);
      NewRecord(t, r, base, given, own);
    }
  }

  lemma AskedTraced(s: State, k: nat, asked: Asked, current: map<ApprovalId, nat>, base: seq<Event>, given: set<Event>, own: seq<Action>)
    requires Traced(s, base, given, own) && k < |s.records|
    ensures Traced(SetAsked(s, k, asked).(current := current), base, given, own)
  {
    hide Traced;
    RecordIs(s, k, base, given, own);
    var r := s.records[k].(request := asked);
    SameRequest(k, s.records[k], r, s.log, base, given, own);
    SetRecord(s, k, r, current, base, given, own);
  }

  lemma SameRequest(k: nat, r: Record, q: Record, log: seq<Event>, base: seq<Event>, given: set<Event>, own: seq<Action>)
    requires RecordTraced(k, r, log, base, given, own) && q == r.(request := q.request)
    ensures RecordTraced(k, q, log, base, given, own)
  {
    hide Said;
  }

  lemma HydrateTraced(s: State, id: ApprovalId, call: CallInput, k: nat, base: seq<Event>, given: set<Event>, own: seq<Action>)
    requires Traced(s, base, given, own) && k <= |s.log|
    ensures Traced(Hydrate(s, id, call, k), base, given, own)
  {
    hide Traced, FirstCallEvent, FirstRequest, FirstDecision, Said;
    var seen := s.log[..k];
    var built := FromLog(seen, id, call);
    if built.Some? && id !in s.current {
      var r := built.value;
      assert forall e :: e in seen ==> e in s.log;
      assert RequestEvent(r) == FirstRequest(seen, id, call.id).value;
      LogIs(s, RequestEvent(r), base, given, own);
      if r.decision.Chosen? {
        assert ApprovalDecision(r.id, r.call, r.decision.outcome) == FirstDecision(seen, id, call.id).value;
        LogIs(s, ApprovalDecision(r.id, r.call, r.decision.outcome), base, given, own);
      }
      NewRecord(s, r, base, given, own);
    }
  }

  lemma ChoiceTraced(s: State, k: nat, c: Choice, base: seq<Event>, given: set<Event>, own: seq<Action>)
    requires Traced(s, base, given, own) && k < |s.records| && OutcomeOf(c).Some?
    requires || (OutcomeOf(c) == OutcomeOf(s.records[k].decision) && !s.records[k].decision.Chosen?)
             || (Said(base, given, ApprovalDecision(s.records[k].id, s.records[k].call, OutcomeOf(c).value))
                && DoChoose(k, s.records[k].call, OutcomeOf(c).value) in own)
    ensures Traced(SetChoice(s, k, c), base, given, own)
  {
    hide Traced, Said;
    RecordIs(s, k, base, given, own);
    var q := s.records[k].(decision := c);
    assert RequestEvent(q) == RequestEvent(s.records[k]);
    SetRecord(s, k, q, s.current, base, given, own);
  }

  lemma CallStepTraced(s: State, a: Action, base: seq<Event>, given: set<Event>, own: seq<Action>)
    requires Traced(s, base, given, own) && Enabled(s, a)
    requires a.DoRegister? || a.DoPersistRead? || a.DoCallLands? || a.DoPersistFails?
    ensures Traced(Apply(s, a), base, given + Brings(s, a), own + [a])
  {
    hide Traced, FirstCallEvent, Accepts, GuardOf, Said;
    var given', own' := given + Brings(s, a), own + [a];
    Grows(s, s.log, base, given, given', own, a);
    assert s.(log := s.log) == s;
    match a {
      case DoRegister(call, rehydrate) =>
        assert DoRegister(call, rehydrate) in own';
        assert Said(base, given', CallEvent(call)) by { InGiven(base, given', CallEvent(call)); }
        RegisterTraced(s, call, rehydrate, base, given', own');
      case DoPersistRead(r, k) =>
        assert forall e :: e in s.log[..k] ==> e in s.log;
        PersistTraced(s, r, Appending, base, given', own');
        if FirstCallEvent(s.log[..k], s.calls[r].call.id) == Some(CallEvent(s.calls[r].call)) {
          PersistTraced(s, r, Persisted, base, given', own');
        }
      case DoCallLands(r) =>
        var e := CallEvent(s.calls[r].call);
        CallIs(s, r, base, given, own);
        var u := s.(log := s.log + [e]);
        Grows(s, u.log, base, given, given, own, a);
        GivenGrows(u, base, given, given', own');
        PersistTraced(u, r, Persisted, base, given', own');
      case DoPersistFails(r) => PersistTraced(s, r, PersistFailed, base, given', own');
    }
  }

  lemma InGiven(base: seq<Event>, given: set<Event>, e: Event)
    requires e in given
    ensures Said(base, given, e)
  {
  }

  lemma GivenGrows(s: State, base: seq<Event>, given: set<Event>, given': set<Event>, own: seq<Action>)
    requires Traced(s, base, given, own) && given <= given'
    ensures Traced(s, base, given', own)
  {
    forall c | 0 <= c < |s.calls| ensures RegistrationTraced(s.calls[c], s.log, base, given', own) {
      assert RegistrationTraced(s.calls[c], s.log, base, given, own);
    }
    forall k | 0 <= k < |s.records| ensures RecordTraced(k, s.records[k], s.log, base, given', own) {
      assert RecordTraced(k, s.records[k], s.log, base, given, own);
    }
  }

  lemma AskStepTraced(s: State, a: Action, base: seq<Event>, given: set<Event>, own: seq<Action>)
    requires Traced(s, base, given, own) && Enabled(s, a)
    requires a.DoAsk? || a.DoCallAwaited? || a.DoAskLands? || a.DoAskFails? || a.DoHydrate?
    ensures Traced(Apply(s, a), base, given + Brings(s, a), own + [a])
  {
    hide Traced, FromLog, Accepts, GuardOf, Said;
    var given', own' := given + Brings(s, a), own + [a];
    Grows(s, s.log, base, given, given', own, a);
    assert s.(log := s.log) == s;
    match a {
      case DoAsk(id, call, policy) =>
        InGiven(base, given', CallEvent(call));
        InGiven(base, given', ApprovalRequest(id, call.id, policy));
        AskTraced(s, id, call, policy, base, given', own');
      case DoCallAwaited(r) => AskedTraced(s, r, Asking, s.current, base, given', own');
      case DoAskLands(r) =>
        RecordIs(s, r, base, given, own);
        var u := s.(log := s.log + [RequestEvent(s.records[r])]);
        Grows(s, u.log, base, given, given, own, a);
        GivenGrows(u, base, given, given', own');
        AskedTraced(u, r, Durable, s.current, base, given', own');
      case DoAskFails(r) => AskedTraced(s, r, AskFailed, AskFails(s, r).current, base, given', own');
      case DoHydrate(id, call, k) => HydrateTraced(s, id, call, k, base, given', own');
    }
  }

  lemma ChoiceStepTraced(s: State, a: Action, base: seq<Event>, given: set<Event>, own: seq<Action>)
    requires Traced(s, base, given, own) && Enabled(s, a)
    requires a.DoChoose? || a.DoChoiceLands? || a.DoChoiceFails?
    ensures Traced(Apply(s, a), base, given + Brings(s, a), own + [a])
  {
    hide Traced, Accepts, GuardOf, Said;
    var given', own' := given + Brings(s, a), own + [a];
    Grows(s, s.log, base, given, given', own, a);
    assert s.(log := s.log) == s;
    match a {
      case DoChoose(r, call, outcome) =>
        if Chooses(s, r, call) {
          InGiven(base, given', ApprovalDecision(s.records[r].id, call, outcome));
          ChoiceTraced(s, r, Deciding(outcome), base, given', own');
        }
      case DoChoiceLands(r) =>
        RecordIs(s, r, base, given, own);
        var u := s.(log := s.log + [DecisionEvent(s.records[r])]);
        Grows(s, u.log, base, given, given, own, a);
        GivenGrows(u, base, given, given', own');
        ChoiceTraced(u, r, Chosen(s.records[r].decision.outcome), base, given', own');
      case DoChoiceFails(r) => ChoiceTraced(s, r, ChoiceFailed(s.records[r].decision.outcome), base, given', own');
    }
  }

  /** The actions of the process after one more. */
  function Own(own: seq<Action>, a: Action): seq<Action> {
    if a.Restart? then [] else own + [a]
  }

  lemma StepTraced(s: State, a: Action, base: seq<Event>, given: set<Event>, own: seq<Action>)
    requires Traced(s, base, given, own) && Enabled(s, a)
    ensures Traced(Apply(s, a), base, given + Brings(s, a), Own(own, a))
  {
    hide Traced, Accepts, GuardOf;
    var given' := given + Brings(s, a);
    match a
    case DoOther(batch) => Grows(s, s.log + batch, base, given, given', own, a);
    case Restart(repair) =>
      Grows(s, s.log + repair, base, given, given', own, a);
      BootTraced(s.(log := s.log + repair), base, given', own + [a]);
    case DoAsk(_, _, _) => AskStepTraced(s, a, base, given, own);
    case DoCallAwaited(_) => AskStepTraced(s, a, base, given, own);
    case DoAskLands(_) => AskStepTraced(s, a, base, given, own);
    case DoAskFails(_) => AskStepTraced(s, a, base, given, own);
    case DoHydrate(_, _, _) => AskStepTraced(s, a, base, given, own);
    case DoChoose(_, _, _) => ChoiceStepTraced(s, a, base, given, own);
    case DoChoiceLands(_) => ChoiceStepTraced(s, a, base, given, own);
    case DoChoiceFails(_) => ChoiceStepTraced(s, a, base, given, own);
    case _ => CallStepTraced(s, a, base, given, own);
  }

  lemma BootTraced(s: State, base: seq<Event>, given: set<Event>, own: seq<Action>)
    requires Traced(s, base, given, own)
    ensures Traced(Boot(s.log), base, given, [])
  {
    hide RegistrationTraced, RecordTraced, Said;
  }

  lemma OwnSnoc(past: seq<Action>, a: Action)
    ensures SinceRestart(past + [a]) == Own(SinceRestart(past), a)
  {
    assert (past + [a])[..|past|] == past;
  }

  lemma {:induction false} RunTraced(s: State, acts: seq<Action>, base: seq<Event>, given: set<Event>, past: seq<Action>)
    requires Traced(s, base, given, SinceRestart(past)) && ValidRun(s, acts)
    ensures Traced(Run(s, acts), base, given + Sources(s, acts), SinceRestart(past + acts))
    decreases |acts|
  {
    hide Traced, Apply, Enabled, Brings, SinceRestart;
    if acts == [] {
      assert given + Sources(s, acts) == given && past + acts == past;
    } else {
      StepTraced(s, acts[0], base, given, SinceRestart(past));
      OwnSnoc(past, acts[0]);
      var given' := given + Brings(s, acts[0]);
      RunTraced(Apply(s, acts[0]), acts[1..], base, given', past + [acts[0]]);
      assert given + Sources(s, acts) == given' + Sources(Apply(s, acts[0]), acts[1..]);
      assert past + acts == (past + [acts[0]]) + acts[1..];
    }
  }

  lemma BootRunTraced(log: seq<Event>, acts: seq<Action>)
    requires ValidRun(Boot(log), acts)
    ensures Traced(Run(Boot(log), acts), log, Sources(Boot(log), acts), SinceRestart(acts))
  {
    hide Run, ValidRun, Sources, SinceRestart;
    assert SinceRestart([]) == [] by { NoneSince(); }
    RunTraced(Boot(log), acts, log, {}, []);
    assert {} + Sources(Boot(log), acts) == Sources(Boot(log), acts) && [] + acts == acts;
  }

  lemma NoneSince()
    ensures SinceRestart([]) == []
  {
  }

  // ----- the theorems -----

  /**
   On every run nothing is written that nobody asked for: each event of the log was there at first,
   or is the call of a registration or request, the request itself, the decision of the owner of a
   record that had none, or was written by somebody else; and nothing is lost.
   */
  lemma EventsAreSupplied(log: seq<Event>, acts: seq<Action>)
    requires ValidRun(Boot(log), acts)
    ensures var t := Run(Boot(log), acts);
      log <= t.log && forall e :: e in t.log ==> e in log || e in Sources(Boot(log), acts)
  {
    hide Run, ValidRun, Sources, SinceRestart, RegistrationTraced, RecordTraced;
    BootRunTraced(log, acts);
    var t := Run(Boot(log), acts);
    forall e | e in t.log ensures e in log || e in Sources(Boot(log), acts) {
      assert Said(log, Sources(Boot(log), acts), e);
    }
  }

  /**
   The outcome of a record is the one somebody decided on that very record in this process, or that
   of a decision in the log it was rehydrated from; and what a decision appends is the outcome asked for.
   */
  lemma OutcomeIsTheOneAsked(log: seq<Event>, acts: seq<Action>, r: nat)
    requires ValidRun(Boot(log), acts) && r < |Run(Boot(log), acts).records|
    ensures var t, own := Run(Boot(log), acts), SinceRestart(acts);
      var record := t.records[r];
      && (forall o :: record.decision == Deciding(o) || record.decision == ChoiceFailed(o) ==>
            DoChoose(r, record.call, o) in own)
      && (forall o :: record.decision == Chosen(o) ==>
            DoChoose(r, record.call, o) in own || ApprovalDecision(record.id, record.call, o) in t.log)
      && (Enabled(t, DoChoiceLands(r)) ==>
            exists o :: DoChoose(r, record.call, o) in own
              && Apply(t, DoChoiceLands(r)).log == t.log + [ApprovalDecision(record.id, record.call, o)])
  {
    hide Run, ValidRun, Sources, SinceRestart, Traced, Accepts, GuardOf;
    BootRunTraced(log, acts);
    var t, own := Run(Boot(log), acts), SinceRestart(acts);
    RecordIs(t, r, log, Sources(Boot(log), acts), own);
    var record := t.records[r];
    if Enabled(t, DoChoiceLands(r)) {
      assert DoChoose(r, record.call, record.decision.outcome) in own;
    }
  }

  // ----- requests go on with their own call -----

  lemma RequestGrows(r: Record, calls: seq<Registration>, later: seq<Registration>, log: seq<Event>, more: seq<Event>,
                     own: seq<Action>, a: Action)
    requires RequestTraced(r, calls, log, own) && log <= more && |calls| <= |later|
    requires forall c :: 0 <= c < |calls| ==> later[c].call == calls[c].call
    ensures RequestTraced(r, later, more, own + [a])
  {
    if AskedFor(r, calls, log, own) {
      var call :| AskedWith(r, call, calls, log, own);
      if OtherwiseRegistered(call, calls) {
        var c :| 0 <= c < |calls| && calls[c].call.id == call.id && calls[c].call != call;
        assert later[c].call == calls[c].call;
      }
      assert AskedWith(r, call, later, more, own + [a]);
    }
  }

  lemma RequestsGrow(s: State, calls: seq<Registration>, log: seq<Event>, own: seq<Action>, a: Action)
    requires RequestsTraced(s.records, s.calls, s.log, own) && s.log <= log && |s.calls| <= |calls|
    requires forall c :: 0 <= c < |s.calls| ==> calls[c].call == s.calls[c].call
    ensures RequestsTraced(s.records, calls, log, own + [a])
  {
    hide RequestTraced;
    forall k | 0 <= k < |s.records| ensures RequestTraced(s.records[k], calls, log, own + [a]) {
      RequestGrows(s.records[k], s.calls, calls, s.log, log, own, a);
    }
  }

  lemma RegisterLinked(s: State, call: CallInput, rehydrate: bool)
    requires RecordedExact(s.calls, s.recorded) && PersistedTraced(s.calls, s.log)
    ensures var t := Register(s, call, rehydrate);
      RecordedExact(t.calls, t.recorded) && PersistedTraced(t.calls, t.log)
  {
  }

  lemma PersistLinked(s: State, r: nat, p: Persist)
    requires RecordedExact(s.calls, s.recorded) && PersistedTraced(s.calls, s.log) && r < |s.calls|
    requires s.calls[r].persist == Reading || s.calls[r].persist == Appending
    ensures p != PersistFailed && (p == Persisted ==> CallEvent(s.calls[r].call) in s.log) ==>
      var t := SetPersist(s, r, p); RecordedExact(t.calls, t.recorded) && PersistedTraced(t.calls, t.log)
    ensures var t := PersistFails(s, r); RecordedExact(t.calls, t.recorded) && PersistedTraced(t.calls, t.log)
  {
  }

  lemma CallStepLinked(s: State, a: Action, own: seq<Action>)
    requires Linked(s, own) && Enabled(s, a)
    requires a.DoRegister? || a.DoPersistRead? || a.DoCallLands? || a.DoPersistFails?
    ensures Linked(Apply(s, a), own + [a])
  {
    hide FirstCallEvent, Accepts, GuardOf, RecordedExact, PersistedTraced, RequestsTraced;
    var t := Apply(s, a);
    assert s.log <= t.log && |s.calls| <= |t.calls| && t.records == s.records;
    assert forall c :: 0 <= c < |s.calls| ==> t.calls[c].call == s.calls[c].call;
    RequestsGrow(s, t.calls, t.log, own, a);
    match a {
      case DoRegister(call, rehydrate) => RegisterLinked(s, call, rehydrate);
      case DoPersistRead(r, k) =>
        assert forall e :: e in s.log[..k] ==> e in s.log;
        PersistLinked(s, r, Appending);
        PersistLinked(s, r, Persisted);
      case DoCallLands(r) =>
        var u := s.(log := t.log);
        PersistedGrows(s, t.log);
        PersistLinked(u, r, Persisted);
      case DoPersistFails(r) => PersistLinked(s, r, PersistFailed);
    }
  }

  lemma PersistedGrows(s: State, log: seq<Event>)
    requires PersistedTraced(s.calls, s.log) && s.log <= log
    ensures PersistedTraced(s.calls, log)
  {
  }

  /** One record changes or joins, with a request that is traced. */
  lemma RecordsLinked(s: State, t: State, own: seq<Action>, a: Action)
    requires Linked(s, own) && t.calls == s.calls && t.recorded == s.recorded && s.log <= t.log
    requires |s.records| <= |t.records|
    requires forall k :: 0 <= k < |t.records| ==>
      (k < |s.records| && t.records[k].(decision := s.records[k].decision) == s.records[k])
      || RequestTraced(t.records[k], t.calls, t.log, own + [a])
    ensures Linked(t, own + [a])
  {
    hide RecordedExact, PersistedTraced;
    PersistedGrows(s, t.log);
    forall k | 0 <= k < |t.records| ensures RequestTraced(t.records[k], t.calls, t.log, own + [a]) {
      if k < |s.records| && t.records[k].(decision := s.records[k].decision) == s.records[k] {
        RequestGrows(s.records[k], s.calls, t.calls, s.log, t.log, own, a);
        SameRequestTraced(s.records[k], t.records[k], t.calls, t.log, own + [a]);
      }
    }
  }

  lemma SameRequestTraced(r: Record, q: Record, calls: seq<Registration>, log: seq<Event>, own: seq<Action>)
    requires RequestTraced(r, calls, log, own) && q.(decision := r.decision) == r
    ensures RequestTraced(q, calls, log, own)
  {
    if AskedFor(r, calls, log, own) {
      var call :| AskedWith(r, call, calls, log, own);
      assert AskedWith(q, call, calls, log, own);
    }
  }

  lemma AskLinked(s: State, id: ApprovalId, call: CallInput, policy: string, own: seq<Action>)
    requires Linked(s, own)
    ensures Linked(Ask(s, id, call, policy), own + [DoAsk(id, call, policy)])
  {
    hide RecordedExact, PersistedTraced, RequestsTraced, Register;
    var a := DoAsk(id, call, policy);
    if id in s.current {
      RequestsGrow(s, s.calls, s.log, own, a);
    } else {
      var t := Register(s, call, false);
      RegisterLinked(s, call, false);
      RegisterFinds(s, call);
      RequestsGrow(s, t.calls, t.log, own, a);
      var r := Record(id, call.id, policy, FirstAsked(s, call), Undecided);
      assert AskedWith(r, call, t.calls, t.log, own + [a]);
      AddedTraced(t, r, own + [a]);
    }
  }

  lemma AddedTraced(s: State, r: Record, own: seq<Action>)
    requires RequestsTraced(s.records, s.calls, s.log, own) && RequestTraced(r, s.calls, s.log, own)
    ensures RequestsTraced(s.records + [r], s.calls, s.log, own)
  {
    hide RequestTraced;
  }

  lemma RegisterFinds(s: State, call: CallInput)
    requires RecordedExact(s.calls, s.recorded)
    ensures var t, asked := Register(s, call, false), FirstAsked(s, call);
      && |s.calls| <= |t.calls| && t.log == s.log && t.records == s.records && t.current == s.current
      && (forall c :: 0 <= c < |s.calls| ==> t.calls[c].call == s.calls[c].call)
      && asked != Asking && asked != Durable
      && (asked.Registering? ==> asked.registration < |t.calls| && t.calls[asked.registration].call == call)
      && (asked == Refused ==> OtherwiseRegistered(call, t.calls))
  {
  }

  lemma RequestIs(s: State, k: nat, own: seq<Action>)
    requires Linked(s, own) && k < |s.records|
    ensures RequestTraced(s.records[k], s.calls, s.log, own)
  {
    hide RequestTraced, RecordedExact, PersistedTraced;
  }

  /** The call of a record is durable, or its request is: either way it goes on with the same call. */
  lemma AdvanceLinked(r: Record, q: Record, calls: seq<Registration>, log: seq<Event>, more: seq<Event>, own: seq<Action>, a: Action)
    requires RequestTraced(r, calls, log, own) && PersistedTraced(calls, log) && log <= more && r.request != AskFailed
    requires r.request != Durable && q == r.(request := q.request) && (q.request == Asking || q.request == Durable)
    requires r.request.Registering? ==> r.request.registration < |calls| && calls[r.request.registration].persist == Persisted
    requires r.request.Registering? || r.request == Asking
    ensures RequestTraced(q, calls, more, own + [a])
  {
    var call :| AskedWith(r, call, calls, log, own);
    assert AskedWith(q, call, calls, more, own + [a]);
  }

  lemma HydratedLinked(s: State, id: ApprovalId, call: CallInput, k: nat, own: seq<Action>)
    requires k <= |s.log| && FromLog(s.log[..k], id, call).Some?
    ensures RequestTraced(FromLog(s.log[..k], id, call).value, s.calls, s.log, own)
  {
    hide FirstCallEvent, FirstDecision, FirstRequest, AskedFor;
    var r := FromLog(s.log[..k], id, call).value;
    assert RequestEvent(r) == FirstRequest(s.log[..k], id, call.id).value;
    assert forall e :: e in s.log[..k] ==> e in s.log;
  }

  lemma StepLinked(s: State, a: Action, own: seq<Action>)
    requires Linked(s, own) && Enabled(s, a)
    ensures Linked(Apply(s, a), Own(own, a))
  {
    hide Linked, Accepts, GuardOf, FromLog, RequestTraced, Ask, Register;
    match a
    case DoAsk(id, call, policy) => AskLinked(s, id, call, policy, own);
    case DoHydrate(id, call, k) =>
      if FromLog(s.log[..k], id, call).Some? { HydratedLinked(s, id, call, k, own + [a]); }
      RecordsLinked(s, Apply(s, a), own, a);
    case DoCallAwaited(r) => AdvanceStepLinked(s, a, own);
    case DoAskLands(r) => AdvanceStepLinked(s, a, own);
    case DoAskFails(r) =>
      FailedTraced(Apply(s, a), r, own + [a]);
      RecordsLinked(s, Apply(s, a), own, a);
    case Restart(repair) => BootLinked(s.log + repair);
    case DoOther(_) => RecordsLinked(s, Apply(s, a), own, a);
    case DoChoose(_, _, _) => RecordsLinked(s, Apply(s, a), own, a);
    case DoChoiceLands(_) => RecordsLinked(s, Apply(s, a), own, a);
    case DoChoiceFails(_) => RecordsLinked(s, Apply(s, a), own, a);
    case _ => CallStepLinked(s, a, own);
  }

  lemma FailedTraced(s: State, r: nat, own: seq<Action>)
    requires r < |s.records| && s.records[r].request == AskFailed
    ensures RequestTraced(s.records[r], s.calls, s.log, own)
  {
  }

  lemma AdvanceStepLinked(s: State, a: Action, own: seq<Action>)
    requires Linked(s, own) && Enabled(s, a) && (a.DoCallAwaited? || a.DoAskLands?)
    ensures Linked(Apply(s, a), own + [a])
  {
    hide Accepts, GuardOf, RequestTraced, RequestsTraced, RecordedExact, PersistedTraced;
    var r, t := a.record, Apply(s, a);
    RequestIs(s, r, own);
    AdvanceLinked(s.records[r], t.records[r], s.calls, s.log, t.log, own, a);
    RecordsLinked(s, t, own, a);
  }

  lemma BootLinked(log: seq<Event>)
    ensures Linked(Boot(log), [])
  {
  }

  lemma {:induction false} RunLinked(s: State, acts: seq<Action>, past: seq<Action>)
    requires Linked(s, SinceRestart(past)) && ValidRun(s, acts)
    ensures Linked(Run(s, acts), SinceRestart(past + acts))
    decreases |acts|
  {
    hide Linked, Apply, Enabled, SinceRestart;
    if acts == [] {
      assert past + acts == past;
    } else {
      StepLinked(s, acts[0], SinceRestart(past));
      OwnSnoc(past, acts[0]);
      RunLinked(Apply(s, acts[0]), acts[1..], past + [acts[0]]);
      assert past + acts == (past + [acts[0]]) + acts[1..];
    }
  }

  lemma BootRunLinked(log: seq<Event>, acts: seq<Action>)
    requires ValidRun(Boot(log), acts)
    ensures Linked(Run(Boot(log), acts), SinceRestart(acts))
  {
    hide Run, ValidRun, SinceRestart, Linked;
    BootLinked(log);
    assert SinceRestart([]) == [] by { NoneSince(); }
    RunLinked(Boot(log), acts, []);
    assert [] + acts == acts;
  }

  /**
   A registration counts as persisted only while its own call event, with its handle and identity, is in
   the log; a call is registered under the one registration of it that has not failed. A request that did
   not fail was asked for in this process, with its policy and a call, is on its way or durable only behind
   that very call, and refused only when another call is registered under that id; or it is durable and
   was rehydrated.
   */
  lemma RequestsFollowTheirCall(log: seq<Event>, acts: seq<Action>)
    requires ValidRun(Boot(log), acts)
    ensures var t, own := Run(Boot(log), acts), SinceRestart(acts);
      && (forall c :: 0 <= c < |t.calls| && t.calls[c].persist == Persisted ==> CallEvent(t.calls[c].call) in t.log)
      && (forall c :: 0 <= c < |t.calls| ==>
            (t.calls[c].persist != PersistFailed <==>
              t.calls[c].call.id in t.recorded && t.recorded[t.calls[c].call.id] == c))
      && (forall r :: 0 <= r < |t.records| && t.records[r].request != AskFailed ==>
            AskedFor(t.records[r], t.calls, t.log, own)
            || (t.records[r].request == Durable && RequestEvent(t.records[r]) in t.log))
  {
    hide Run, ValidRun, SinceRestart, AskedFor;
    BootRunLinked(log, acts);
    var t := Run(Boot(log), acts);
    forall r | 0 <= r < |t.records| ensures RequestTraced(t.records[r], t.calls, t.log, SinceRestart(acts)) {}
  }

  // ----- an accepted decision stays -----

  predicate SameRecord(s: State, t: State, r: nat) {
    && r < |s.records| && r < |t.records|
    && t.records[r].id == s.records[r].id && t.records[r].call == s.records[r].call
    && (OutcomeOf(s.records[r].decision).Some? ==>
          OutcomeOf(t.records[r].decision) == OutcomeOf(s.records[r].decision))
  }

  lemma StepSameRecord(s: State, a: Action, r: nat)
    requires Enabled(s, a) && !a.Restart? && r < |s.records|
    ensures SameRecord(s, Apply(s, a), r)
  {
    hide FirstCallEvent, FromLog, Accepts, GuardOf;
  }

  lemma {:induction false} RunSameRecord(s: State, acts: seq<Action>, r: nat)
    requires ValidRun(s, acts) && r < |s.records| && forall a :: a in acts ==> !a.Restart?
    ensures SameRecord(s, Run(s, acts), r)
    decreases |acts|
  {
    hide Apply, Enabled;
    if acts != [] {
      StepSameRecord(s, acts[0], r);
      RunSameRecord(Apply(s, acts[0]), acts[1..], r);
    }
  }

  /**
   The first decision of the owner counts: after it the record keeps that outcome for the rest of the
   process, whatever is decided later and whether the append lands or fails; the decision of
   anybody else, or a later one, changes nothing.
   */
  lemma FirstDecisionStays(s: State, r: nat, call: CallId, outcome: string, acts: seq<Action>)
    requires r < |s.records| && ValidRun(Apply(s, DoChoose(r, call, outcome)), acts)
    requires forall a :: a in acts ==> !a.Restart?
    ensures var u := Apply(s, DoChoose(r, call, outcome));
      && (Chooses(s, r, call) ==> SameRecord(u, Run(u, acts), r) && OutcomeOf(u.records[r].decision) == Some(outcome))
      && (!Chooses(s, r, call) ==> u == s)
  {
    hide Run, ValidRun;
    RunSameRecord(Apply(s, DoChoose(r, call, outcome)), acts, r);
  }

  // ----- rehydration -----

  /** What a part of the history says about an approval of a call. */
  ghost predicate Found(seen: seq<Event>, id: ApprovalId, call: CallInput) {
    && (exists safe :: ToolCall(call.id, call.handle, call.identity, safe) in seen)
    && (exists policy :: ApprovalRequest(id, call.id, policy) in seen)
  }

  lemma LogFinds(log: seq<Event>, k: nat, id: ApprovalId, call: CallInput)
    requires GuardOf(log).Ok? && k <= |log|
    ensures var seen, built := log[..k], FromLog(log[..k], id, call);
      && (built.Some? <==> Found(seen, id, call))
      && (built.Some? ==>
            && built.value.id == id && built.value.call == call.id && built.value.request == Durable
            && ApprovalRequest(id, call.id, built.value.policy) in seen
            && (forall o :: built.value.decision == Chosen(o) <==> ApprovalDecision(id, call.id, o) in seen)
            && ((forall o :: ApprovalDecision(id, call.id, o) !in seen) <==> built.value.decision == Undecided))
  {
    hide GuardOf, FirstCallEvent, FirstRequest, FirstDecision;
    var seen := log[..k];
    var first := FirstCallEvent(seen, call.id);
    if safe :| ToolCall(call.id, call.handle, call.identity, safe) in seen {
      SameOnce(log, k, ToolCall(call.id, call.handle, call.identity, safe), first.value);
    }
    if first.Some? && SameCall(first.value, call) {
      assert first.value == ToolCall(call.id, call.handle, call.identity, first.value.safe);
    }
    var request := FirstRequest(seen, id, call.id);
    if request.Some? { assert request.value == ApprovalRequest(id, call.id, request.value.policy); }
    var decision := FirstDecision(seen, id, call.id);
    if decision.Some? { assert decision.value == ApprovalDecision(id, call.id, decision.value.outcome); }
    forall o | ApprovalDecision(id, call.id, o) in seen ensures decision == Some(ApprovalDecision(id, call.id, o)) {
      SameOnce(log, k, ApprovalDecision(id, call.id, o), decision.value);
    }
  }

  /**
   What rehydration leaves, having read the first `k` events of an accepted history: a record that is
   there stays as it is; otherwise there is one exactly when the part read holds the call, of the same
   handle and identity, and a request of the approval for it; it is durable, with the policy of that
   request and the outcome of its decision, if there is one.
   */
  lemma HydrateFinds(s: State, id: ApprovalId, call: CallInput, k: nat)
    requires GuardOf(s.log).Ok? && Enabled(s, DoHydrate(id, call, k))
    ensures var u, seen := Apply(s, DoHydrate(id, call, k)), s.log[..k];
      && (id in u.current <==> id in s.current || Found(seen, id, call))
      && (id in s.current || !Found(seen, id, call) ==> u == s)
      && (id !in s.current && Found(seen, id, call) ==>
            && u.current[id] == |s.records| && |u.records| == |s.records| + 1 && u.records[..|s.records|] == s.records
            && var r := u.records[|s.records|];
               && r.id == id && r.call == call.id && r.request == Durable
               && ApprovalRequest(id, call.id, r.policy) in seen
               && (forall o :: r.decision == Chosen(o) <==> ApprovalDecision(id, call.id, o) in seen)
               && ((forall o :: ApprovalDecision(id, call.id, o) !in seen) <==> r.decision == Undecided))
  {
    hide GuardOf, FromLog, Found;
    LogFinds(s.log, k, id, call);
  }

  /** Of events that repeat each other a history holds only one. */
  lemma SameOnce(log: seq<Event>, k: nat, e: Event, f: Event)
    requires GuardOf(log).Ok? && k <= |log| && e in log[..k] && f in log[..k] && Repeats(e, f) && Repeats(f, e)
    ensures e == f
  {
    hide GuardOf, Repeats;
    var i :| 0 <= i < k && log[i] == e;
    var j :| 0 <= j < k && log[j] == f;
    if i < j { EachOnce(log, i, j); }
    if j < i { EachOnce(log, j, i); }
  }

  // ----- nothing that happened is forgotten -----

  predicate HasRegistration(calls: seq<Registration>, id: CallId) {
    exists c :: 0 <= c < |calls| && calls[c].call.id == id
  }

  predicate HasRecord(records: seq<Record>, id: ApprovalId) {
    exists k :: 0 <= k < |records| && records[k].id == id
  }

  /** What an action of this process left behind. */
  predicate Left(s: State, a: Action) {
    match a
    case DoRegister(call, _) => HasRegistration(s.calls, call.id)
    case DoAsk(id, _, _) => HasRecord(s.records, id)
    case DoCallLands(c) => c < |s.calls| && s.calls[c].persist == Persisted
    case DoPersistFails(c) => c < |s.calls| && s.calls[c].persist == PersistFailed
    case DoAskLands(r) => r < |s.records| && s.records[r].request == Durable
    case DoAskFails(r) => r < |s.records| && s.records[r].request == AskFailed
    case DoChoose(r, call, _) => r < |s.records| && (s.records[r].call == call ==> s.records[r].decision != Undecided)
    case DoChoiceLands(r) => r < |s.records| && s.records[r].decision.Chosen?
    case DoChoiceFails(r) => r < |s.records| && s.records[r].decision.ChoiceFailed?
    case _ => true
  }

  predicate CallKept(c: Registration, later: Registration) {
    later.call == c.call && (c.persist == Persisted || c.persist == PersistFailed ==> later.persist == c.persist)
  }

  predicate RecordKept(r: Record, later: Record) {
    && later.id == r.id && later.call == r.call
    && (r.request == Durable || r.request == AskFailed ==> later.request == r.request)
    && (r.decision != Undecided ==> later.decision != Undecided)
    && (r.decision.Chosen? ==> later.decision.Chosen?) && (r.decision.ChoiceFailed? ==> later.decision.ChoiceFailed?)
  }

  /** What is settled stays settled. */
  ghost predicate Keeps(s: State, t: State) {
    && |s.calls| <= |t.calls| && (forall c :: 0 <= c < |s.calls| ==> CallKept(s.calls[c], t.calls[c]))
    && |s.records| <= |t.records| && (forall r :: 0 <= r < |s.records| ==> RecordKept(s.records[r], t.records[r]))
  }

  lemma StepKeepsCalls(s: State, a: Action)
    requires Enabled(s, a) && !a.Restart?
    ensures var t := Apply(s, a);
      |s.calls| <= |t.calls| && forall c :: 0 <= c < |s.calls| ==> CallKept(s.calls[c], t.calls[c])
  {
    hide FirstCallEvent, FromLog, Accepts, GuardOf;
  }

  lemma StepKeepsRecords(s: State, a: Action)
    requires Enabled(s, a) && !a.Restart?
    ensures var t := Apply(s, a);
      |s.records| <= |t.records| && forall r :: 0 <= r < |s.records| ==> RecordKept(s.records[r], t.records[r])
  {
    hide FirstCallEvent, FromLog, Accepts, GuardOf;
  }

  lemma LeftStays(s: State, t: State, a: Action)
    requires Left(s, a) && Keeps(s, t)
    ensures Left(t, a)
  {
    if a.DoRegister? {
      var c :| 0 <= c < |s.calls| && s.calls[c].call.id == a.call.id;
      assert CallKept(s.calls[c], t.calls[c]);
    }
    if a.DoAsk? {
      var k :| 0 <= k < |s.records| && s.records[k].id == a.id;
      assert RecordKept(s.records[k], t.records[k]);
    }
  }

  lemma StepLeaves(s: State, a: Action)
    requires RecordedExact(s.calls, s.recorded) && CurrentNames(s) && Enabled(s, a)
    ensures Left(Apply(s, a), a)
  {
    hide FirstCallEvent, FromLog, Accepts, GuardOf;
    var t := Apply(s, a);
    match a
    case DoRegister(call, _) =>
      var c := if call.id in s.recorded then s.recorded[call.id] else |s.calls|;
      assert t.calls[c].call.id == call.id;
    case DoAsk(id, call, policy) =>
      var k := if id in s.current then s.current[id] else |s.records|;
      assert t.records[k].id == id;
    case _ =>
  }

  predicate CurrentNames(s: State) {
    forall id :: id in s.current ==> s.current[id] < |s.records| && s.records[s.current[id]].id == id
  }

  lemma StepCurrent(s: State, a: Action, id: ApprovalId)
    requires Enabled(s, a) && !a.Restart? && id in Apply(s, a).current
    ensures var t := Apply(s, a);
      || (id in s.current && t.current[id] == s.current[id])
      || (t.current[id] < |t.records| && t.records[t.current[id]].id == id)
  {
    hide FirstCallEvent, FirstRequest, FirstDecision, Accepts, GuardOf;
  }

  lemma StepNames(s: State, a: Action)
    requires CurrentNames(s) && Enabled(s, a)
    ensures CurrentNames(Apply(s, a))
  {
    hide Enabled, Apply;
    if a.Restart? {
      RestartNames(s, a);
    } else {
      StepKeepsRecords(s, a);
      forall id | id in Apply(s, a).current
        ensures Apply(s, a).current[id] < |Apply(s, a).records| && Apply(s, a).records[Apply(s, a).current[id]].id == id
      {
        StepCurrent(s, a, id);
      }
    }
  }

  lemma RestartNames(s: State, a: Action)
    requires Enabled(s, a) && a.Restart?
    ensures CurrentNames(Apply(s, a))
  {
  }

  ghost predicate AllLeft(s: State, own: seq<Action>) {
    forall a :: a in own ==> Left(s, a)
  }

  lemma StepAllLeft(s: State, a: Action, own: seq<Action>)
    requires RecordedExact(s.calls, s.recorded) && CurrentNames(s) && Enabled(s, a) && AllLeft(s, own)
    ensures AllLeft(Apply(s, a), Own(own, a))
  {
    hide Left, Apply, Enabled, RecordedExact, CurrentNames;
    if !a.Restart? {
      StepKeepsCalls(s, a);
      StepKeepsRecords(s, a);
      StepLeaves(s, a);
      forall b | b in own ensures Left(Apply(s, a), b) { LeftStays(s, Apply(s, a), b); }
    }
  }

  lemma LinkedExact(s: State, own: seq<Action>)
    requires Linked(s, own)
    ensures RecordedExact(s.calls, s.recorded)
  {
    hide RecordedExact, PersistedTraced, RequestsTraced;
  }

  lemma {:induction false} RunAllLeft(s: State, acts: seq<Action>, past: seq<Action>)
    requires Linked(s, SinceRestart(past)) && CurrentNames(s) && AllLeft(s, SinceRestart(past)) && ValidRun(s, acts)
    ensures AllLeft(Run(s, acts), SinceRestart(past + acts))
    decreases |acts|
  {
    hide Linked, CurrentNames, AllLeft, Apply, Enabled, SinceRestart;
    if acts == [] {
      assert past + acts == past;
    } else {
      LinkedExact(s, SinceRestart(past));
      StepAllLeft(s, acts[0], SinceRestart(past));
      StepLinked(s, acts[0], SinceRestart(past));
      StepNames(s, acts[0]);
      OwnSnoc(past, acts[0]);
      RunAllLeft(Apply(s, acts[0]), acts[1..], past + [acts[0]]);
      assert past + acts == (past + [acts[0]]) + acts[1..];
    }
  }

  /**
   Nothing that happened in a process is forgotten by it: who registered is registered, who asked has a
   record, and what landed or failed, of a call, a request or a decision, is marked so for good.
   */
  lemma NothingIsForgotten(log: seq<Event>, acts: seq<Action>, a: Action)
    requires ValidRun(Boot(log), acts) && a in SinceRestart(acts)
    ensures Left(Run(Boot(log), acts), a)
  {
    hide Run, ValidRun, SinceRestart, Linked, Left;
    BootLinked(log);
    assert SinceRestart([]) == [] by { NoneSince(); }
    RunAllLeft(Boot(log), acts, []);
    assert [] + acts == acts;
  }
}

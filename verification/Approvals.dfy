/** Approval records as an object. */
module Approvals {
  import opened Wrappers
  import H = HistoryModel
  import M = ApprovalModel

  datatype ApprovalError = StaleApproval | ApprovalAlreadyDecided

  class ApprovalRecords {
    const base: nat
    var log: seq<H.Event>
    var calls: seq<M.Registration>
    var recordedCalls: map<M.CallId, nat>
    var records: seq<M.Record>
    var approvalRecords: map<M.ApprovalId, nat>

    ghost function State(): M.State
      reads this
    {
      M.State(log, base, calls, recordedCalls, records, approvalRecords)
    }

    /** The maps name objects that exist. */
    ghost predicate Valid()
      reads this
    {
      && (forall c :: c in recordedCalls ==> recordedCalls[c] < |calls|)
      && (forall a :: a in approvalRecords ==> approvalRecords[a] < |records|)
    }

    constructor (durable: seq<H.Event>)
      ensures Valid() && State() == M.Boot(durable)
    {
      base, log, calls, recordedCalls, records, approvalRecords := |durable|, durable, [], map[], [], map[];
    }

    /** `registerCall`; None stands for the error thrown for another identity. */
    method RegisterCall(call: M.CallInput, rehydrate: bool) returns (registration: Option<nat>)
      requires Valid()
      modifies this`calls, this`recordedCalls
      ensures Valid()
      ensures State() == M.Register(old(State()), call, rehydrate)
      ensures registration.Some? ==> registration.value < |calls| && calls[registration.value].call == call
      ensures M.FirstAsked(old(State()), call) == if registration.Some? then M.Registering(registration.value) else M.Refused
    {
      if call.id in recordedCalls {
        var existing := recordedCalls[call.id];
        return if calls[existing].call == call then Some(existing) else None;
      }
      registration := Some(|calls|);
      recordedCalls := recordedCalls[call.id := |calls|];
      calls := calls + [M.Registration(call, if rehydrate then M.Reading else M.Appending)];
    }

    method CallFailed(index: nat)
      requires Valid() && index < |calls|
      modifies this`calls, this`recordedCalls
      ensures Valid() && State() == M.PersistFails(old(State()), index)
    {
      var id := calls[index].call.id;
      calls := calls[index := calls[index].(persist := M.PersistFailed)];
      if id in recordedCalls && recordedCalls[id] == index { recordedCalls := recordedCalls - {id}; }
    }

    /** `ensureDurableCall` after reading the first `read` events of the log. */
    method CallRead(index: nat, read: nat)
      requires Valid() && M.Enabled(State(), M.DoPersistRead(index, read))
      modifies this`calls, this`recordedCalls
      ensures Valid() && State() == M.Apply(old(State()), M.DoPersistRead(index, read))
    {
      var persisted := M.FirstCallEvent(log[..read], calls[index].call.id);
      if persisted.None? {
        calls := calls[index := calls[index].(persist := M.Appending)];
      } else if persisted.value == M.CallEvent(calls[index].call) {
        calls := calls[index := calls[index].(persist := M.Persisted)];
      } else {
        CallFailed(index);
      }
    }

    /** The append of a `tool/call` reaches the history, which takes it or rejects it. */
    method AppendCall(index: nat)
      requires Valid() && index < |calls| && calls[index].persist == M.Appending
      modifies this
      ensures Valid()
      ensures var e := M.CallEvent(old(calls)[index].call);
        State() == if H.Accepts(old(log), [e]) then M.CallLands(old(State()), index) else M.PersistFails(old(State()), index)
    {
      var e := M.CallEvent(calls[index].call);
      if !H.Accepts(log, [e]) {
        CallFailed(index);
        return;
      }
      log := log + [e];
      calls := calls[index := calls[index].(persist := M.Persisted)];
    }

    /** `recordApprovalRequest` up to its first await. */
    method Request(id: M.ApprovalId, call: M.CallInput, policy: string) returns (r: Result<nat, ApprovalError>)
      requires Valid()
      modifies this
      ensures Valid()
      ensures State() == M.Ask(old(State()), id, call, policy)
      ensures id in old(approvalRecords) ==>
        var existing := old(records)[old(approvalRecords)[id]];
        r == if existing.call != call.id || existing.policy != policy then Err(StaleApproval)
             else Ok(old(approvalRecords)[id])
      ensures id !in old(approvalRecords) ==> r == Ok(old(|records|))
    {
      if id in approvalRecords {
        var existing := approvalRecords[id];
        if records[existing].call != call.id || records[existing].policy != policy { return Err(StaleApproval); }
        return Ok(existing);
      }
      var registration := RegisterCall(call, false);
      var request := if registration.Some? then M.Registering(registration.value) else M.Refused;
      r := Ok(|records|);
      approvalRecords := approvalRecords[id := |records|];
      records := records + [M.Record(id, call.id, policy, request, M.Undecided)];
    }

    method CallAwaited(index: nat)
      requires Valid() && M.Enabled(State(), M.DoCallAwaited(index))
      modifies this`records
      ensures Valid() && State() == M.Apply(old(State()), M.DoCallAwaited(index))
    {
      records := records[index := records[index].(request := M.Asking)];
    }

    method RequestFailed(index: nat)
      requires Valid() && index < |records|
      modifies this`records, this`approvalRecords
      ensures Valid() && State() == M.AskFails(old(State()), index)
    {
      var id := records[index].id;
      records := records[index := records[index].(request := M.AskFailed)];
      if id in approvalRecords && approvalRecords[id] == index { approvalRecords := approvalRecords - {id}; }
    }

    /** The append of an `approval/request`. */
    method AppendRequest(index: nat)
      requires Valid() && index < |records| && records[index].request == M.Asking
      modifies this
      ensures Valid()
      ensures State() ==
        if H.Accepts(old(log), [M.RequestEvent(old(records)[index])]) then M.AskLands(old(State()), index)
        else M.AskFails(old(State()), index)
    {
      var e := M.RequestEvent(records[index]);
      if !H.Accepts(log, [e]) {
        RequestFailed(index);
        return;
      }
      log := log + [e];
      records := records[index := records[index].(request := M.Durable)];
    }

    /** `hydrateApproval` after reading the first `read` events of the log. */
    method Hydrate(id: M.ApprovalId, call: M.CallInput, read: nat)
      requires Valid() && M.Enabled(State(), M.DoHydrate(id, call, read))
      modifies this`records, this`approvalRecords
      ensures Valid() && State() == M.Apply(old(State()), M.DoHydrate(id, call, read))
    {
      var events := log[..read];
      var first := M.FirstCallEvent(events, call.id);
      if first.None? || !M.SameCall(first.value, call) { return; }
      var request := M.FirstRequest(events, id, call.id);
      if request.None? { return; }
      var decision := M.FirstDecision(events, id, call.id);
      if id in approvalRecords { return; }
      approvalRecords := approvalRecords[id := |records|];
      records := records + [M.Record(id, call.id, request.value.policy, M.Durable,
        if decision.Some? then M.Chosen(decision.value.outcome) else M.Undecided)];
    }

    /** `recordApprovalDecision` once it has its record. */
    method Decide(index: nat, call: M.CallId, outcome: string) returns (r: Result<(), ApprovalError>)
      requires Valid() && index < |records|
      modifies this`records
      ensures Valid() && State() == M.Choose(old(State()), index, call, outcome)
      ensures r == Err(StaleApproval) <==> old(records)[index].call != call
      ensures r == Err(ApprovalAlreadyDecided) <==>
        old(records)[index].call == call && old(records)[index].decision != M.Undecided &&
        old(records)[index].decision.outcome != outcome
      ensures |records| == |old(records)|
      ensures old(records)[index].call == call && old(records)[index].decision == M.Undecided ==>
        records[index] == old(records)[index].(decision := M.Deciding(outcome))
    {
      var record := records[index];
      if record.call != call { return Err(StaleApproval); }
      if record.decision != M.Undecided {
        return if record.decision.outcome != outcome then Err(ApprovalAlreadyDecided) else Ok(());
      }
      records := records[index := record.(decision := M.Deciding(outcome))];
      return Ok(());
    }

    /** The append of an `approval/decision`; a refused one leaves the decision of the record in place. */
    method AppendDecision(index: nat)
      requires Valid() && index < |records| && records[index].request == M.Durable && records[index].decision.Deciding?
      modifies this`records, this`log
      ensures Valid()
      ensures State() ==
        if H.Accepts(old(log), [M.DecisionEvent(old(records)[index])]) then M.ChoiceLands(old(State()), index)
        else M.SetChoice(old(State()), index, M.ChoiceFailed(old(records)[index].decision.outcome))
    {
      var record := records[index];
      var e := M.DecisionEvent(record);
      var accepted := H.Accepts(log, [e]);
      if accepted { log := log + [e]; }
      records := records[index := record.(decision :=
        if accepted then M.Chosen(record.decision.outcome) else M.ChoiceFailed(record.decision.outcome))];
    }
  }
}

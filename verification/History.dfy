/** The validator as an object. */
module History {
  // The incremental validator: it changes its maps event by event and, when a rule is broken in
  // the middle of a batch, puts back every entry it touched.

  import opened Wrappers
  import opened HistoryModel
  import HistorySafety

  predicate Retrying(e: Event) {
    e.RetryScheduled? || e.RetryStarted? || e.RetryCancelled?
  }

  // ----- undoing -----

  function Lookup<K, V>(m: map<K, V>, k: K): Option<V> {
    if k in m then Some(m[k]) else None
  }

  /** `undo` holds the former value of every key in which `now` may differ from `was`. */
  ghost predicate Undoes<K(!new), V>(undo: map<K, Option<V>>, was: map<K, V>, now: map<K, V>) {
    forall k :: Lookup(was, k) == if k in undo then undo[k] else Lookup(now, k)
  }

  ghost predicate UndoesSet<K(!new)>(undo: map<K, bool>, was: set<K>, now: set<K>) {
    forall k :: k in was <==> if k in undo then undo[k] else k in now
  }

  /** `remember` and `rememberObject`: the first value of a key is the one kept, so the key may change. */
  method Remember<K(==, !new), V>(m: map<K, V>, undo: map<K, Option<V>>, key: K, ghost value: V, ghost was: map<K, V>)
    returns (r: map<K, Option<V>>)
    requires Undoes(undo, was, m)
    ensures Undoes(r, was, m[key := value])
  {
    r := undo;
    if key !in undo { r := undo[key := Lookup(m, key)]; }
  }

  method RememberSet<K(==, !new)>(s: set<K>, undo: map<K, bool>, key: K, ghost was: set<K>) returns (r: map<K, bool>)
    requires UndoesSet(undo, was, s)
    ensures UndoesSet(r, was, s + {key}) && UndoesSet(r, was, s - {key})
  {
    r := undo;
    if key !in undo { r := undo[key := key in s]; }
  }

  /** The restoring loop over one map. */
  method Restore<K(==, !new), V>(now: map<K, V>, undo: map<K, Option<V>>, ghost was: map<K, V>) returns (r: map<K, V>)
    requires Undoes(undo, was, now)
    ensures r == was
  {
    r := now;
    var left := undo.Keys;
    while left != {}
      invariant left <= undo.Keys
      invariant forall k :: Lookup(was, k) == if k in left then undo[k] else Lookup(r, k)
      decreases |left|
    {
      var key :| key in left;
      match undo[key] {
        case None => r := r - {key};
        case Some(value) => r := r[key := value];
      }
      left := left - {key};
    }
    SameMap(r, was);
  }

  lemma SameMap<K(!new), V>(a: map<K, V>, b: map<K, V>)
    requires forall k :: Lookup(b, k) == Lookup(a, k)
    ensures a == b
  {
    forall k ensures k in a <==> k in b { assert Lookup(b, k) == Lookup(a, k); }
    forall k | k in a ensures a[k] == b[k] { assert Lookup(b, k) == Lookup(a, k); }
  }

  method RestoreSet<K(==, !new)>(now: set<K>, undo: map<K, bool>, ghost was: set<K>) returns (r: set<K>)
    requires UndoesSet(undo, was, now)
    ensures r == was
  {
    r := now;
    var left := undo.Keys;
    while left != {}
      invariant left <= undo.Keys
      invariant forall k :: k in was <==> if k in left then undo[k] else k in r
      decreases |left|
    {
      var key :| key in left;
      if undo[key] { r := r + {key}; } else { r := r - {key}; }
      left := left - {key};
    }
  }

  // ----- the validator -----

  /** The undo maps of one append. */
  datatype Undo = Undo(
    requests: map<string, Option<Request>>, calls: map<string, Option<Call>>, approvals: map<string, Option<string>>,
    retries: map<string, Option<Retry>>, unresolvedCalls: map<string, bool>, pendingApprovals: map<string, bool>,
    pendingRetries: map<string, bool>)

  const NOTHING := Undo(map[], map[], map[], map[], map[], map[], map[])

  ghost predicate Covers(undo: Undo, was: Guard, now: Guard) {
    && Undoes(undo.requests, was.requests, now.requests) && Undoes(undo.calls, was.calls, now.calls)
    && Undoes(undo.approvals, was.approvals, now.approvals) && Undoes(undo.retries, was.retries, now.retries)
    && UndoesSet(undo.unresolvedCalls, was.unresolvedCalls, now.unresolvedCalls)
    && UndoesSet(undo.pendingApprovals, was.pendingApprovals, now.pendingApprovals)
    && UndoesSet(undo.pendingRetries, was.pendingRetries, now.pendingRetries)
  }

  /** A batch is parsed as a whole before its first event is validated. */
  function Submit(g: Guard, batch: seq<Event>): Result<Guard, Rule> {
    if Parsed(batch) then Validate(g, batch) else Err(Malformed)
  }

  predicate Parsed(batch: seq<Event>) {
    forall e :: e in batch ==> WellFormed(e)
  }

  class HistoryValidator {
    var openTurn: Option<nat>
    var openStep: Option<nat>
    var lastTurn: nat
    var lastStep: nat
    var suspension: Option<Suspended>
    var requests: map<string, Request>
    var calls: map<string, Call>
    var approvals: map<string, string>
    var retries: map<string, Retry>
    var unresolvedCalls: set<string>
    var pendingApprovals: set<string>
    var pendingRetries: set<string>
    var events: seq<Event>

    ghost function State(): Guard
      reads this
    {
      Guard(openTurn, openStep, lastTurn, lastStep, suspension, requests, calls, approvals, retries,
            unresolvedCalls, pendingApprovals, pendingRetries)
    }

    /** The maps are those one pass over the whole history would fill. */
    ghost predicate Valid()
      reads this
    {
      GuardOf(events) == Ok(State())
    }

    constructor ()
      ensures Valid() && State() == EMPTY && events == []
    {
      openTurn, openStep, lastTurn, lastStep, suspension := None, None, 0, 0, None;
      requests, calls, approvals, retries := map[], map[], map[], map[];
      unresolvedCalls, pendingApprovals, pendingRetries := {}, {}, {};
      events := [];
    }

    method RecordBracket(e: Event) returns (broken: Option<Rule>)
      requires Bracket(e) && WellFormed(e)
      modifies this`openTurn, this`openStep, this`lastTurn, this`lastStep, this`suspension
      ensures broken == Broken(old(State()), e)
      ensures State() == if broken.None? then After(old(State()), e) else old(State())
    {
      match e {
        case TurnStart(turn) =>
          if openTurn.Some? { return Some(SingleOpenTurn); }
          if turn <= lastTurn { return Some(MonotonicTurnId); }
          openTurn, lastTurn := Some(turn), turn;
        case TurnSuspend(turn, step, callIds, approvalIds) =>
          broken := CheckSuspension(turn, step, callIds, approvalIds);
          if broken.Some? { return; }
          suspension := Some(Suspended(turn, step, callIds, approvalIds));
        case TurnResume(turn, step, _) =>
          broken := CheckResume(turn, step);
          if broken.Some? { return; }
          suspension := None;
        case TurnEnd(turn, _) =>
          if openTurn != Some(turn) { return Some(TurnBalance); }
          if suspension.Some? { return Some(ResumeBeforeTurnEnd); }
          if openStep.Some? { return Some(StepBeforeTurnEnd); }
          if exists c :: c in unresolvedCalls && c in calls && calls[c].turn == turn { return Some(ToolCallBalance); }
          if pendingRetries != {} { return Some(RetryBalance); }
          openTurn := None;
        case StepStart(turn, step) =>
          if openTurn != Some(turn) { return Some(StepInsideTurn); }
          if openStep.Some? { return Some(SingleOpenStep); }
          if step <= lastStep { return Some(GlobalMonotonicStepId); }
          openStep, lastStep := Some(step), step;
        case StepEnd(turn, step, _) =>
          if openTurn != Some(turn) || openStep != Some(step) { return Some(StepBalance); }
          if suspension.Some? { return Some(ResumeBeforeStepEnd); }
          if exists c :: c in unresolvedCalls && c in calls && calls[c].step == step { return Some(ToolCallBeforeStepEnd); }
          openStep := None;
      }
      return None;
    }

    method CheckSuspension(turn: nat, step: nat, callIds: seq<string>, approvalIds: seq<string>) returns (broken: Option<Rule>)
      ensures broken == SuspendRule(State(), turn, step, callIds, approvalIds)
    {
      if openTurn != Some(turn) || openStep != Some(step) { return Some(SuspensionInsideStep); }
      if suspension.Some? { return Some(SingleSuspension); }
      if !Distinct(callIds) { return Some(UniqueSuspendedCalls); }
      if !Distinct(approvalIds) { return Some(UniqueSuspendedApprovals); }
      var unresolved := set c | c in unresolvedCalls && c in calls && calls[c].turn == turn && calls[c].step == step;
      var pending := set a | a in pendingApprovals && a in approvals && approvals[a] in calls &&
                             calls[approvals[a]].turn == turn && calls[approvals[a]].step == step;
      assert unresolved == UnresolvedAt(State(), turn, step) && pending == PendingAt(State(), turn, step);
      if Elements(callIds) != unresolved { return Some(SuspensionCallSet); }
      if Elements(approvalIds) != pending { return Some(SuspensionApprovalSet); }
      return None;
    }

    method CheckResume(turn: nat, step: nat) returns (broken: Option<Rule>)
      ensures broken == ResumeRule(State(), turn, step)
    {
      if openTurn != Some(turn) || openStep != Some(step) || suspension.None? { return Some(ResumeSuspendedTurn); }
      var was := suspension.value;
      if exists c :: c in was.callIds && c in calls && !calls[c].result && (calls[c].approval.None? || !calls[c].decided) {
        return Some(ResolveBeforeResume);
      }
      if exists a :: a in was.approvalIds && a in approvals && (approvals[a] !in calls || !calls[approvals[a]].decided) {
        return Some(ApprovalBeforeResume);
      }
      return None;
    }

    method RecordCall(callId: string, h: Handle, identity: string, safe: bool, undo: Undo, ghost was: Guard)
      returns (broken: Option<Rule>, next: Undo)
      requires Covers(undo, was, State())
      modifies this`calls, this`unresolvedCalls
      ensures broken == ToolRule(old(State()), ToolCall(callId, h, identity, safe))
      ensures broken.Some? ==> State() == old(State())
      ensures broken.None? ==>
        State() == old(State()).(calls := old(calls)[callId := Call(h.turn, h.step, None, false, false)],
                                 unresolvedCalls := old(unresolvedCalls) + {callId})
      ensures Covers(next, was, State())
    {
      hide Undoes, UndoesSet;
      next := undo;
      if h.request !in requests { return Some(ToolRequestReference), next; }
      var request := requests[h.request];
      if request.turn != h.turn || request.step != h.step || openTurn != Some(h.turn) || openStep != Some(h.step) {
        return Some(ToolInsideRequestStep), next;
      }
      if callId in calls { return Some(UniqueToolCall), next; }
      var u := Remember(calls, undo.calls, callId, Call(request.turn, request.step, None, false, false), was.calls);
      var v := RememberSet(unresolvedCalls, undo.unresolvedCalls, callId, was.unresolvedCalls);
      next := undo.(calls := u, unresolvedCalls := v);
      calls := calls[callId := Call(request.turn, request.step, None, false, false)];
      unresolvedCalls := unresolvedCalls + {callId};
      return None, next;
    }

    method RecordResult(callId: string, turn: nat, step: nat, undo: Undo, ghost was: Guard)
      returns (broken: Option<Rule>, next: Undo)
      requires Covers(undo, was, State())
      modifies this`calls, this`unresolvedCalls
      ensures broken == ToolRule(old(State()), ToolResult(callId, turn, step))
      ensures broken.Some? ==> State() == old(State())
      ensures broken.None? ==> callId in old(calls)
      ensures broken.None? ==>
        State() == old(State()).(calls := old(calls)[callId := old(calls)[callId].(result := true)],
                                 unresolvedCalls := old(unresolvedCalls) - {callId})
      ensures Covers(next, was, State())
    {
      hide Undoes, UndoesSet;
      next := undo;
      if callId !in calls { return Some(ToolResultReference), next; }
      var call := calls[callId];
      if call.result { return Some(SingleToolResult), next; }
      if call.turn != turn || call.step != step { return Some(ToolResultOwner), next; }
      if call.approval.Some? && !call.decided { return Some(ApprovalBeforeResult), next; }
      var u := Remember(calls, undo.calls, callId, call.(result := true), was.calls);
      var v := RememberSet(unresolvedCalls, undo.unresolvedCalls, callId, was.unresolvedCalls);
      next := undo.(calls := u, unresolvedCalls := v);
      calls := calls[callId := call.(result := true)];
      unresolvedCalls := unresolvedCalls - {callId};
      return None, next;
    }

    method RecordAsk(approvalId: string, callId: string, policy: string, undo: Undo, ghost was: Guard)
      returns (broken: Option<Rule>, next: Undo)
      requires Covers(undo, was, State())
      modifies this`calls, this`approvals, this`pendingApprovals
      ensures broken == ToolRule(old(State()), ApprovalRequest(approvalId, callId, policy))
      ensures broken.Some? ==> State() == old(State())
      ensures broken.None? ==> callId in old(calls)
      ensures broken.None? ==>
        State() == old(State()).(calls := old(calls)[callId := old(calls)[callId].(approval := Some(approvalId))],
                                 approvals := old(approvals)[approvalId := callId],
                                 pendingApprovals := old(pendingApprovals) + {approvalId})
      ensures Covers(next, was, State())
    {
      hide Undoes, UndoesSet;
      next := undo;
      if callId !in calls { return Some(ApprovalCallReference), next; }
      if approvalId in approvals || calls[callId].approval.Some? { return Some(SingleApprovalRequest), next; }
      var u := Remember(approvals, undo.approvals, approvalId, callId, was.approvals);
      var v := Remember(calls, undo.calls, callId, calls[callId].(approval := Some(approvalId)), was.calls);
      var w := RememberSet(pendingApprovals, undo.pendingApprovals, approvalId, was.pendingApprovals);
      next := undo.(approvals := u, calls := v, pendingApprovals := w);
      approvals := approvals[approvalId := callId];
      calls := calls[callId := calls[callId].(approval := Some(approvalId))];
      pendingApprovals := pendingApprovals + {approvalId};
      return None, next;
    }

    method RecordDecision(approvalId: string, callId: string, outcome: string, undo: Undo, ghost was: Guard)
      returns (broken: Option<Rule>, next: Undo)
      requires Covers(undo, was, State())
      modifies this`calls, this`pendingApprovals
      ensures broken == ToolRule(old(State()), ApprovalDecision(approvalId, callId, outcome))
      ensures broken.Some? ==> State() == old(State())
      ensures broken.None? ==> callId in old(calls)
      ensures broken.None? ==>
        State() == old(State()).(calls := old(calls)[callId := old(calls)[callId].(decided := true)],
                                 pendingApprovals := old(pendingApprovals) - {approvalId})
      ensures Covers(next, was, State())
    {
      hide Undoes, UndoesSet;
      next := undo;
      if approvalId !in approvals || approvals[approvalId] != callId || callId !in calls {
        return Some(ApprovalDecisionReference), next;
      }
      if calls[callId].decided { return Some(SingleApprovalDecision), next; }
      var u := Remember(calls, undo.calls, callId, calls[callId].(decided := true), was.calls);
      var v := RememberSet(pendingApprovals, undo.pendingApprovals, approvalId, was.pendingApprovals);
      next := undo.(calls := u, pendingApprovals := v);
      calls := calls[callId := calls[callId].(decided := true)];
      pendingApprovals := pendingApprovals - {approvalId};
      return None, next;
    }

    method RecordTool(e: Event, undo: Undo, ghost was: Guard) returns (broken: Option<Rule>, next: Undo)
      requires Tool(e) && WellFormed(e) && Covers(undo, was, State())
      modifies this`calls, this`approvals, this`unresolvedCalls, this`pendingApprovals
      ensures broken == Broken(old(State()), e)
      ensures State() == if broken.None? then After(old(State()), e) else old(State())
      ensures Covers(next, was, State())
    {
      hide Covers, WellFormed;
      match e {
        case ToolCall(callId, h, identity, safe) => broken, next := RecordCall(callId, h, identity, safe, undo, was);
        case ToolResult(callId, turn, step) => broken, next := RecordResult(callId, turn, step, undo, was);
        case ApprovalRequest(approvalId, callId, policy) => broken, next := RecordAsk(approvalId, callId, policy, undo, was);
        case ApprovalDecision(approvalId, callId, outcome) => broken, next := RecordDecision(approvalId, callId, outcome, undo, was);
      }
    }

    method RecordRequest(e: Event, undo: Undo, ghost was: Guard) returns (broken: Option<Rule>, next: Undo)
      requires !Tool(e) && !Bracket(e) && !Retrying(e) && WellFormed(e) && Covers(undo, was, State())
      modifies this`requests, this`retries, this`pendingRetries
      ensures broken == Broken(old(State()), e)
      ensures State() == if broken.None? then After(old(State()), e) else old(State())
      ensures Covers(next, was, State())
    {
      hide WellFormed, Undoes, UndoesSet;
      next := undo;
      match e {
        case UserMessage(turn) => if openTurn != Some(turn) { return Some(InputInsideTurn), next; }
        case ContextInjected(turn, step) =>
          if openTurn != Some(turn) || openStep != Some(step) { return Some(ContextInsideStep), next; }
        case RequestHeader(h, _) =>
          if openTurn != Some(h.turn) || openStep != Some(h.step) { return Some(RequestInsideStep), next; }
          if h.request in requests { return Some(UniqueRequestId), next; }
          var u := Remember(requests, undo.requests, h.request, Request(h.turn, h.step, 0), was.requests);
          next := undo.(requests := u);
          requests := requests[h.request := Request(h.turn, h.step, 0)];
        case RequestContext(id) => if id !in requests { return Some(RequestContextReference), next; }
        case RequestAttempt(id, attempt, retry) => broken, next := RecordAttempt(id, attempt, retry, undo, was); return;
        case RequestFailure(id, attempt) =>
          if id !in requests { return Some(RequestFailureReference), next; }
          if attempt != requests[id].lastAttempt { return Some(FailureAttemptReference), next; }
        case AssistantChunk(h) => broken := CheckAssistant(h); return;
        case AssistantMessage(h, _) => broken := CheckAssistant(h); return;
        case Adapter(_) =>
      }
      return None, next;
    }

    method CheckAssistant(h: Handle) returns (broken: Option<Rule>)
      ensures broken == AssistantRule(State(), h)
    {
      if h.request !in requests { return Some(AssistantRequestReference); }
      if requests[h.request].turn != h.turn || requests[h.request].step != h.step { return Some(AssistantRequestOwner); }
      return None;
    }

    method RecordAttempt(id: string, attempt: nat, retry: Option<string>, undo: Undo, ghost was: Guard)
      returns (broken: Option<Rule>, next: Undo)
      requires WellFormed(RequestAttempt(id, attempt, retry)) && Covers(undo, was, State())
      modifies this`requests, this`retries, this`pendingRetries
      ensures broken == Broken(old(State()), RequestAttempt(id, attempt, retry))
      ensures State() == if broken.None? then After(old(State()), RequestAttempt(id, attempt, retry)) else old(State())
      ensures Covers(next, was, State())
    {
      hide Undoes, UndoesSet;
      next := undo;
      if id !in requests { return Some(RequestAttemptReference), next; }
      if attempt != requests[id].lastAttempt + 1 { return Some(MonotonicRequestAttempt), next; }
      if retry.Some? {
        var key := retry.value;
        if key !in retries || retries[key].phase != Started || retries[key].request != id || retries[key].nextAttempt != attempt {
          return Some(AttemptRetryReference), next;
        }
        next := MoveRetry(key, Consumed, undo, was);
      } else if attempt != 1 {
        return Some(RetryRequired), next;
      }
      var u := Remember(requests, next.requests, id, requests[id].(lastAttempt := attempt), was.requests);
      next := next.(requests := u);
      requests := requests[id := requests[id].(lastAttempt := attempt)];
      return None, next;
    }

    /** Changes the phase of a retry and, for its last phase, takes it off the pending ones. */
    method MoveRetry(key: string, phase: Phase, undo: Undo, ghost was: Guard) returns (next: Undo)
      requires key in retries && phase != Scheduled && Covers(undo, was, State())
      modifies this`retries, this`pendingRetries
      ensures State() == SetPhase(old(State()), key, phase)
      ensures Covers(next, was, State())
    {
      hide Undoes, UndoesSet;
      var u := Remember(retries, undo.retries, key, retries[key].(phase := phase), was.retries);
      next := undo.(retries := u);
      retries := retries[key := retries[key].(phase := phase)];
      if phase != Started {
        var v := RememberSet(pendingRetries, undo.pendingRetries, key, was.pendingRetries);
        next := next.(pendingRetries := v);
        pendingRetries := pendingRetries - {key};
      }
    }

    method RecordRetry(e: Event, undo: Undo, ghost was: Guard) returns (broken: Option<Rule>, next: Undo)
      requires Retrying(e) && WellFormed(e) && Covers(undo, was, State())
      modifies this`retries, this`pendingRetries
      ensures broken == Broken(old(State()), e)
      ensures State() == if broken.None? then After(old(State()), e) else old(State())
      ensures Covers(next, was, State())
    {
      hide Undoes, UndoesSet;
      next := undo;
      match e {
        case RetryScheduled(key, id, previous, following) =>
          if id !in requests { return Some(RetryRequestReference), next; }
          if previous != requests[id].lastAttempt || following != previous + 1 { return Some(RetryAttemptSequence), next; }
          if key in retries { return Some(UniqueRetryId), next; }
          var u := Remember(retries, undo.retries, key, Retry(id, following, Scheduled), was.retries);
          var v := RememberSet(pendingRetries, undo.pendingRetries, key, was.pendingRetries);
          next := undo.(retries := u, pendingRetries := v);
          retries := retries[key := Retry(id, following, Scheduled)];
          pendingRetries := pendingRetries + {key};
        case RetryStarted(key, id, attempt) =>
          if key !in retries || retries[key].phase != Scheduled { return Some(RetryStartReference), next; }
          if retries[key].request != id || retries[key].nextAttempt != attempt { return Some(RetryStartMatch), next; }
          next := MoveRetry(key, Started, undo, was);
        case RetryCancelled(key) =>
          if key !in retries || (retries[key].phase != Scheduled && retries[key].phase != Started) {
            return Some(RetryCancelReference), next;
          }
          next := MoveRetry(key, Cancelled, undo, was);
      }
      return None, next;
    }

    /** Restores what the undo maps remember. */
    method Rollback(undo: Undo, ghost was: Guard)
      requires Covers(undo, was, State())
      modifies this`requests, this`calls, this`approvals, this`retries,
        this`unresolvedCalls, this`pendingApprovals, this`pendingRetries
      ensures requests == was.requests && calls == was.calls && approvals == was.approvals && retries == was.retries
      ensures unresolvedCalls == was.unresolvedCalls && pendingApprovals == was.pendingApprovals
      ensures pendingRetries == was.pendingRetries
    {
      hide Undoes, UndoesSet;
      requests := Restore(requests, undo.requests, was.requests);
      calls := Restore(calls, undo.calls, was.calls);
      approvals := Restore(approvals, undo.approvals, was.approvals);
      retries := Restore(retries, undo.retries, was.retries);
      unresolvedCalls := RestoreSet(unresolvedCalls, undo.unresolvedCalls, was.unresolvedCalls);
      pendingApprovals := RestoreSet(pendingApprovals, undo.pendingApprovals, was.pendingApprovals);
      pendingRetries := RestoreSet(pendingRetries, undo.pendingRetries, was.pendingRetries);
    }

    /** One event of a batch. */
    method Record(e: Event, undo: Undo, ghost was: Guard) returns (broken: Option<Rule>, next: Undo)
      requires WellFormed(e) && Covers(undo, was, State())
      modifies this
      ensures events == old(events)
      ensures broken == Broken(old(State()), e)
      ensures State() == if broken.None? then After(old(State()), e) else old(State())
      ensures Covers(next, was, State())
    {
      hide WellFormed, Undoes, UndoesSet, Broken;
      if Bracket(e) {
        next := undo;
        broken := RecordBracket(e);
        BracketCovers(undo, was, old(State()), e);
      } else if Tool(e) {
        broken, next := RecordTool(e, undo, was);
      } else if Retrying(e) {
        broken, next := RecordRetry(e, undo, was);
      } else {
        broken, next := RecordRequest(e, undo, was);
      }
    }

    /** The loop over the events of a batch, up to the first broken rule. */
    method RecordAll(batch: seq<Event>) returns (broken: Option<Rule>, undo: Undo)
      requires Parsed(batch)
      modifies this
      ensures events == old(events) && Covers(undo, old(State()), State())
      ensures Validate(old(State()), batch) == if broken.None? then Ok(State()) else Err(broken.value)
    {
      hide Validate, Broken, After, Undoes, UndoesSet, Covers, WellFormed, Parsed;
      ghost var was := State();
      undo := NOTHING;
      NothingCovers(was);
      WholeBatch(was, batch);
      var i := 0;
      while i < |batch|
        invariant 0 <= i <= |batch|
        invariant events == old(events)
        invariant Covers(undo, was, State())
        invariant Validate(was, batch) == Validate(State(), batch[i..])
      {
        ghost var before := State();
        ParsedAt(batch, i);
        broken, undo := Record(batch[i], undo, was);
        NextOfBatch(before, batch, i);
        if broken.Some? { return; }
        i := i + 1;
      }
      broken := None;
    }

    /**
     `append`: the batch as a whole, or the state of before; it is accepted exactly when one pass
     over the whole history with the batch accepts.
     */
    method Append(batch: seq<Event>) returns (r: Result<(), Rule>)
      requires Valid()
      modifies this
      ensures Valid()
      ensures r.Ok? <==> GuardOf(old(events) + batch).Ok?
      ensures r.Ok? <==> Submit(old(State()), batch).Ok?
      ensures r.Ok? ==> State() == Submit(old(State()), batch).value && events == old(events) + batch
      ensures r.Err? ==> r.error == Submit(old(State()), batch).error && State() == old(State()) && events == old(events)
    {
      hide Validate, Broken, After, Undoes, UndoesSet, Covers, WellFormed, Parsed;
      ghost var was := State();
      SubmitAccepts(was, batch);
      HistorySafety.ValidateConcat(EMPTY, events, batch);
      if !Parsed(batch) { return Err(Malformed); }
      var count, turn, step, lastT, lastS, paused := |events|, openTurn, openStep, lastTurn, lastStep, suspension;
      events := events + batch;
      var broken, undo := RecordAll(batch);
      if broken.Some? {
        Rollback(undo, was);
        openTurn, openStep, lastTurn, lastStep, suspension := turn, step, lastT, lastS, paused;
        events := events[..count];
        return Err(broken.value);
      }
      return Ok(());
    }
  }

  lemma BracketCovers(undo: Undo, was: Guard, g: Guard, e: Event)
    requires Bracket(e) && Covers(undo, was, g)
    ensures Covers(undo, was, AfterBracket(g, e))
  {
    hide Undoes, UndoesSet;
  }

  lemma NothingCovers(g: Guard)
    ensures Covers(NOTHING, g, g)
  {
  }

  lemma WholeBatch(g: Guard, batch: seq<Event>)
    ensures batch[0..] == batch && forall u :: Validate(u, batch[|batch|..]) == Ok(u)
  {
    hide Broken, After;
  }

  lemma NextOfBatch(g: Guard, batch: seq<Event>, i: nat)
    requires i < |batch|
    ensures Validate(g, batch[i..]) ==
      if Allowed(g, batch[i]) then Validate(After(g, batch[i]), batch[i + 1..]) else Err(Broken(g, batch[i]).value)
  {
    hide Broken, After;
    assert batch[i..][1..] == batch[i + 1..];
  }

  lemma ParsedAt(batch: seq<Event>, i: nat)
    requires Parsed(batch) && i < |batch|
    ensures WellFormed(batch[i])
  {
    assert batch[i] in batch;
  }

  /** Parsing the batch first changes which error is reported, not what is accepted. */
  lemma {:induction false} SubmitAccepts(g: Guard, batch: seq<Event>)
    ensures Submit(g, batch).Ok? <==> Validate(g, batch).Ok?
    ensures Submit(g, batch).Ok? ==> Submit(g, batch) == Validate(g, batch)
    decreases |batch|
  {
    hide BracketRule, ToolRule, RequestRule, RetryRule, After, WellFormed;
    if batch != [] {
      assert batch == [batch[0]] + batch[1..];
      if Allowed(g, batch[0]) { SubmitAccepts(After(g, batch[0]), batch[1..]); }
    }
  }
}

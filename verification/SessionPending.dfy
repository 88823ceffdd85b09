/** Who is still pending. */
module SessionPending {
  // The two lists and the owner that `readOwnedSuspension` reports, in terms of the events of the
  // history alone: who is pending, in which order, and once each.

  import opened Wrappers
  import opened HistoryModel
  import opened HistorySafety
  import opened SessionModel
  import opened SessionSuspension

  // ----- the statement, on events -----

  /** The event suspends a turn, and no later one suspends, resumes or ends one. */
  ghost predicate SuspendsAt(log: seq<Event>, k: nat) {
    && k < |log| && log[k].TurnSuspend?
    && forall j :: k < j < |log| ==> !log[j].TurnSuspend? && !log[j].TurnResume? && !log[j].TurnEnd?
  }

  ghost predicate Undecided(log: seq<Event>, a: string) {
    forall c, outcome :: ApprovalDecision(a, c, outcome) !in log
  }

  /** The call has no result, and no request or an undecided one. */
  ghost predicate Waits(log: seq<Event>, c: string) {
    && (forall turn, step :: ToolResult(c, turn, step) !in log)
    && (forall a, policy :: ApprovalRequest(a, c, policy) in log ==> Undecided(log, a))
  }

  /** `part` holds the elements of `all` at the positions `at`, in their order. */
  ghost predicate Picked(part: seq<string>, all: seq<string>, at: seq<nat>) {
    && |at| == |part|
    && (forall i :: 0 <= i < |at| ==> at[i] < |all| && part[i] == all[at[i]])
    && (forall i, j :: 0 <= i < j < |at| ==> at[i] < at[j])
  }

  ghost predicate InOrder(part: seq<string>, all: seq<string>) {
    exists at :: Picked(part, all, at)
  }

  // ----- filtering a list -----

  lemma PickedCons(part: seq<string>, all: seq<string>, at: seq<nat>, x: string)
    requires Picked(part, all, at)
    ensures InOrder(part, [x] + all) && InOrder([x] + part, [x] + all)
  {
    var later := seq(|at|, i requires 0 <= i < |at| => at[i] + 1);
    assert Picked(part, [x] + all, later);
    assert Picked([x] + part, [x] + all, [0] + later);
  }

  lemma EmptyInOrder(all: seq<string>)
    ensures InOrder([], all)
  {
    assert Picked([], all, []);
  }

  lemma InOrderDistinct(part: seq<string>, all: seq<string>)
    requires InOrder(part, all) && Distinct(all)
    ensures Distinct(part)
  {
    var at :| Picked(part, all, at);
  }

  lemma {:induction false} PendingApprovalsAre(log: seq<Event>, ids: seq<string>)
    ensures forall a :: a in PendingApprovals(log, ids) <==> a in ids && !HasDecision(log, a)
    ensures InOrder(PendingApprovals(log, ids), ids)
    decreases |ids|
  {
    hide HasDecision, InOrder;
    if ids == [] {
      EmptyInOrder(ids);
    } else {
      PendingApprovalsAre(log, ids[1..]);
      assert ids == [ids[0]] + ids[1..];
      ConsInOrder(PendingApprovals(log, ids[1..]), ids[1..], ids[0]);
    }
  }

  lemma {:induction false} PendingCallsAre(log: seq<Event>, ids: seq<string>)
    ensures forall c :: c in PendingCalls(log, ids) <==> c in ids && PendingCall(log, c)
    ensures InOrder(PendingCalls(log, ids), ids)
    decreases |ids|
  {
    hide PendingCall, InOrder;
    if ids == [] {
      EmptyInOrder(ids);
    } else {
      PendingCallsAre(log, ids[1..]);
      assert ids == [ids[0]] + ids[1..];
      ConsInOrder(PendingCalls(log, ids[1..]), ids[1..], ids[0]);
    }
  }

  lemma ConsInOrder(part: seq<string>, all: seq<string>, x: string)
    requires InOrder(part, all)
    ensures InOrder(part, [x] + all) && InOrder([x] + part, [x] + all)
    ensures InOrder([] + part, [x] + all)
  {
    var at :| Picked(part, all, at);
    PickedCons(part, all, at, x);
    assert [] + part == part;
  }

  // ----- from the projections to the events -----

  lemma UndecidedMeans(log: seq<Event>, a: string)
    ensures Undecided(log, a) <==> !HasDecision(log, a)
  {
    if HasDecision(log, a) {
      var e :| e in log && e.ApprovalDecision? && e.approvalId == a;
      assert ApprovalDecision(a, e.callId, e.outcome) in log;
    }
  }

  lemma ResultMeans(log: seq<Event>, c: string)
    ensures (forall turn, step :: ToolResult(c, turn, step) !in log) <==> !HasResult(log, c)
  {
    if HasResult(log, c) {
      var e :| e in log && e.ToolResult? && e.callId == c;
      assert ToolResult(c, e.turn, e.step) in log;
    }
  }

  /** A call has at most one request, so the latest is the only one. */
  lemma WaitsMeans(log: seq<Event>, c: string)
    requires GuardOf(log).Ok?
    ensures Waits(log, c) <==> PendingCall(log, c)
  {
    hide GuardOf, ApprovalFor, HasDecision, HasResult, Undecided;
    ResultMeans(log, c);
    var last := ApprovalFor(log, c);
    if last.Some? {
      var e :| e in log && e.ApprovalRequest? && e.callId == c && e.approvalId == last.value;
      assert ApprovalRequest(last.value, c, e.policy) in log;
      forall a, policy | ApprovalRequest(a, c, policy) in log ensures a == last.value {
        OneRequest(log, e, ApprovalRequest(a, c, policy));
      }
      UndecidedMeans(log, last.value);
    } else {
      forall a, policy ensures ApprovalRequest(a, c, policy) !in log {}
    }
  }

  lemma OneRequest(log: seq<Event>, e: Event, f: Event)
    requires GuardOf(log).Ok? && e in log && f in log && e.ApprovalRequest? && f.ApprovalRequest? && e.callId == f.callId
    ensures e == f
  {
    hide GuardOf;
    var i :| 0 <= i < |log| && log[i] == e;
    var k :| 0 <= k < |log| && log[k] == f;
    if i < k { EachOnce(log, i, k); }
    if k < i { EachOnce(log, k, i); }
  }

  /** A suspension names no call and no approval twice. */
  lemma SuspendedOnce(log: seq<Event>, k: nat)
    requires GuardOf(log).Ok? && k < |log| && log[k].TurnSuspend?
    ensures Distinct(log[k].callIds) && Distinct(log[k].approvalIds)
  {
    hide Validate, Allowed, Distinct;
    assert log == (log[..k] + [log[k]]) + log[k + 1..];
    Prefix(log[..k] + [log[k]], log[k + 1..]);
    AppendOne(log[..k], log[k]);
    SuspendAllowed(GuardOf(log[..k]).value, log[k]);
  }

  lemma SuspendAllowed(g: Guard, e: Event)
    requires e.TurnSuspend? && Allowed(g, e)
    ensures Distinct(e.callIds) && Distinct(e.approvalIds)
  {
    hide Distinct, WellFormed;
  }

  lemma {:induction false} LastSuspendAt(log: seq<Event>, k: nat)
    requires SuspendsAt(log, k)
    ensures LastSuspend(log) == Some(log[k])
    decreases |log|
  {
    if k < |log| - 1 {
      assert log[|log| - 1] == log[|log| - 1];
      LastSuspendAt(log[..|log| - 1], k);
    }
  }

  lemma {:induction false} LastSuspendFound(log: seq<Event>) returns (k: nat)
    requires LastSuspend(log).Some?
    ensures SuspendsAt(log, k)
    decreases |log|
  {
    var n := |log| - 1;
    if log[n].TurnSuspend? {
      k := n;
    } else {
      k := LastSuspendFound(log[..n]);
      assert log[..n][k] == log[k];
      forall j | k < j < |log| ensures !log[j].TurnSuspend? && !log[j].TurnResume? && !log[j].TurnEnd? {
        if j < n { assert log[..n][j] == log[j]; }
      }
    }
  }

  // ----- the theorem -----

  /**
   For every accepted history: nothing is reported exactly when no suspension is the last word. What is
   reported for a suspension that names a call is the handle under which its first call was recorded;
   of its calls exactly those without a result and without a decided request; of its approvals exactly
   those without a decision; both in the order of the suspension and none twice.
   */
  lemma ReportIsTheWaiting(log: seq<Event>)
    requires GuardOf(log).Ok?
    ensures ReadSuspension(log) == Ok(None) <==> forall k: nat :: !SuspendsAt(log, k)
    ensures forall k: nat :: SuspendsAt(log, k) && log[k].callIds != [] ==>
      && ReadSuspension(log).Ok? && ReadSuspension(log).value.Some?
      && Reports(log, log[k], ReadSuspension(log).value.value)
  {
    hide GuardOf, LastSuspend, Reports;
    SuspensionReported(log);
    if LastSuspend(log).Some? { var k := LastSuspendFound(log); }
    forall k: nat | SuspendsAt(log, k)
      ensures LastSuspend(log) == Some(log[k])
      ensures log[k].callIds != [] ==>
        ReadSuspension(log).Ok? && ReadSuspension(log).value.Some? && Reports(log, log[k], ReadSuspension(log).value.value)
    {
      LastSuspendAt(log, k);
      if log[k].callIds != [] { SuspensionReports(log, k); }
    }
  }

  ghost predicate Reports(log: seq<Event>, was: Event, r: Suspension)
    requires was.TurnSuspend? && was.callIds != []
  {
    && (exists identity, safe :: ToolCall(was.callIds[0], r.owner, identity, safe) in log)
    && (forall c :: c in r.pendingCalls <==> c in was.callIds && Waits(log, c))
    && (forall a :: a in r.pendingApprovals <==> a in was.approvalIds && Undecided(log, a))
    && InOrder(r.pendingCalls, was.callIds) && Distinct(r.pendingCalls)
    && InOrder(r.pendingApprovals, was.approvalIds) && Distinct(r.pendingApprovals)
  }

  lemma SuspensionReports(log: seq<Event>, k: nat)
    requires GuardOf(log).Ok? && SuspendsAt(log, k) && log[k].callIds != []
    ensures ReadSuspension(log).Ok? && ReadSuspension(log).value.Some?
    ensures Reports(log, log[k], ReadSuspension(log).value.value)
  {
    hide GuardOf, LastSuspend, PendingCalls, PendingApprovals, PendingCall, Waits, Undecided, HasDecision, HasResult, HasRequest,
      InOrder, Distinct, FirstCall;
    LastSuspendAt(log, k);
    SuspensionReported(log);
    var was, r := log[k], ReadSuspension(log).value.value;
    PendingCallsAre(log, was.callIds);
    PendingApprovalsAre(log, was.approvalIds);
    forall c ensures Waits(log, c) <==> PendingCall(log, c) { WaitsMeans(log, c); }
    forall a ensures Undecided(log, a) <==> !HasDecision(log, a) { UndecidedMeans(log, a); }
    SuspendedOnce(log, k);
    InOrderDistinct(r.pendingCalls, was.callIds);
    InOrderDistinct(r.pendingApprovals, was.approvalIds);
    assert was.callIds[0] in was.callIds;
    var e :| e in log && e.ToolCall? && e.callId == was.callIds[0] && e.handle == r.owner;
    assert ToolCall(was.callIds[0], r.owner, e.identity, e.safe) in log;
  }
}

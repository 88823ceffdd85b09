/** Every operation is answered. */
module ExecutorAnswers {
  // Nothing the executor waits for gets lost: when no continuation can change anything any more,
  // every operation still recorded has its durable result, or waits behind an order without outcome.

  import opened Wrappers
  import S = SchedulerModel
  import Slots = SchedulerSlots
  import Commits = SchedulerCommits
  import Drain = SchedulerDrain
  import opened ExecutorModel
  import opened ExecutorSafety

  /** A continuation of the process, as opposed to a call of it or its end. */
  predicate Continuation(a: Action) {
    !a.RecordCall? && !a.Start? && !a.Restart?
  }

  /** No continuation changes anything. */
  ghost predicate Idle(s: State) {
    forall a :: Continuation(a) && Enabled(s, a) ==> Apply(s, a) == s
  }

  lemma IdleMeans(s: State, a: Action)
    requires Idle(s) && Continuation(a) && Enabled(s, a)
    ensures Apply(s, a) == s
  {
  }

  lemma GoodSlots(s: State)
    requires Inv(s)
    ensures Slots.SlotInv(s.sched) && Commits.Good(s.sched)
    ensures forall i :: 0 <= i < |s.sched.entries| ==> s.sched.entries[i].body == S.Running ==> Slots.EntryOk(s.sched.entries[i])
  {
    hide Results, OrdersOk, StoredOk, DurableOk, RecordsOk, Slots.Starts, Slots.Holders, Commits.Commits;
  }

  lemma IdleBodies(s: State, i: nat)
    requires Inv(s) && Idle(s) && i < |s.sched.entries|
    ensures s.sched.entries[i].body != S.Running && s.sched.entries[i].body != S.Settling
  {
    hide Inv, Idle, Slots.SlotInv, S.BodyFinished, S.SlotSettled, Drain.BodiesLeft;
    GoodSlots(s);
    if s.sched.entries[i].body == S.Running {
      var v := Terminal(true, "", "", None);
      Drain.FinishDecreases(s.sched, i, v);
      IdleMeans(s, DoBody(S.DoBodyFinished(i, v)));
    } else if s.sched.entries[i].body == S.Settling {
      Drain.SettleDecreases(s.sched, i);
      IdleMeans(s, DoBody(S.DoSlotSettled(i)));
    }
  }

  lemma CommittingHasValue(s: State)
    requires Inv(s) && s.sched.committing
    ensures s.sched.nextCommit < |s.sched.entries| == |s.orders| && s.sched.entries[s.sched.nextCommit].value.Some?
  {
    hide Results, StoredOk, DurableOk, RecordsOk, Slots.Starts, Slots.Holders, Commits.Calls, Commits.Dones;
    var n := s.sched.nextCommit;
    assert s.sched.entries[n].ready;
    assert Slots.EntryOk(s.sched.entries[n]);
  }

  lemma IdleCommits(s: State)
    requires Inv(s) && Idle(s)
    ensures !s.sched.committing
  {
    hide Inv, Idle, S.CommitFinished, Drain.BodiesLeft;
    if s.sched.committing {
      CommittingHasValue(s);
      if Storing(s) && !s.appendLanded {
        IdleMeans(s, DoStoreLands);
      } else {
        Drain.CommitDecreases(s.sched);
        IdleMeans(s, DoCommitFinished);
      }
    }
  }

  lemma IdleIsAtRest(s: State)
    requires Inv(s) && Idle(s)
    ensures Drain.AtRest(s.sched)
  {
    hide Inv, Idle;
    IdleCommits(s);
    forall i | 0 <= i < |s.sched.entries|
      ensures s.sched.entries[i].body != S.Running && s.sched.entries[i].body != S.Settling
    {
      IdleBodies(s, i);
    }
  }

  lemma FailPersistMoves(s: State, o: nat)
    requires o < |s.orders| && s.orders[o].persist != PersistFailed
    ensures FailPersist(s, o) != s
  {
    assert FailPersist(s, o).orders[o].persist == PersistFailed;
  }

  /** The persistence of an idle order is over. */
  lemma IdleOrder(s: State, o: nat)
    requires Idle(s) && o < |s.orders|
    ensures s.orders[o].persist == Persisted || s.orders[o].persist == PersistFailed
  {
    hide Idle;
    if s.orders[o].persist.Reading? || s.orders[o].persist.Appending? {
      FailPersistMoves(s, o);
      IdleMeans(s, DoPersistFailed(o));
    }
  }

  lemma IdleRecord(s: State, call: CallId, lane: Lane)
    requires Inv(s) && Idle(s) && Has(s, call, lane)
    ensures Records(s, lane)[call].phase.AwaitResult? || Records(s, lane)[call].phase.Done?
  {
    hide Inv, Idle, Results, FirstResult, S.Execute, S.Complete;
    RecordIsOk(s, call, lane);
    var r := Records(s, lane)[call];
    IdleOrder(s, r.order);
    match r.phase
    case AwaitPersisted =>
      PutChanges(s, call, lane, AwaitRead);
      IdleMeans(s, DoAfterPersisted(call, lane));
    case AwaitRead =>
      IdleMeans(s, DoReadFailed(call, lane));
    case HaveRead(durable) =>
      DispatchMoves(s, call, lane);
      IdleMeans(s, DoDispatch(call, lane));
    case _ =>
  }

  lemma PutChanges(s: State, call: CallId, lane: Lane, p: Phase)
    requires Has(s, call, lane) && Records(s, lane)[call].phase != p
    ensures SetPhase(s, call, lane, p) != s && DropRecord(s, call, lane) != s
  {
    assert Records(SetPhase(s, call, lane, p), lane)[call].phase == p;
    assert call !in Records(DropRecord(s, call, lane), lane);
  }

  lemma DispatchMoves(s: State, call: CallId, lane: Lane)
    requires Enabled(s, DoDispatch(call, lane))
    ensures Dispatch(s, call, lane) != s
  {
    hide S.Execute, S.Complete, S.Accepts;
    var t := Dispatch(s, call, lane);
    assert call in Records(t, lane) ==> Records(t, lane)[call].phase == AwaitResult;
  }

  /** An idle record whose order was committed has its result. */
  lemma IdleAnswered(s: State, call: CallId, lane: Lane)
    requires Inv(s) && Idle(s) && Has(s, call, lane) && s.sched.failed == S.Undefined
    requires Records(s, lane)[call].order < s.sched.nextCommit
    ensures Records(s, lane)[call].phase.Done?
  {
    hide Inv, Idle, Commits.Good;
    IdleRecord(s, call, lane);
    IdleIsAtRest(s);
    RecordIsOk(s, call, lane);
    ExecutorDrains(s);
    if Records(s, lane)[call].phase.AwaitResult? {
      var v := s.sched.entries[Records(s, lane)[call].order].value.value;
      PutChanges(s, call, lane, Done(v));
      IdleMeans(s, DoAfterResult(call, lane));
    }
  }

  /**
   Without a failure of the scheduler, an operation that is still recorded when nothing can move any
   more has the durable result of its call, unless its order or an earlier one was never given an
   outcome; and no order is left in the middle of becoming durable.
   */
  lemma EveryOperationAnswered(s: State, call: CallId, lane: Lane)
    requires Inv(s) && Idle(s) && s.sched.failed == S.Undefined && Has(s, call, lane)
    ensures var r := Records(s, lane)[call];
      && r.order < |s.orders|
      && (r.phase.Done? || (r.phase.AwaitResult? && exists o: nat :: o <= r.order && s.orders[o].kind == NoOutcome))
      && (r.phase.Done? ==> ToolResult(call, r.phase.result) in s.log)
    ensures forall o :: 0 <= o < |s.orders| ==> s.orders[o].persist == Persisted || s.orders[o].persist == PersistFailed
  {
    hide Inv, Idle, Commits.Good;
    IdleRecord(s, call, lane);
    IdleIsAtRest(s);
    RecordIsOk(s, call, lane);
    ExecutorDrains(s);
    var r := Records(s, lane)[call];
    forall o | 0 <= o < |s.orders| ensures s.orders[o].persist == Persisted || s.orders[o].persist == PersistFailed {
      IdleOrder(s, o);
    }
    if r.order < s.sched.nextCommit {
      IdleAnswered(s, call, lane);
    } else {
      FirstOpen(s);
      assert s.orders[s.sched.nextCommit].kind == NoOutcome;
    }
  }

  lemma FirstOpen(s: State)
    requires Inv(s) && s.sched.failed == S.Undefined && Drain.AtRest(s.sched) && s.sched.nextCommit < |s.orders|
    ensures s.orders[s.sched.nextCommit].kind == NoOutcome
  {
    hide Commits.Good, Results, RecordsOk, StoredOk, DurableOk;
    Drain.RestIsDrained(s.sched);
  }

  // ----- who is started, who is refused -----

  /**
   `execute` or `complete` of a call in flight changes nothing. Of any other it starts an operation exactly
   when the call is registered under the same identity, or not registered and the scheduler still takes
   orders; the operation is recorded in its lane under that order and begins by awaiting persistence.
   */
  lemma StartsIffFree(s: State, call: CallId, identity: string, c: S.Concurrency, lane: Lane)
    requires Inv(s)
    ensures var t := Apply(s, Start(call, identity, c, lane));
      && (call in s.executions || call in s.completions ==> t == s)
      && (call !in s.executions && call !in s.completions ==>
            && (Has(t, call, lane) <==>
                  if call in s.recorded then s.recorded[call] < |s.orders| && s.orders[s.recorded[call]].identity == identity
                  else s.sched.failed == S.Undefined)
            && (Has(t, call, lane) ==>
                  Records(t, lane)[call] ==
                    Record(identity, lane, if call in s.recorded then s.recorded[call] else |s.orders|, AwaitPersisted)))
      && t.log == s.log
  {
    hide Commits.Good, Results, OrdersOk, StoredOk, DurableOk, RecordsOk;
  }

  /** Why an operation rejects. */
  ghost predicate MayReject(s: State, a: Action, call: CallId, lane: Lane)
    requires Has(s, call, lane) && Records(s, lane)[call].order < |s.orders| <= |s.sched.entries|
  {
    var r := Records(s, lane)[call];
    || (a == DoAfterPersisted(call, lane) && s.orders[r.order].persist == PersistFailed)
    || a == DoReadFailed(call, lane)
    || (a == DoAfterRead(call, lane) && Results(s.log, call) > 1)
    || (a == DoDispatch(call, lane) && S.HasOutcome(s.sched.entries[r.order]))
    || (a == DoDispatch(call, lane) && lane.Completion? && r.phase.HaveRead? && r.phase.durable.Some?
        && r.phase.durable.value != lane.supplied)
    || (a == DoAfterResult(call, lane) && s.sched.entries[r.order].promise.Rejected?)
  }

  /**
   No operation rejects without a reason, and none misses one: its record goes away in a step exactly
   when that step is its own continuation and found the registration failed, the read failed or the log
   with several results, the order taken, another durable result than the supplied one, or the promise of
   the scheduler rejected.
   */
  lemma RejectsForAReason(s: State, a: Action, call: CallId, lane: Lane)
    requires Inv(s) && Enabled(s, a) && !a.Restart? && Has(s, call, lane)
    ensures Records(s, lane)[call].order < |s.orders| == |s.sched.entries|
    ensures call !in Records(Apply(s, a), lane) <==> MayReject(s, a, call, lane)
  {
    hide Inv, Apply, Enabled, MayReject;
    RecordIsOk(s, call, lane);
    SameSize(s);
    if OfRecord(a) { ContinuationRejects(s, a, call, lane); } else { OthersKeep(s, a, call, lane); }
  }

  /** A continuation of an operation. */
  predicate OfRecord(a: Action) {
    a.DoAfterPersisted? || a.DoAfterRead? || a.DoReadFailed? || a.DoDispatch? || a.DoAfterResult?
  }

  lemma OthersKeep(s: State, a: Action, call: CallId, lane: Lane)
    requires Enabled(s, a) && !a.Restart? && !OfRecord(a) && Has(s, call, lane)
    requires Records(s, lane)[call].order < |s.orders| == |s.sched.entries|
    ensures call in Records(Apply(s, a), lane) && !MayReject(s, a, call, lane)
  {
    hide FirstCall, S.Apply, S.CommitFinished, S.CommitFailed, Register;
    match a
    case RecordCall(c, identity, k) => RegisterRecords(s, c, identity, k, false);
    case Start(c, identity, k, _) => RegisterRecords(s, c, identity, k, true);
    case _ =>
  }

  lemma ContinuationRejects(s: State, a: Action, call: CallId, lane: Lane)
    requires Inv(s) && Enabled(s, a) && OfRecord(a) && Has(s, call, lane)
    requires Records(s, lane)[call].order < |s.orders| == |s.sched.entries|
    ensures call !in Records(Apply(s, a), lane) <==> MayReject(s, a, call, lane)
  {
    hide Inv, MayReject, Dispatch, AfterPersisted, AfterRead, AfterResult, DropRecord;
    if a.call == call { OneLane(s, call, lane, a.lane); }
    match a
    case DoAfterPersisted(c, l) => PersistedRejects(s, c, l, call, lane);
    case DoAfterRead(c, l) => ReadRejects(s, c, l, call, lane);
    case DoReadFailed(c, l) => ReadRejects(s, c, l, call, lane);
    case DoAfterResult(c, l) => ResultRejects(s, c, l, call, lane);
    case DoDispatch(c, l) => DispatchRejects(s, c, l, call, lane);
  }

  lemma OneLane(s: State, call: CallId, lane: Lane, other: Lane)
    requires Inv(s) && Has(s, call, lane) && Has(s, call, other)
    ensures lane == other
  {
    hide Commits.Good, Results, OrdersOk, StoredOk, DurableOk, RecordsOk;
  }

  lemma PersistedRejects(s: State, c: CallId, l: Lane, call: CallId, lane: Lane)
    requires Enabled(s, DoAfterPersisted(c, l)) && Has(s, call, lane) && (c == call ==> l == lane)
    requires Records(s, lane)[call].order < |s.orders| == |s.sched.entries|
    ensures call !in Records(AfterPersisted(s, c, l), lane) <==> MayReject(s, DoAfterPersisted(c, l), call, lane)
  {
  }

  lemma ReadRejects(s: State, c: CallId, l: Lane, call: CallId, lane: Lane)
    requires Enabled(s, DoAfterRead(c, l)) && Has(s, call, lane) && (c == call ==> l == lane)
    requires Records(s, lane)[call].order < |s.orders| == |s.sched.entries|
    ensures call !in Records(AfterRead(s, c, l), lane) <==> MayReject(s, DoAfterRead(c, l), call, lane)
    ensures call !in Records(DropRecord(s, c, l), lane) <==> MayReject(s, DoReadFailed(c, l), call, lane)
  {
    hide Results, FirstResult;
  }

  lemma ResultRejects(s: State, c: CallId, l: Lane, call: CallId, lane: Lane)
    requires Enabled(s, DoAfterResult(c, l)) && Has(s, call, lane) && (c == call ==> l == lane)
    requires Records(s, lane)[call].order < |s.orders| == |s.sched.entries|
    ensures call !in Records(AfterResult(s, c, l), lane) <==> MayReject(s, DoAfterResult(c, l), call, lane)
  {
  }

  lemma DispatchRejects(s: State, c: CallId, l: Lane, call: CallId, lane: Lane)
    requires Enabled(s, DoDispatch(c, l)) && Has(s, call, lane) && (c == call ==> l == lane)
    requires Records(s, lane)[call].order < |s.orders| == |s.sched.entries|
    ensures call !in Records(Dispatch(s, c, l), lane) <==> MayReject(s, DoDispatch(c, l), call, lane)
  {
    hide S.Execute, S.Complete, Results;
  }

  lemma RegisterRecords(s: State, call: CallId, identity: string, c: S.Concurrency, rehydrate: bool)
    ensures var t := Register(s, call, identity, c, rehydrate).1;
      t.executions == s.executions && t.completions == s.completions
  {
  }
}

/** One result, one body per call. */
module ExecutorSafety {
  // Single flight and durability: at most one stored result per call across interleavings and
  // restarts, and at most one body per call in a process.

  import opened Wrappers
  import S = SchedulerModel
  import Slots = SchedulerSlots
  import Commits = SchedulerCommits
  import Drain = SchedulerDrain
  import opened ExecutorModel

  /** Orders and registrations: a call has at most one order whose record is not lost. */
  ghost predicate OrdersOk(orders: seq<Order>, entries: seq<S.Entry<Terminal>>, recorded: map<CallId, nat>) {
    && |orders| == |entries|
    && (forall o :: 0 <= o < |orders| ==>
          && (orders[o].kind == NoOutcome <==> !S.HasOutcome(entries[o]))
          && (orders[o].kind != NoOutcome ==> orders[o].persist == Persisted)
          && (orders[o].kind == Noop ==> entries[o].ready)
          && (orders[o].persist != PersistFailed ==>
                orders[o].call in recorded && recorded[orders[o].call] == o))
    && (forall c :: c in recorded ==> recorded[c] < |orders| && orders[recorded[c]].call == c)
  }

  /** The log holds the result of an order exactly when its storing commit has landed. */
  ghost predicate StoredOk(log: seq<Event>, orders: seq<Order>, next: nat, landed: bool) {
    && (forall o :: 0 <= o < |orders| && orders[o].kind == Store ==>
          Results(log, orders[o].call) == if o < next || (o == next && landed) then 1 else 0)
    && (forall c :: Results(log, c) <= 1)
  }

  /** Whatever an order resolves to is the durable result of its call. */
  ghost predicate DurableOk(log: seq<Event>, orders: seq<Order>, entries: seq<S.Entry<Terminal>>, next: nat, landed: bool) {
    forall o | 0 <= o < |orders| && o < |entries| ::
      orders[o].kind == Noop || (orders[o].kind == Store && (o < next || (o == next && landed))) ==>
      entries[o].value.Some? && ToolResult(orders[o].call, entries[o].value.value) in log
  }

  ghost predicate RecordOk(r: Record, c: CallId, orders: seq<Order>, log: seq<Event>) {
    && r.order < |orders| && orders[r.order].call == c
    && (r.phase != AwaitPersisted ==> orders[r.order].persist == Persisted)
    && (r.phase == HaveRead(None) ==> Results(log, c) == 0 || orders[r.order].kind != NoOutcome)
    && (r.phase.HaveRead? && r.phase.durable.Some? ==> ToolResult(c, r.phase.durable.value) in log)
    && (r.phase.Done? ==> ToolResult(c, r.phase.result) in log)
  }

  ghost predicate RecordsOk(m: map<CallId, Record>, orders: seq<Order>, log: seq<Event>) {
    forall c :: c in m ==> RecordOk(m[c], c, orders, log)
  }

  ghost predicate Inv(s: State) {
    && Commits.Good(s.sched)
    && OrdersOk(s.orders, s.sched.entries, s.recorded)
    && StoredOk(s.log, s.orders, s.sched.nextCommit, s.appendLanded)
    && DurableOk(s.log, s.orders, s.sched.entries, s.sched.nextCommit, s.appendLanded)
    && (s.appendLanded ==> Storing(s))
    && s.executions.Keys !! s.completions.Keys
    && RecordsOk(s.executions, s.orders, s.log)
    && RecordsOk(s.completions, s.orders, s.log)
  }

  // ----- counting results -----

  lemma ResultsSnoc(log: seq<Event>, e: Event, c: CallId)
    ensures Results(log + [e], c) == Results(log, c) + if e.ToolResult? && e.call == c then 1 else 0
  {
    assert (log + [e])[..|log|] == log;
  }

  lemma {:induction false} NoneMeansZero(log: seq<Event>, c: CallId)
    ensures FirstResult(log, c).None? ==> Results(log, c) == 0
  {
    if log != [] && FirstResult(log, c).None? {
      var n := |log| - 1;
      assert forall k :: 0 <= k < n ==> log[..n][k] == log[k];
      assert FirstResult(log[..n], c).None?;
      NoneMeansZero(log[..n], c);
      assert !(log[n].ToolResult? && log[n].call == c);
    }
  }

  lemma {:induction false} FirstResultInLog(log: seq<Event>, c: CallId)
    ensures FirstResult(log, c).Some? ==> ToolResult(c, FirstResult(log, c).value) in log
  {
    if log != [] && !(log[0].ToolResult? && log[0].call == c) { FirstResultInLog(log[1..], c); }
  }

  // ----- what a scheduler step does to outcomes and commits -----

  /** Outcomes change only at `order`; a commit in flight stays in flight. */
  ghost predicate SchedFrame(s: S.State<Terminal>, t: S.State<Terminal>, order: int) {
    && |t.entries| == |s.entries| && t.nextCommit == s.nextCommit
    && (s.committing ==> t.committing)
    && (forall k :: 0 <= k < |s.entries| && k != order ==> S.HasOutcome(t.entries[k]) == S.HasOutcome(s.entries[k]))
    && (forall k :: 0 <= k < |s.entries| && s.entries[k].ready ==>
          t.entries[k].ready && t.entries[k].value == s.entries[k].value)
    && (0 <= order < |t.entries| ==> S.HasOutcome(t.entries[order]))
  }

  lemma PumpFrame(s: S.State<Terminal>)
    requires Slots.SlotInv(s)
    ensures SchedFrame(s, S.Pump(s), -1)
  {
    hide Slots.Slots, Slots.Starts, S.Pump, Drain.BodiesLeft, Commits.Calls, Commits.Dones;
    Drain.PumpAdvances(s);
    Commits.PumpUnseen(s);
  }

  lemma ExecuteFrame(s: S.State<Terminal>, order: nat)
    requires Commits.Good(s) && S.Accepts(s, order)
    ensures SchedFrame(s, S.Execute(s, order), order)
  {
    hide Slots.Slots, Commits.Commits, Commits.Quiet, Slots.Starts, S.Pump, Commits.Calls, Commits.Dones;
    Slots.SetRunKeeps(s, order);
    PumpFrame(S.SetRun(s, order));
  }

  lemma CompleteFrame(s: S.State<Terminal>, order: nat, v: Terminal)
    requires Commits.Good(s) && S.Accepts(s, order)
    ensures SchedFrame(s, S.Complete(s, order, v), order)
    ensures S.Complete(s, order, v).entries[order].ready && S.Complete(s, order, v).entries[order].value == Some(v)
  {
    hide Slots.Slots, Commits.Commits, Commits.Quiet, Slots.Starts, S.Pump, Commits.Calls, Commits.Dones;
    Slots.SetValueKeeps(s, order, v);
    Slots.CommitReadyKeeps(S.SetValue(s, order, v));
    var t := S.CommitReady(S.SetValue(s, order, v));
    PumpFrame(t);
    assert t.entries[order].ready;
  }

  lemma FinishFrame(s: S.State<Terminal>, i: nat, v: Terminal)
    requires Slots.SlotInv(s) && i < |s.entries| && s.entries[i].body == S.Running
    ensures SchedFrame(s, S.BodyFinished(s, i, v), -1)
  {
    hide Slots.Slots, Slots.Starts;
    Slots.EndBodyKeeps(s, i, v);
    RunningHasRun(s, i);
  }

  lemma RunningHasRun(s: S.State<Terminal>, i: nat)
    requires Slots.SlotInv(s) && i < |s.entries| && s.entries[i].started
    ensures S.HasOutcome(s.entries[i])
  {
    hide Slots.Starts, Slots.Holders, Slots.Barrier, Slots.StartOrder, Slots.StartLog;
    assert Slots.EntryOk(s.entries[i]);
  }

  lemma SettleFrame(s: S.State<Terminal>, i: nat)
    requires Slots.SlotInv(s) && i < |s.entries| && s.entries[i].body == S.Settling
    ensures SchedFrame(s, S.SlotSettled(s, i), -1)
  {
    hide Slots.Slots, Slots.Starts, S.Pump, Drain.BodiesLeft, Slots.Holders;
    Drain.ReleaseDecreases(s, i);
    Slots.ReleaseKeeps(s, i);
    PumpFrame(S.ReleaseSlot(s, i));
  }

  lemma StuckFrame(s: S.State<Terminal>, i: nat, error: S.Thrown)
    requires i < |s.entries|
    ensures SchedFrame(s, S.BodyFailed(s, i, error), -1)
  {
  }

  lemma BodyStepFrame(s: S.State<Terminal>, a: S.Action<Terminal>)
    requires Commits.Good(s) && S.Enabled(s, a) && IsBodyStep(a)
    ensures SchedFrame(s, S.Apply(s, a), -1)
  {
    hide Slots.Slots, Commits.Commits, Commits.Quiet, Slots.Starts, SchedFrame,
         S.BodyFinished, S.SlotSettled, S.BodyFailed, S.Register, S.Execute, S.Complete, S.CommitFinished, S.CommitFailed;
    match a
    case DoBodyFinished(i, v) => FinishFrame(s, i, v);
    case DoSlotSettled(i) => SettleFrame(s, i);
    case DoBodyFailed(i, error) => StuckFrame(s, i, error);
    case DoSettleFailed(i, error) => StuckFrame(s, i, error);
  }

  lemma CommitFrame(s: S.State<Terminal>)
    requires s.nextCommit < |s.entries|
    ensures var t := S.CommitFinished(s);
      && |t.entries| == |s.entries| && t.nextCommit == s.nextCommit + 1
      && (forall k :: 0 <= k < |s.entries| ==>
            && S.HasOutcome(t.entries[k]) == S.HasOutcome(s.entries[k])
            && t.entries[k].ready == s.entries[k].ready && t.entries[k].value == s.entries[k].value)
  {
  }

  // ----- each step keeps the invariant -----

  /** Orders may be added, become durable, fail before they have an outcome, or get an outcome. */
  ghost predicate Extends(orders: seq<Order>, later: seq<Order>) {
    && |orders| <= |later|
    && (forall o :: 0 <= o < |orders| ==>
          && later[o].call == orders[o].call
          && (orders[o].persist == Persisted ==> later[o].persist == Persisted)
          && (orders[o].kind != NoOutcome ==> later[o].kind == orders[o].kind))
  }

  lemma RecordsKeep(m: map<CallId, Record>, orders: seq<Order>, later: seq<Order>, log: seq<Event>)
    requires RecordsOk(m, orders, log) && Extends(orders, later)
    ensures RecordsOk(m, later, log)
  {
    hide Results;
    forall c | c in m ensures RecordOk(m[c], c, later, log) {
      assert RecordOk(m[c], c, orders, log);
    }
  }

  lemma RegisterKeepsOrders(s: State, call: CallId, identity: string, c: S.Concurrency, p: Persist)
    requires OrdersOk(s.orders, s.sched.entries, s.recorded) && call !in s.recorded
    requires StoredOk(s.log, s.orders, s.sched.nextCommit, s.appendLanded)
    ensures OrdersOk(s.orders + [Order(call, identity, p, NoOutcome)], s.sched.entries + [S.NewEntry<Terminal>(c)],
                     s.recorded[call := |s.orders|])
    ensures StoredOk(s.log, s.orders + [Order(call, identity, p, NoOutcome)], s.sched.nextCommit, s.appendLanded)
    ensures DurableOk(s.log, s.orders, s.sched.entries, s.sched.nextCommit, s.appendLanded) ==>
      DurableOk(s.log, s.orders + [Order(call, identity, p, NoOutcome)], s.sched.entries + [S.NewEntry<Terminal>(c)],
                s.sched.nextCommit, s.appendLanded)
  {
    hide Results;
    var orders := s.orders + [Order(call, identity, p, NoOutcome)];
    forall o | 0 <= o < |orders| && orders[o].kind == Store
      ensures Results(s.log, orders[o].call) ==
              if o < s.sched.nextCommit || (o == s.sched.nextCommit && s.appendLanded) then 1 else 0
    {
      assert orders[o] == s.orders[o];
    }
  }

  lemma RegisterKeepsInv(s: State, call: CallId, identity: string, c: S.Concurrency, rehydrate: bool)
    requires Inv(s)
    ensures Inv(Register(s, call, identity, c, rehydrate).1)
    ensures var (o, t) := Register(s, call, identity, c, rehydrate);
      && t.executions == s.executions && t.completions == s.completions && t.log == s.log
      && (o.Some? ==> o.value < |t.orders| && t.orders[o.value].call == call)
  {
    hide Commits.Good, StoredOk, DurableOk, RecordsOk, Results;
    if call !in s.recorded && s.sched.failed == S.Undefined {
      Commits.RegisterKeepsGood(s.sched, c);
      var t := Register(s, call, identity, c, rehydrate).1;
      RegisterKeepsOrders(s, call, identity, c, if rehydrate then Reading else Appending);
      RecordsKeep(s.executions, s.orders, t.orders, s.log);
      RecordsKeep(s.completions, s.orders, t.orders, s.log);
      assert Storing(s) ==> Storing(t);
    }
  }

  /** Changing `persist` of one order, before it has an outcome. */
  lemma PersistKeepsOrders(s: State, order: nat, p: Persist)
    requires OrdersOk(s.orders, s.sched.entries, s.recorded) && order < |s.orders|
    requires s.orders[order].persist in {Reading, Appending}
    ensures s.orders[order].kind == NoOutcome
    ensures p != PersistFailed ==> var t := SetPersist(s, order, p); OrdersOk(t.orders, t.sched.entries, t.recorded)
    ensures var t := FailPersist(s, order); OrdersOk(t.orders, t.sched.entries, t.recorded)
  {
    var t := FailPersist(s, order);
    forall o | 0 <= o < |t.orders| && t.orders[o].persist != PersistFailed
      ensures t.orders[o].call in t.recorded && t.recorded[t.orders[o].call] == o
    {
      assert o != order;
    }
  }

  lemma StoredKeep(s: State, orders: seq<Order>)
    requires StoredOk(s.log, s.orders, s.sched.nextCommit, s.appendLanded) && |orders| == |s.orders|
    requires forall o :: 0 <= o < |orders| && orders[o].kind == Store ==> orders[o].call == s.orders[o].call && s.orders[o].kind == Store
    requires forall o :: 0 <= o < |orders| && orders[o].kind == Noop ==> orders[o].call == s.orders[o].call && s.orders[o].kind == Noop
    requires DurableOk(s.log, s.orders, s.sched.entries, s.sched.nextCommit, s.appendLanded)
    ensures StoredOk(s.log, orders, s.sched.nextCommit, s.appendLanded)
    ensures DurableOk(s.log, orders, s.sched.entries, s.sched.nextCommit, s.appendLanded)
  {
    hide Results;
  }

  lemma PersistKeepsLog(s: State, order: nat, p: Persist)
    requires Inv(s) && order < |s.orders| && s.orders[order].persist in {Reading, Appending}
    ensures
      var orders := s.orders[order := s.orders[order].(persist := p)];
      && StoredOk(s.log, orders, s.sched.nextCommit, s.appendLanded)
      && DurableOk(s.log, orders, s.sched.entries, s.sched.nextCommit, s.appendLanded)
      && RecordsOk(s.executions, orders, s.log) && RecordsOk(s.completions, orders, s.log)
  {
    hide Commits.Good, StoredOk, DurableOk, OrdersOk, RecordsOk, Results;
    var orders := s.orders[order := s.orders[order].(persist := p)];
    StoredKeep(s, orders);
    RecordsKeep(s.executions, s.orders, orders, s.log);
    RecordsKeep(s.completions, s.orders, orders, s.log);
  }

  lemma PersistKeepsInv(s: State, order: nat, p: Persist)
    requires Inv(s) && order < |s.orders| && s.orders[order].persist in {Reading, Appending}
    ensures p != PersistFailed ==> Inv(SetPersist(s, order, p))
    ensures Inv(FailPersist(s, order))
  {
    hide Commits.Good, StoredOk, DurableOk, OrdersOk, RecordsOk, Results;
    PersistKeepsOrders(s, order, p);
    PersistKeepsLog(s, order, p);
    PersistKeepsLog(s, order, PersistFailed);
    assert Storing(s) ==> Storing(SetPersist(s, order, p)) && Storing(FailPersist(s, order));
  }

  lemma PersistAppendedKeepsInv(s: State, order: nat)
    requires Inv(s) && order < |s.orders| && s.orders[order].persist == Appending
    ensures Inv(PersistAppended(s, order))
  {
    hide Commits.Good, Results;
    PersistKeepsInv(s, order, Persisted);
    forall c ensures Results(PersistAppended(s, order).log, c) == Results(s.log, c) {
      ResultsSnoc(s.log, ToolCall(s.orders[order].call, s.orders[order].identity), c);
    }
    LogKeepsInv(SetPersist(s, order, Persisted), PersistAppended(s, order).log);
  }

  /** A longer log with the same result counts. */
  lemma LogKeepsInv(s: State, log: seq<Event>)
    requires Inv(s) && s.log <= log && forall c :: Results(log, c) == Results(s.log, c)
    ensures Inv(s.(log := log))
  {
    hide Commits.Good, Results, OrdersOk;
    forall c | c in s.executions ensures RecordOk(s.executions[c], c, s.orders, log) {
      assert RecordOk(s.executions[c], c, s.orders, s.log);
    }
    forall c | c in s.completions ensures RecordOk(s.completions[c], c, s.orders, log) {
      assert RecordOk(s.completions[c], c, s.orders, s.log);
    }
  }

  lemma PutKeepsInv(s: State, call: CallId, r: Record)
    requires Inv(s) && RecordOk(r, call, s.orders, s.log)
    requires if r.lane.Execution? then call !in s.completions else call !in s.executions
    ensures Inv(PutRecord(s, call, r))
  {
    hide Commits.Good, Results, OrdersOk, StoredOk, DurableOk;
  }

  lemma DropKeepsInv(s: State, call: CallId, lane: Lane)
    requires Inv(s)
    ensures Inv(DropRecord(s, call, lane))
  {
    hide Commits.Good, Results, OrdersOk, StoredOk, DurableOk;
  }

  lemma BeginKeepsInv(s: State, call: CallId, identity: string, c: S.Concurrency, lane: Lane)
    requires Inv(s)
    ensures Inv(Begin(s, call, identity, c, lane))
  {
    hide Inv, Register, RecordsOk, Results;
    if call !in s.executions && call !in s.completions {
      RegisterKeepsInv(s, call, identity, c, true);
      var (o, t) := Register(s, call, identity, c, true);
      if o.Some? { PutKeepsInv(t, call, Record(identity, lane, o.value, AwaitPersisted)); }
    }
  }

  lemma RecordIsOk(s: State, call: CallId, lane: Lane)
    requires Inv(s) && Has(s, call, lane)
    ensures RecordOk(Records(s, lane)[call], call, s.orders, s.log)
    ensures if lane.Execution? then call !in s.completions else call !in s.executions
  {
    hide Commits.Good, Results, OrdersOk, StoredOk, DurableOk;
  }

  lemma ResolvedIsDurable(s: State)
    requires Inv(s)
    ensures forall o | 0 <= o < |s.orders| && o < |s.sched.entries| ::
      s.sched.entries[o].promise.Resolved? && s.sched.entries[o].promise.result.Some? ==>
      ToolResult(s.orders[o].call, s.sched.entries[o].promise.result.value) in s.log
  {
    hide Results, Slots.Slots, StoredOk, RecordsOk;
    CommittedHaveOutcomes(s);
    forall o | 0 <= o < |s.orders| && s.sched.entries[o].promise.Resolved? && s.sched.entries[o].promise.result.Some?
      ensures ToolResult(s.orders[o].call, s.sched.entries[o].promise.result.value) in s.log
    {
      assert Commits.PromiseOk(s.sched.entries[o], o < s.sched.nextCommit, s.sched.failed, true);
    }
  }

  lemma AwaitsKeepInv(s: State, call: CallId, lane: Lane)
    requires Inv(s) && Has(s, call, lane)
    ensures Enabled(s, DoAfterPersisted(call, lane)) ==> Inv(AfterPersisted(s, call, lane))
    ensures Enabled(s, DoAfterRead(call, lane)) ==> Inv(AfterRead(s, call, lane))
    ensures Enabled(s, DoAfterResult(call, lane)) ==> Inv(AfterResult(s, call, lane))
  {
    hide Inv, Results, FirstResult;
    RecordIsOk(s, call, lane);
    DropKeepsInv(s, call, lane);
    NoneMeansZero(s.log, call);
    FirstResultInLog(s.log, call);
    ResolvedIsDurable(s);
    var r := Records(s, lane)[call];
    if Enabled(s, DoAfterPersisted(call, lane)) && s.orders[r.order].persist == Persisted {
      PutKeepsInv(s, call, r.(lane := lane, phase := AwaitRead));
    }
    if Enabled(s, DoAfterRead(call, lane)) {
      PutKeepsInv(s, call, r.(lane := lane, phase := HaveRead(FirstResult(s.log, call))));
    }
    if Enabled(s, DoAfterResult(call, lane)) {
      var promise := s.sched.entries[r.order].promise;
      if promise.Resolved? && promise.result.Some? {
        PutKeepsInv(s, call, r.(lane := lane, phase := Done(promise.result.value)));
      }
    }
  }

  /** Orders that are committed, or whose commit is in flight, have an outcome. */
  lemma CommittedHaveOutcomes(s: State)
    requires Inv(s)
    ensures forall o | 0 <= o < |s.orders| ::
      o < s.sched.nextCommit || (o == s.sched.nextCommit && s.sched.committing) ==> s.orders[o].kind != NoOutcome
  {
    hide Results, Slots.Slots;
  }

  lemma CommittedReady(s: State)
    requires Inv(s)
    ensures forall o | 0 <= o < |s.orders| ::
      o < s.sched.nextCommit || (o == s.sched.nextCommit && s.sched.committing) ==> s.sched.entries[o].ready
  {
    hide Results, Slots.Slots;
  }

  /** The order gets its outcome; if that stores a result, the log holds none for the call. */
  lemma KindKeepsInv(s: State, order: nat, k: Kind, sched: S.State<Terminal>)
    requires Inv(s) && order < |s.orders| && k != NoOutcome
    requires s.orders[order].persist == Persisted && s.orders[order].kind == NoOutcome
    requires k == Store ==> Results(s.log, s.orders[order].call) == 0
    requires Commits.Good(sched) && SchedFrame(s.sched, sched, order)
    requires k == Noop ==>
      && sched.entries[order].ready && sched.entries[order].value.Some?
      && ToolResult(s.orders[order].call, sched.entries[order].value.value) in s.log
    ensures Inv(SetKind(s, order, k, sched))
  {
    hide Commits.Good, RecordsOk, Results;
    var t := SetKind(s, order, k, sched);
    CommittedHaveOutcomes(s);
    CommittedReady(s);
    RecordsKeep(s.executions, s.orders, t.orders, s.log);
    RecordsKeep(s.completions, s.orders, t.orders, s.log);
  }

  lemma DispatchKeepsInv(s: State, call: CallId, lane: Lane)
    requires Inv(s) && Enabled(s, DoDispatch(call, lane))
    ensures Inv(Dispatch(s, call, lane))
  {
    hide Commits.Good, StoredOk, RecordsOk, Results, SchedFrame, S.Execute, S.Complete;
    RecordIsOk(s, call, lane);
    DropKeepsInv(s, call, lane);
    var r := Records(s, lane)[call];
    var durable := r.phase.durable;
    if S.Accepts(s.sched, r.order) && !(lane.Completion? && durable.Some? && durable.value != lane.supplied) {
      var k := if durable.Some? then Noop else Store;
      var sched :=
        if lane.Completion? then S.Complete(s.sched, r.order, lane.supplied)
        else if durable.Some? then S.Complete(s.sched, r.order, durable.value)
        else S.Execute(s.sched, r.order);
      OutcomeKeepsGood(s.sched, r.order, lane, durable);
      KindKeepsInv(s, r.order, k, sched);
      var t := SetKind(s, r.order, k, sched);
      RecordIsOk(t, call, lane);
      PutKeepsInv(t, call, r.(lane := lane, phase := AwaitResult));
    }
  }

  lemma OutcomeKeepsGood(s: S.State<Terminal>, order: nat, lane: Lane, durable: Option<Terminal>)
    requires Commits.Good(s) && S.Accepts(s, order)
    ensures
      var t := if lane.Completion? then S.Complete(s, order, lane.supplied)
               else if durable.Some? then S.Complete(s, order, durable.value)
               else S.Execute(s, order);
      && Commits.Good(t) && SchedFrame(s, t, order)
      && (lane.Completion? ==> t.entries[order].ready && t.entries[order].value == Some(lane.supplied))
      && (lane.Execution? && durable.Some? ==> t.entries[order].ready && t.entries[order].value == durable)
  {
    hide Commits.Good, SchedFrame, S.Execute, S.Complete;
    if lane.Completion? {
      Commits.CompleteKeepsGood(s, order, lane.supplied);
      CompleteFrame(s, order, lane.supplied);
    } else if durable.Some? {
      Commits.CompleteKeepsGood(s, order, durable.value);
      CompleteFrame(s, order, durable.value);
    } else {
      Commits.ExecuteKeepsGood(s, order);
      ExecuteFrame(s, order);
    }
  }

  /** A scheduler step that neither commits nor gives outcomes. */
  lemma SchedKeepsInv(s: State, sched: S.State<Terminal>)
    requires Inv(s) && Commits.Good(sched) && SchedFrame(s.sched, sched, -1)
    ensures Inv(s.(sched := sched))
  {
    hide Commits.Good, StoredOk, RecordsOk, Results;
    CommittedReady(s);
    assert Storing(s) ==> Storing(s.(sched := sched));
  }

  lemma StoreLandsKeepsInv(s: State)
    requires Inv(s) && Enabled(s, DoStoreLands)
    ensures Inv(StoreLands(s))
  {
    hide Commits.Good, Results;
    var n := s.sched.nextCommit;
    var call := s.orders[n].call;
    var e := ToolResult(call, s.sched.entries[n].value.value);
    var log := s.log + [e];
    forall c ensures Results(log, c) == Results(s.log, c) + if c == call then 1 else 0 {
      ResultsSnoc(s.log, e, c);
    }
    assert Results(s.log, call) == 0;
    forall o | 0 <= o < |s.orders| && s.orders[o].kind == Store && s.orders[o].call == call ensures o == n {
      assert s.recorded[call] == o && s.recorded[call] == n;
    }
    forall c | c in s.executions ensures RecordOk(s.executions[c], c, s.orders, log) {
      assert RecordOk(s.executions[c], c, s.orders, s.log);
    }
    forall c | c in s.completions ensures RecordOk(s.completions[c], c, s.orders, log) {
      assert RecordOk(s.completions[c], c, s.orders, s.log);
    }
  }

  lemma CommitFinishedKeepsInv(s: State)
    requires Inv(s) && Enabled(s, DoCommitFinished)
    ensures Inv(Apply(s, DoCommitFinished))
  {
    hide Commits.Good, RecordsOk, Results, S.CommitFinished;
    Commits.StepKeepsGood(s.sched, S.DoCommitFinished);
    CommitFrame(s.sched);
  }

  lemma CommitFailedKeepsInv(s: State, error: S.Thrown)
    requires Inv(s) && Enabled(s, DoCommitFailed(error)) && error != S.Undefined
    ensures Inv(Apply(s, DoCommitFailed(error)))
  {
    hide Commits.Good, RecordsOk, Results;
    Commits.StepKeepsGood(s.sched, S.DoCommitFailed(error));
  }

  lemma BootInv(log: seq<Event>, cap: nat)
    requires 1 <= cap && forall c :: Results(log, c) <= 1
    ensures Inv(Boot(log, cap))
  {
    hide Results, Slots.Holders;
    Commits.InitGood<Terminal>(cap);
  }

  lemma StepKeepsInv(s: State, a: Action)
    requires Inv(s) && Enabled(s, a) && Clean(a)
    ensures Inv(Apply(s, a))
  {
    hide Inv, Results, FirstCall, Register, Begin, Dispatch, AfterRead, AfterPersisted, AfterResult, StoreLands, S.Apply;
    match a
    case RecordCall(call, identity, c) => RegisterKeepsInv(s, call, identity, c, false);
    case Start(call, identity, c, lane) => BeginKeepsInv(s, call, identity, c, lane);
    case DoPersistRead(o) =>
      PersistKeepsInv(s, o, Appending);
      PersistKeepsInv(s, o, Persisted);
    case DoPersistAppended(o) => PersistAppendedKeepsInv(s, o);
    case DoPersistFailed(o) => PersistKeepsInv(s, o, PersistFailed);
    case DoAfterPersisted(call, lane) => AwaitsKeepInv(s, call, lane);
    case DoAfterRead(call, lane) => AwaitsKeepInv(s, call, lane);
    case DoReadFailed(call, lane) => DropKeepsInv(s, call, lane);
    case DoDispatch(call, lane) => DispatchKeepsInv(s, call, lane);
    case DoAfterResult(call, lane) => AwaitsKeepInv(s, call, lane);
    case DoBody(step) => BodyStepKeepsInv(s, step);
    case DoStoreLands => StoreLandsKeepsInv(s);
    case DoCommitFinished => CommitFinishedKeepsInv(s);
    case DoCommitFailed(error) => CommitFailedKeepsInv(s, error);
    case Restart(cap) =>
      AtMostOne(s);
      BootInv(s.log, cap);
  }

  lemma BodyStepKeepsInv(s: State, step: S.Action<Terminal>)
    requires Inv(s) && Enabled(s, DoBody(step)) && Clean(DoBody(step))
    ensures Inv(s.(sched := S.Apply(s.sched, step)))
  {
    hide Commits.Good, OrdersOk, StoredOk, DurableOk, RecordsOk, SchedFrame, S.Apply;
    Commits.StepKeepsGood(s.sched, step);
    BodyStepFrame(s.sched, step);
    SchedKeepsInv(s, S.Apply(s.sched, step));
  }

  lemma AtMostOne(s: State)
    requires Inv(s)
    ensures forall c :: Results(s.log, c) <= 1
  {
    hide Results, Commits.Good, OrdersOk, RecordsOk;
  }

  lemma {:induction false} RunKeepsInv(s: State, acts: seq<Action>)
    requires Inv(s) && ValidRun(s, acts) && forall a :: a in acts ==> Clean(a)
    ensures Inv(Run(s, acts))
    decreases |acts|
  {
    hide Inv, Apply, Enabled;
    if acts != [] {
      StepKeepsInv(s, acts[0]);
      RunKeepsInv(Apply(s, acts[0]), acts[1..]);
    }
  }

  // ----- the theorems -----

  /**
   Over every run, whatever the interleaving of `recordCall`, `execute` and `complete` and
   however often the process restarts: the log holds at most one result per call, and any
   caller that got a result got the durable one.
   */
  lemma OneResultAcrossRestarts(cap: nat, acts: seq<Action>)
    requires 1 <= cap && ValidRun(Boot([], cap), acts) && forall a :: a in acts ==> Clean(a)
    ensures var t := Run(Boot([], cap), acts);
      && (forall c :: Results(t.log, c) <= 1)
      && (forall c :: c in t.executions && t.executions[c].phase.Done? ==>
            ToolResult(c, t.executions[c].phase.result) in t.log)
      && (forall c :: c in t.completions && t.completions[c].phase.Done? ==>
            ToolResult(c, t.completions[c].phase.result) in t.log)
      && t.executions.Keys !! t.completions.Keys
  {
    BootInv([], cap);
    RunKeepsInv(Boot([], cap), acts);
    var t := Run(Boot([], cap), acts);
    hide Results, Commits.Good, OrdersOk, DurableOk, Run, ValidRun;
    forall c | c in t.executions ensures RecordOk(t.executions[c], c, t.orders, t.log) {}
    forall c | c in t.completions ensures RecordOk(t.completions[c], c, t.orders, t.log) {}
  }

  /** Two results of one call never both sit in a log with at most one result per call. */
  lemma {:induction false} SameResultForEveryCaller(log: seq<Event>, c: CallId, v: Terminal, w: Terminal)
    requires Results(log, c) <= 1 && ToolResult(c, v) in log && ToolResult(c, w) in log
    ensures v == w
  {
    var n := |log| - 1;
    if log[n].ToolResult? && log[n].call == c {
      NoResultMeansNone(log[..n], c);
    } else {
      SameResultForEveryCaller(log[..n], c, v, w);
    }
  }

  lemma {:induction false} NoResultMeansNone(log: seq<Event>, c: CallId)
    requires Results(log, c) == 0
    ensures forall e :: e in log && e.ToolResult? ==> e.call != c
  {
    if log != [] { NoResultMeansNone(log[..|log| - 1], c); }
  }

  /** The bodies started so far belong to different calls. */
  ghost predicate OneBodyEach(s: State) {
    var starts := Slots.Starts(s.sched.trace);
    forall k, l | 0 <= k < l < |starts| ::
      starts[k] < |s.orders| && starts[l] < |s.orders| && s.orders[starts[k]].call != s.orders[starts[l]].call
  }

  /** In one process the body of a call starts at most once. */
  lemma OneBodyPerCall(cap: nat, acts: seq<Action>)
    requires 1 <= cap && ValidRun(Boot([], cap), acts) && forall a :: a in acts ==> Clean(a)
    ensures OneBodyEach(Run(Boot([], cap), acts))
  {
    hide Inv, Run, ValidRun, OneBodyEach;
    BootInv([], cap);
    RunKeepsInv(Boot([], cap), acts);
    StartedCallsDiffer(Run(Boot([], cap), acts));
  }

  lemma StartedCallsDiffer(s: State)
    requires Inv(s)
    ensures OneBodyEach(s)
  {
    hide Results, Commits.Commits, Slots.Holders, Slots.Barrier, Slots.StartOrder, RecordsOk, StoredOk, DurableOk, Slots.Starts;
    var starts := Slots.Starts(s.sched.trace);
    forall k | 0 <= k < |starts|
      ensures starts[k] < |s.orders| && s.orders[starts[k]].call in s.recorded &&
              s.recorded[s.orders[starts[k]].call] == starts[k]
    {
      assert starts[k] in starts;
      StartedHasOutcome(s.sched.entries[starts[k]]);
    }
  }

  lemma StartedHasOutcome(e: S.Entry<Terminal>)
    requires Slots.EntryOk(e) && e.started
    ensures S.HasOutcome(e)
  {
  }

  /** The step that starts a body sees no durable result of its call. */
  lemma NoBodyAfterDurableResult(s: State, a: Action, t: State, o: nat)
    requires Inv(s) && Enabled(s, a) && Clean(a) && !a.Restart? && t == Apply(s, a)
    requires o < |s.sched.entries| && !s.sched.entries[o].started
    requires o < |t.sched.entries| && t.sched.entries[o].started
    ensures o < |t.orders| && Results(t.log, t.orders[o].call) == 0 && t.orders[o].kind == Store
  {
    hide Results, Apply, Enabled, Inv;
    StepKeepsInv(s, a);
    SameSize(s);
    StepFresh(s, a, o);
    RunningHasNoResult(t, o);
  }

  lemma SameSize(s: State)
    requires Inv(s)
    ensures |s.orders| == |s.sched.entries|
  {
    hide Results, Commits.Good, RecordsOk, StoredOk, DurableOk;
  }

  lemma RunningHasNoResult(s: State, o: nat)
    requires Inv(s) && o < |s.sched.entries| && s.sched.entries[o].body == S.Running
    ensures o < |s.orders| && Results(s.log, s.orders[o].call) == 0 && s.orders[o].kind == Store
  {
    hide Results, RecordsOk, DurableOk, Slots.Starts, Slots.Holders, Slots.StartOrder, Slots.Barrier,
         Commits.Calls, Commits.Dones, Commits.Commits;
    assert Slots.EntryOk(s.sched.entries[o]);
    StartedHasOutcome(s.sched.entries[o]);
    CommittedReady(s);
  }

  /** What a step of the executor does to entry `o` of the scheduler and to order `o`. */
  ghost predicate EntryFrame(s: State, t: State, o: nat) {
    && o < |s.orders| && o < |t.orders| && t.orders[o].call == s.orders[o].call
    && (s.orders[o].persist == PersistFailed ==> t.orders[o].persist == PersistFailed)
    && o < |s.sched.entries| && o < |t.sched.entries|
    && (!s.sched.entries[o].started && t.sched.entries[o].started ==> t.sched.entries[o].body == S.Running)
  }

  lemma DispatchFresh(s: State, call: CallId, lane: Lane, o: nat)
    requires Enabled(s, DoDispatch(call, lane)) && |s.orders| == |s.sched.entries| && o < |s.orders|
    ensures EntryFrame(s, Dispatch(s, call, lane), o)
  {
    hide S.Execute, S.Complete, S.Apply, S.Pump;
    var order := Records(s, lane)[call].order;
    var durable := Records(s, lane)[call].phase.durable;
    if S.Accepts(s.sched, order) {
      match lane
      case Execution =>
        if durable.Some? {
          SchedFresh(s.sched, S.DoComplete(order, durable.value), o);
        } else {
          SchedFresh(s.sched, S.DoExecute(order), o);
        }
      case Completion(result) => SchedFresh(s.sched, S.DoComplete(order, result), o);
    }
  }

  lemma SchedFresh(s: S.State<Terminal>, a: S.Action<Terminal>, o: nat)
    requires S.Enabled(s, a) && o < |s.entries|
    ensures var t := S.Apply(s, a);
      o < |t.entries| && (!s.entries[o].started && t.entries[o].started ==> t.entries[o].body == S.Running)
    ensures a.DoExecute? ==> S.Apply(s, a) == S.Execute(s, a.order)
    ensures a.DoComplete? ==> S.Apply(s, a) == S.Complete(s, a.order, a.value)
    ensures a.DoCommitFinished? ==> S.Apply(s, a) == S.CommitFinished(s)
    ensures a.DoCommitFailed? ==> S.Apply(s, a) == S.CommitFailed(s, a.error)
  {
    SchedSize(s, a);
    Slots.FreshStartHolds(s, a, o);
  }

  lemma SchedSize(s: S.State<Terminal>, a: S.Action<Terminal>)
    requires S.Enabled(s, a)
    ensures |S.Apply(s, a).entries| >= |s.entries|
  {
    hide S.Pump;
    match a
    case DoExecute(order) => if S.Accepts(s, order) && 0 < |s.entries| { Slots.PumpFresh(S.SetRun(s, order), 0); }
    case DoComplete(order, v) =>
      if S.Accepts(s, order) { Slots.PumpFresh(S.CommitReady(S.SetValue(s, order, v)), 0); }
    case DoSlotSettled(i) => Slots.PumpFresh(S.ReleaseSlot(s, i), 0);
    case _ =>
  }

  lemma RegisterFresh(s: State, call: CallId, identity: string, c: S.Concurrency, rehydrate: bool, o: nat)
    requires |s.orders| == |s.sched.entries| && o < |s.orders|
    ensures EntryFrame(s, Register(s, call, identity, c, rehydrate).1, o)
  {
  }

  lemma RecordsFresh(s: State, call: CallId, lane: Lane, o: nat)
    requires |s.orders| == |s.sched.entries| && o < |s.orders| && Has(s, call, lane)
    ensures Enabled(s, DoAfterPersisted(call, lane)) ==> EntryFrame(s, AfterPersisted(s, call, lane), o)
    ensures EntryFrame(s, AfterRead(s, call, lane), o)
    ensures EntryFrame(s, DropRecord(s, call, lane), o)
    ensures Enabled(s, DoAfterResult(call, lane)) ==> EntryFrame(s, AfterResult(s, call, lane), o)
  {
    hide Results, FirstResult;
  }

  lemma PersistFresh(s: State, order: nat, o: nat)
    requires |s.orders| == |s.sched.entries| && o < |s.orders| && order < |s.orders|
    requires s.orders[order].persist in {Reading, Appending}
    ensures EntryFrame(s, PersistRead(s, order), o)
    ensures EntryFrame(s, PersistAppended(s, order), o)
    ensures EntryFrame(s, FailPersist(s, order), o)
  {
    hide FirstCall;
  }

  lemma StepFresh(s: State, a: Action, o: nat)
    requires |s.orders| == |s.sched.entries| && Enabled(s, a) && !a.Restart? && o < |s.orders|
    ensures EntryFrame(s, Apply(s, a), o)
  {
    hide Results, FirstResult, FirstCall, Dispatch, Register, AfterPersisted, AfterRead, AfterResult, DropRecord,
         PersistRead, PersistAppended, FailPersist, S.Apply, S.CommitFinished, S.CommitFailed;
    match a
    case RecordCall(call, identity, c) => RegisterFresh(s, call, identity, c, false, o);
    case Start(call, identity, c, lane) => RegisterFresh(s, call, identity, c, true, o);
    case DoPersistRead(order) => PersistFresh(s, order, o);
    case DoPersistAppended(order) => PersistFresh(s, order, o);
    case DoPersistFailed(order) => PersistFresh(s, order, o);
    case DoAfterPersisted(call, lane) => RecordsFresh(s, call, lane, o);
    case DoAfterRead(call, lane) => RecordsFresh(s, call, lane, o);
    case DoReadFailed(call, lane) => RecordsFresh(s, call, lane, o);
    case DoDispatch(call, lane) => DispatchFresh(s, call, lane, o);
    case DoAfterResult(call, lane) => RecordsFresh(s, call, lane, o);
    case DoBody(step) => SchedFresh(s.sched, step, o);
    case DoStoreLands =>
    case DoCommitFinished => SchedFresh(s.sched, S.DoCommitFinished, o);
    case DoCommitFailed(error) => SchedFresh(s.sched, S.DoCommitFailed(error), o);
  }

  /**
   A registration that could not be made durable leaves its order without an outcome for the
   rest of the process: nothing at or after it commits, and no later body ever starts.
   */
  lemma {:induction false} FailedRegistrationBlocks(s: State, acts: seq<Action>, o: nat)
    requires Inv(s) && o < |s.orders| && s.orders[o].persist == PersistFailed
    requires ValidRun(s, acts) && forall a :: a in acts ==> Clean(a) && !a.Restart?
    ensures var t := Run(s, acts);
      t.sched.nextCommit <= o && forall i :: i in Slots.Starts(t.sched.trace) ==> i < o
    decreases |acts|
  {
    hide Inv, Apply, Enabled, Slots.Starts;
    if acts == [] {
      FailedHasNoOutcome(s, o);
      OpenOrderBlocks(s, o);
    } else {
      StepKeepsInv(s, acts[0]);
      SameSize(s);
      StepFresh(s, acts[0], o);
      FailedRegistrationBlocks(Apply(s, acts[0]), acts[1..], o);
    }
  }

  lemma FailedHasNoOutcome(s: State, o: nat)
    requires Inv(s) && o < |s.orders| && s.orders[o].persist == PersistFailed
    ensures s.orders[o].kind == NoOutcome
  {
    hide Commits.Good, Results, RecordsOk, StoredOk, DurableOk;
  }

  lemma StartOrderUpTo(es: seq<S.Entry<Terminal>>, o: nat)
    requires Slots.StartOrder(es) && o < |es| && S.IsPending(es[o])
    ensures forall i :: o <= i < |es| ==> !es[i].started
  {
  }

  // ----- orders without an outcome -----

  lemma OpenOrderBlocks(s: State, o: nat)
    requires Inv(s) && o < |s.orders| && s.orders[o].kind == NoOutcome
    ensures s.sched.nextCommit <= o && forall i :: i in Slots.Starts(s.sched.trace) ==> i < o
  {
    hide Results, RecordsOk, StoredOk, DurableOk, Slots.Starts, Slots.Holders, Slots.Barrier, Commits.Calls, Commits.Dones;
    CommittedHaveOutcomes(s);
    var es := s.sched.entries;
    assert Slots.EntryOk(es[o]) && S.IsPending(es[o]);
    forall i | i in Slots.Starts(s.sched.trace) ensures i < o {
      assert es[i].started;
      assert i <= o by { StartOrderUpTo(es, o); }
    }
  }

  ghost predicate SameKind(s: State, t: State, o: nat) {
    o < |s.orders| && o < |t.orders| && t.orders[o].kind == s.orders[o].kind && t.orders[o].call == s.orders[o].call
  }

  lemma RegisterKind(s: State, call: CallId, identity: string, c: S.Concurrency, rehydrate: bool, o: nat)
    requires o < |s.orders|
    ensures SameKind(s, Register(s, call, identity, c, rehydrate).1, o)
  {
  }

  lemma DispatchKind(s: State, call: CallId, lane: Lane, o: nat)
    requires Enabled(s, DoDispatch(call, lane)) && o < |s.orders| && s.orders[o].call != call
    requires s.orders[Records(s, lane)[call].order].call == call
    ensures SameKind(s, Dispatch(s, call, lane), o)
  {
    hide S.Execute, S.Complete;
  }

  lemma PersistKind(s: State, order: nat, o: nat)
    requires o < |s.orders| && order < |s.orders|
    ensures SameKind(s, PersistRead(s, order), o)
    ensures SameKind(s, PersistAppended(s, order), o) && SameKind(s, FailPersist(s, order), o)
  {
    hide FirstCall;
  }

  lemma RecordsKind(s: State, call: CallId, lane: Lane, o: nat)
    requires o < |s.orders| && Has(s, call, lane)
    ensures Enabled(s, DoAfterPersisted(call, lane)) ==> SameKind(s, AfterPersisted(s, call, lane), o)
    ensures SameKind(s, AfterRead(s, call, lane), o) && SameKind(s, DropRecord(s, call, lane), o)
    ensures Enabled(s, DoAfterResult(call, lane)) ==> SameKind(s, AfterResult(s, call, lane), o)
  {
    hide Results, FirstResult;
  }

  /** Only a dispatch of its call gives an order its outcome. */
  lemma KindFrame(s: State, a: Action, o: nat)
    requires Inv(s) && Enabled(s, a) && !a.Restart? && o < |s.orders|
    requires a.DoDispatch? ==> a.call != s.orders[o].call
    ensures SameKind(s, Apply(s, a), o)
  {
    hide Inv, Results, FirstResult, FirstCall, Dispatch, Register, AfterPersisted, AfterRead, AfterResult, DropRecord,
         PersistRead, PersistAppended, FailPersist, S.Apply, S.CommitFinished, S.CommitFailed;
    match a
    case RecordCall(call, identity, c) => RegisterKind(s, call, identity, c, false, o);
    case Start(call, identity, c, _) => RegisterKind(s, call, identity, c, true, o);
    case DoPersistRead(order) => PersistKind(s, order, o);
    case DoPersistAppended(order) => PersistKind(s, order, o);
    case DoPersistFailed(order) => PersistKind(s, order, o);
    case DoAfterPersisted(call, lane) => RecordsKind(s, call, lane, o);
    case DoAfterRead(call, lane) => RecordsKind(s, call, lane, o);
    case DoReadFailed(call, lane) => RecordsKind(s, call, lane, o);
    case DoAfterResult(call, lane) => RecordsKind(s, call, lane, o);
    case DoDispatch(call, lane) =>
      RecordIsOk(s, call, lane);
      DispatchKind(s, call, lane, o);
    case _ =>
  }

  /**
   An order without an outcome keeps every later order from starting and committing until an
   operation on its call dispatches: whether the operation rejected because the durable result
   differs, because a read failed, or has simply not come that far.
   */
  lemma {:induction false} AbandonedUntilDispatched(s: State, acts: seq<Action>, o: nat)
    requires Inv(s) && o < |s.orders| && s.orders[o].kind == NoOutcome
    requires ValidRun(s, acts) && forall a :: a in acts ==> Clean(a) && !a.Restart?
    requires forall a :: a in acts && a.DoDispatch? ==> a.call != s.orders[o].call
    ensures var t := Run(s, acts);
      && o < |t.orders| && t.orders[o].kind == NoOutcome
      && t.sched.nextCommit <= o && forall i :: i in Slots.Starts(t.sched.trace) ==> i < o
    decreases |acts|
  {
    hide Inv, Apply, Enabled, Slots.Starts;
    if acts == [] {
      OpenOrderBlocks(s, o);
    } else {
      assert acts[0] in acts;
      StepKeepsInv(s, acts[0]);
      KindFrame(s, acts[0], o);
      AbandonedUntilDispatched(Apply(s, acts[0]), acts[1..], o);
    }
  }

  /** `complete` with another result than the durable one rejects and leaves its order as it was. */
  lemma MismatchAbandons(s: State, call: CallId, result: Terminal)
    requires Inv(s) && Enabled(s, DoDispatch(call, Completion(result)))
    requires s.completions[call].phase.durable.Some? && s.completions[call].phase.durable.value != result
    requires s.orders[s.completions[call].order].kind == NoOutcome
    ensures var o := s.completions[call].order;
      var t := Apply(s, DoDispatch(call, Completion(result)));
      && t.orders == s.orders && t.sched == s.sched && t.recorded == s.recorded && t.log == s.log
      && call !in t.executions && call !in t.completions
      && call in t.recorded && t.recorded[call] == o && t.orders[o].persist == Persisted
  {
    hide Commits.Good, Results, StoredOk, DurableOk, S.Complete, S.Execute;
    RecordIsOk(s, call, Completion(result));
  }

  lemma FirstStep(s: State, a: Action, rest: seq<Action>)
    requires Enabled(s, a) && ValidRun(Apply(s, a), rest)
    ensures ValidRun(s, [a] + rest) && Run(s, [a] + rest) == Run(Apply(s, a), rest)
  {
    hide Enabled, Apply;
    assert ([a] + rest)[1..] == rest;
  }

  /**
   Unlike a failed registration, a mismatch can be mended: an `execute` of the same call takes the
   order up again and commits the durable result.
   */
  lemma ExecuteMends(s: State, call: CallId, c: S.Concurrency) returns (acts: seq<Action>)
    requires Inv(s) && call in s.recorded && call !in s.executions && call !in s.completions
    requires s.orders[s.recorded[call]].persist == Persisted && s.orders[s.recorded[call]].kind == NoOutcome
    requires Results(s.log, call) == 1
    ensures ValidRun(s, acts)
    ensures s.recorded[call] < |Run(s, acts).orders| && Run(s, acts).orders[s.recorded[call]].kind == Noop
  {
    hide Inv, Results, S.Complete, S.Execute, S.Apply;
    var o := s.recorded[call];
    RecordedInRange(s, call);
    var identity := s.orders[o].identity;
    var a0, a1 := Start(call, identity, c, Execution), DoAfterPersisted(call, Execution);
    var a2, a3 := DoAfterRead(call, Execution), DoDispatch(call, Execution);
    var s1 := Apply(s, a0);
    assert s1 == PutRecord(s, call, Record(identity, Execution, o, AwaitPersisted));
    var s2 := Apply(s1, a1);
    var s3 := Apply(s2, a2);
    FirstResultFound(s.log, call);
    assert Enabled(s3, a3);
    var s4 := Apply(s3, a3);
    assert S.Accepts(s3.sched, o);
    assert ValidRun(s4, []);
    FirstStep(s3, a3, []);
    FirstStep(s2, a2, [a3] + []);
    FirstStep(s1, a1, [a2] + ([a3] + []));
    FirstStep(s, a0, [a1] + ([a2] + ([a3] + [])));
    acts := [a0] + ([a1] + ([a2] + ([a3] + [])));
  }

  lemma RecordedInRange(s: State, call: CallId)
    requires Inv(s) && call in s.recorded
    ensures s.recorded[call] < |s.orders| == |s.sched.entries|
    ensures s.orders[s.recorded[call]].kind == NoOutcome <==> !S.HasOutcome(s.sched.entries[s.recorded[call]])
  {
    hide Commits.Good, StoredOk, DurableOk, RecordsOk;
  }

  lemma FirstResultFound(log: seq<Event>, call: CallId)
    requires Results(log, call) == 1
    ensures FirstResult(log, call).Some?
  {
    hide Results, FirstResult;
    NoneMeansZero(log, call);
  }

  // ----- draining -----

  /**
   With no promise of the scheduler outstanding and no failure, the calls before the first order
   without an outcome are settled, each with its durable result, and nothing behind it has started;
   all calls are settled exactly when every registered order was given an outcome.
   */
  lemma ExecutorDrains(s: State)
    requires Inv(s) && s.sched.failed == S.Undefined && Drain.AtRest(s.sched)
    ensures forall o :: 0 <= o < s.sched.nextCommit ==>
      && o < |s.orders| && o < |s.sched.entries|
      && s.sched.entries[o].promise == S.Resolved(s.sched.entries[o].value) && s.sched.entries[o].value.Some?
      && ToolResult(s.orders[o].call, s.sched.entries[o].value.value) in s.log
    ensures forall i :: s.sched.nextCommit < i < |s.sched.entries| ==> !s.sched.entries[i].started
    ensures s.sched.nextCommit == |s.orders| <==> forall o :: 0 <= o < |s.orders| ==> s.orders[o].kind != NoOutcome
  {
    hide Commits.Good, Results, RecordsOk;
    Drain.RestIsDrained(s.sched);
    CommittedHaveOutcomes(s);
    NextInOrders(s);
  }

  lemma NextInOrders(s: State)
    requires Inv(s)
    ensures s.sched.nextCommit <= |s.orders| == |s.sched.entries|
  {
    hide Results, StoredOk, DurableOk, RecordsOk, Slots.Slots;
  }
}

/** Events traced back. */
module ExecutorOrigins {
  // Every event the executor stores is traced back to the request or the body that gave it, and a
  // result is stored only behind its own call. Holds on every run with restarts, whatever value a
  // promise rejects with.

  import opened Wrappers
  import S = SchedulerModel
  import Slots = SchedulerSlots
  import Origins = SchedulerOrigins
  import opened ExecutorModel

  /** What callers and bodies bring in: a call with its identity, and an answer to a call. */
  datatype Given =
    | Asked(call: CallId, identity: string, concurrency: S.Concurrency)
    | Answered(call: CallId, result: Terminal)

  /** What one action brings in: `complete` supplies its result, a body returns one for its order's call. */
  function Brings(s: State, a: Action): set<Given> {
    match a
    case RecordCall(call, identity, c) => {Asked(call, identity, c)}
    case Start(call, identity, c, Execution) => {Asked(call, identity, c)}
    case Start(call, identity, c, Completion(result)) => {Asked(call, identity, c), Answered(call, result)}
    case DoBody(DoBodyFinished(o, result)) => if o < |s.orders| then {Answered(s.orders[o].call, result)} else {}
    case _ => {}
  }

  function Sources(s: State, acts: seq<Action>): set<Given>
    requires ValidRun(s, acts)
    decreases |acts|
  {
    if acts == [] then {} else Brings(s, acts[0]) + Sources(Apply(s, acts[0]), acts[1..])
  }

  /** The event was in the log at first, or somebody brought in what it says. */
  ghost predicate Said(base: seq<Event>, given: set<Given>, e: Event) {
    || e in base
    || (e.ToolCall? && exists c :: Asked(e.call, e.identity, c) in given)
    || (e.ToolResult? && Answered(e.call, e.result) in given)
  }

  /** Behind the first `n` events every result comes after a call event of its call. */
  ghost predicate CallsFirst(log: seq<Event>, n: nat) {
    forall k | n <= k < |log| && log[k].ToolResult? :: CallBefore(log, k, log[k].call)
  }

  ghost predicate CallBefore(log: seq<Event>, k: nat, call: CallId)
    requires k <= |log|
  {
    exists j :: 0 <= j < k && log[j].ToolCall? && log[j].call == call
  }

  ghost predicate LogTraced(log: seq<Event>, base: seq<Event>, given: set<Given>) {
    base <= log && CallsFirst(log, |base|) && forall e :: e in log ==> Said(base, given, e)
  }

  ghost predicate OrderTraced(o: Order, e: S.Entry<Terminal>, log: seq<Event>, base: seq<Event>, given: set<Given>) {
    && Asked(o.call, o.identity, e.concurrency) in given
    && (e.value.Some? ==> Said(base, given, ToolResult(o.call, e.value.value)))
    && (o.persist == Persisted ==> ToolCall(o.call, o.identity) in log)
    && (o.kind != NoOutcome ==> o.persist == Persisted)
  }

  ghost predicate OrdersTraced(orders: seq<Order>, entries: seq<S.Entry<Terminal>>,
                               log: seq<Event>, base: seq<Event>, given: set<Given>)
  {
    |orders| == |entries| && forall o :: 0 <= o < |orders| ==> OrderTraced(orders[o], entries[o], log, base, given)
  }

  ghost predicate RecordTraced(r: Record, call: CallId, orders: seq<Order>, log: seq<Event>, given: set<Given>) {
    && r.order < |orders| && orders[r.order].call == call && orders[r.order].identity == r.identity
    && (r.phase != AwaitPersisted ==> orders[r.order].persist == Persisted)
    && (r.phase.HaveRead? && r.phase.durable.Some? ==> ToolResult(call, r.phase.durable.value) in log)
    && (r.lane.Completion? ==> Answered(call, r.lane.supplied) in given)
  }

  ghost predicate RecordsTraced(m: map<CallId, Record>, orders: seq<Order>, log: seq<Event>, given: set<Given>) {
    forall c :: c in m ==> RecordTraced(m[c], c, orders, log, given)
  }

  /** A call is registered under the one order of it whose persistence has not failed. */
  ghost predicate RecordedTraced(recorded: map<CallId, nat>, orders: seq<Order>) {
    && (forall c :: c in recorded ==> recorded[c] < |orders| && orders[recorded[c]].call == c)
    && (forall o :: 0 <= o < |orders| ==>
          (orders[o].persist != PersistFailed <==> orders[o].call in recorded && recorded[orders[o].call] == o))
  }

  ghost predicate SchedOk(sched: S.State<Terminal>) {
    Slots.SlotInv(sched) && Origins.CommitOk(sched)
  }

  ghost predicate Traced(s: State, base: seq<Event>, given: set<Given>) {
    && SchedOk(s.sched)
    && LogTraced(s.log, base, given)
    && OrdersTraced(s.orders, s.sched.entries, s.log, base, given)
    && RecordedTraced(s.recorded, s.orders)
    && RecordsTraced(s.executions, s.orders, s.log, given)
    && RecordsTraced(s.completions, s.orders, s.log, given)
  }

  // ----- each step keeps the trace -----

  lemma GivenGrows(s: State, base: seq<Event>, given: set<Given>, more: set<Given>)
    requires Traced(s, base, given) && given <= more
    ensures Traced(s, base, more)
  {
    hide SchedOk;
    forall e | e in s.log ensures Said(base, more, e) { assert Said(base, given, e); }
    forall o | 0 <= o < |s.orders| ensures OrderTraced(s.orders[o], s.sched.entries[o], s.log, base, more) {
      assert OrderTraced(s.orders[o], s.sched.entries[o], s.log, base, given);
    }
    forall c | c in s.executions ensures RecordTraced(s.executions[c], c, s.orders, s.log, more) {
      assert RecordTraced(s.executions[c], c, s.orders, s.log, given);
    }
    forall c | c in s.completions ensures RecordTraced(s.completions[c], c, s.orders, s.log, more) {
      assert RecordTraced(s.completions[c], c, s.orders, s.log, given);
    }
  }

  lemma LogGrows(s: State, e: Event, base: seq<Event>, given: set<Given>)
    requires Traced(s, base, given) && Said(base, given, e)
    requires e.ToolResult? ==> exists j :: 0 <= j < |s.log| && s.log[j].ToolCall? && s.log[j].call == e.call
    ensures Traced(s.(log := s.log + [e]), base, given)
  {
    hide SchedOk, Said;
    var log := s.log + [e];
    forall k | |base| <= k < |log| && log[k].ToolResult? ensures CallBefore(log, k, log[k].call) {
      if k < |s.log| {
        assert CallBefore(s.log, k, s.log[k].call);
        var j :| 0 <= j < k && s.log[j].ToolCall? && s.log[j].call == s.log[k].call;
        assert log[j] == s.log[j];
      } else {
        var j :| 0 <= j < |s.log| && s.log[j].ToolCall? && s.log[j].call == e.call;
        assert log[j] == s.log[j];
      }
    }
    forall o | 0 <= o < |s.orders| ensures OrderTraced(s.orders[o], s.sched.entries[o], log, base, given) {
      assert OrderTraced(s.orders[o], s.sched.entries[o], s.log, base, given);
    }
    forall c | c in s.executions ensures RecordTraced(s.executions[c], c, s.orders, log, given) {
      assert RecordTraced(s.executions[c], c, s.orders, s.log, given);
    }
    forall c | c in s.completions ensures RecordTraced(s.completions[c], c, s.orders, log, given) {
      assert RecordTraced(s.completions[c], c, s.orders, s.log, given);
    }
  }

  /** Records look at the call, the identity and the persistence of their order. */
  ghost predicate Extends(orders: seq<Order>, later: seq<Order>) {
    && |orders| <= |later|
    && forall o :: 0 <= o < |orders| ==>
         && later[o].call == orders[o].call && later[o].identity == orders[o].identity
         && (orders[o].persist == Persisted ==> later[o].persist == Persisted)
  }

  lemma OrdersChange(s: State, t: State, base: seq<Event>, given: set<Given>)
    requires Traced(s, base, given) && Extends(s.orders, t.orders)
    requires t == s.(sched := t.sched, orders := t.orders, recorded := t.recorded)
    requires SchedOk(t.sched) && OrdersTraced(t.orders, t.sched.entries, t.log, base, given)
    requires RecordedTraced(t.recorded, t.orders)
    ensures Traced(t, base, given)
  {
    hide SchedOk, LogTraced, OrdersTraced;
    forall c | c in s.executions ensures RecordTraced(s.executions[c], c, t.orders, s.log, given) {
      assert RecordTraced(s.executions[c], c, s.orders, s.log, given);
    }
    forall c | c in s.completions ensures RecordTraced(s.completions[c], c, t.orders, s.log, given) {
      assert RecordTraced(s.completions[c], c, s.orders, s.log, given);
    }
  }

  lemma SchedStepOk(s: S.State<Terminal>, a: S.Action<Terminal>)
    requires SchedOk(s) && S.Enabled(s, a)
    ensures SchedOk(S.Apply(s, a)) && Origins.StepOk(s, a, S.Apply(s, a))
  {
    hide Slots.SlotInv, S.Apply, S.Enabled;
    Slots.StepKeepsSlots(s, a);
    Origins.StepIsOk(s, a);
  }

  /** A scheduler step gives values only to the order it names. */
  lemma SchedKeepsOrders(orders: seq<Order>, s: S.State<Terminal>, a: S.Action<Terminal>, t: S.State<Terminal>,
                         log: seq<Event>, base: seq<Event>, given: set<Given>)
    requires OrdersTraced(orders, s.entries, log, base, given) && Origins.StepOk(s, a, t) && !a.DoRegister?
    requires a.DoBodyFinished? && a.index < |orders| ==> Said(base, given, ToolResult(orders[a.index].call, a.value))
    requires a.DoComplete? && a.order < |orders| ==> Said(base, given, ToolResult(orders[a.order].call, a.value))
    ensures OrdersTraced(orders, t.entries, log, base, given)
  {
    hide Said;
    forall o | 0 <= o < |orders| ensures OrderTraced(orders[o], t.entries[o], log, base, given) {
      assert OrderTraced(orders[o], s.entries[o], log, base, given);
      assert Origins.EntryStep(s.entries[o], t.entries[o], o, a);
    }
  }

  /** A step of the scheduler alone. */
  lemma SchedTraced(s: State, a: S.Action<Terminal>, base: seq<Event>, given: set<Given>)
    requires Traced(s, base, given) && S.Enabled(s.sched, a) && !a.DoRegister?
    requires a.DoBodyFinished? && a.index < |s.orders| ==> Said(base, given, ToolResult(s.orders[a.index].call, a.value))
    requires a.DoComplete? && a.order < |s.orders| ==> Said(base, given, ToolResult(s.orders[a.order].call, a.value))
    ensures Traced(s.(sched := S.Apply(s.sched, a)), base, given)
  {
    hide SchedOk, S.Apply, S.Enabled, Said, LogTraced, RecordsTraced, OrdersTraced;
    SchedStepOk(s.sched, a);
    SchedKeepsOrders(s.orders, s.sched, a, S.Apply(s.sched, a), s.log, base, given);
    OrdersChange(s, s.(sched := S.Apply(s.sched, a)), base, given);
  }

  lemma RegisterTraced(s: State, call: CallId, identity: string, c: S.Concurrency, rehydrate: bool,
                       base: seq<Event>, given: set<Given>)
    requires Traced(s, base, given) && Asked(call, identity, c) in given
    ensures var (o, t) := Register(s, call, identity, c, rehydrate);
      && Traced(t, base, given) && t.log == s.log
      && t.executions == s.executions && t.completions == s.completions
      && (o.Some? ==> o.value < |t.orders| && t.orders[o.value].call == call && t.orders[o.value].identity == identity)
  {
    hide SchedOk, Said, LogTraced, RecordsTraced;
    if call !in s.recorded && s.sched.failed == S.Undefined {
      var t := Register(s, call, identity, c, rehydrate).1;
      assert SchedOk(t.sched) by { SchedStepOk(s.sched, S.DoRegister(c)); }
      var p := if rehydrate then Reading else Appending;
      RegisterKeepsOrders(s.orders, s.sched.entries, Order(call, identity, p, NoOutcome), c, s.log, base, given);
      assert OrdersTraced(t.orders, t.sched.entries, s.log, base, given);
      OrdersChange(s, t, base, given);
    }
  }

  lemma RegisterKeepsOrders(orders: seq<Order>, entries: seq<S.Entry<Terminal>>, order: Order, c: S.Concurrency,
                            log: seq<Event>, base: seq<Event>, given: set<Given>)
    requires OrdersTraced(orders, entries, log, base, given) && Asked(order.call, order.identity, c) in given
    requires order.kind == NoOutcome && order.persist != Persisted
    ensures OrdersTraced(orders + [order], entries + [S.NewEntry<Terminal>(c)], log, base, given)
  {
    hide Said;
    forall o | 0 <= o < |orders| + 1
      ensures OrderTraced((orders + [order])[o], (entries + [S.NewEntry<Terminal>(c)])[o], log, base, given)
    {
      if o < |orders| { assert OrderTraced(orders[o], entries[o], log, base, given); }
    }
  }

  lemma PutTraced(s: State, call: CallId, r: Record, base: seq<Event>, given: set<Given>)
    requires Traced(s, base, given) && RecordTraced(r, call, s.orders, s.log, given)
    ensures Traced(PutRecord(s, call, r), base, given)
  {
    hide SchedOk, LogTraced, OrdersTraced;
  }

  lemma DropTraced(s: State, call: CallId, lane: Lane, base: seq<Event>, given: set<Given>)
    requires Traced(s, base, given)
    ensures Traced(DropRecord(s, call, lane), base, given)
  {
    hide SchedOk, LogTraced, OrdersTraced;
  }

  lemma BeginTraced(s: State, call: CallId, identity: string, c: S.Concurrency, lane: Lane,
                    base: seq<Event>, given: set<Given>)
    requires Traced(s, base, given) && Asked(call, identity, c) in given
    requires lane.Completion? ==> Answered(call, lane.supplied) in given
    ensures Traced(Begin(s, call, identity, c, lane), base, given)
  {
    hide Traced, Register;
    if call !in s.executions && call !in s.completions {
      RegisterTraced(s, call, identity, c, true, base, given);
      var (o, t) := Register(s, call, identity, c, true);
      if o.Some? { PutTraced(t, call, Record(identity, lane, o.value, AwaitPersisted), base, given); }
    }
  }

  lemma {:induction false} FirstCallInLog(log: seq<Event>, call: CallId)
    ensures FirstCall(log, call).Some? ==> ToolCall(call, FirstCall(log, call).value) in log
    ensures FirstCall(log, call).None? ==> forall e :: e in log && e.ToolCall? ==> e.call != call
  {
    if log != [] && !(log[0].ToolCall? && log[0].call == call) { FirstCallInLog(log[1..], call); }
  }

  lemma {:induction false} ReadResultInLog(log: seq<Event>, c: CallId)
    ensures FirstResult(log, c).Some? ==> ToolResult(c, FirstResult(log, c).value) in log
  {
    if log != [] && !(log[0].ToolResult? && log[0].call == c) { ReadResultInLog(log[1..], c); }
  }

  lemma PersistTraced(s: State, order: nat, p: Persist, base: seq<Event>, given: set<Given>)
    requires Traced(s, base, given) && order < |s.orders| && s.orders[order].persist in {Reading, Appending}
    requires p != PersistFailed
    requires p == Persisted ==> ToolCall(s.orders[order].call, s.orders[order].identity) in s.log
    ensures Traced(SetPersist(s, order, p), base, given)
  {
    hide SchedOk, Said, LogTraced, RecordsTraced;
    var t := SetPersist(s, order, p);
    forall o | 0 <= o < |t.orders| ensures OrderTraced(t.orders[o], t.sched.entries[o], t.log, base, given) {
      assert OrderTraced(s.orders[o], s.sched.entries[o], s.log, base, given);
    }
    OrdersChange(s, t, base, given);
  }

  lemma FailPersistTraced(s: State, order: nat, base: seq<Event>, given: set<Given>)
    requires Traced(s, base, given) && order < |s.orders| && s.orders[order].persist in {Reading, Appending}
    ensures Traced(FailPersist(s, order), base, given)
  {
    hide SchedOk, Said, LogTraced, RecordsTraced;
    var t := FailPersist(s, order);
    forall o | 0 <= o < |t.orders| ensures OrderTraced(t.orders[o], t.sched.entries[o], t.log, base, given) {
      assert OrderTraced(s.orders[o], s.sched.entries[o], s.log, base, given);
    }
    OrdersChange(s, t, base, given);
  }

  lemma PersistAppendedTraced(s: State, order: nat, base: seq<Event>, given: set<Given>)
    requires Traced(s, base, given) && order < |s.orders| && s.orders[order].persist == Appending
    ensures Traced(PersistAppended(s, order), base, given)
  {
    hide SchedOk, Traced;
    var e := ToolCall(s.orders[order].call, s.orders[order].identity);
    OrderIsTraced(s, order, base, given);
    LogGrows(s, e, base, given);
    PersistTraced(s.(log := s.log + [e]), order, Persisted, base, given);
  }

  lemma OrderIsTraced(s: State, o: nat, base: seq<Event>, given: set<Given>)
    requires Traced(s, base, given) && o < |s.orders|
    ensures o < |s.sched.entries| && OrderTraced(s.orders[o], s.sched.entries[o], s.log, base, given)
  {
    hide SchedOk, LogTraced, RecordsTraced;
  }

  lemma RecordIsTraced(s: State, call: CallId, lane: Lane, base: seq<Event>, given: set<Given>)
    requires Traced(s, base, given) && Has(s, call, lane)
    ensures RecordTraced(Records(s, lane)[call], call, s.orders, s.log, given)
  {
    hide SchedOk, LogTraced, OrdersTraced;
  }

  lemma AwaitsTraced(s: State, call: CallId, lane: Lane, base: seq<Event>, given: set<Given>)
    requires Traced(s, base, given) && Has(s, call, lane)
    ensures Enabled(s, DoAfterPersisted(call, lane)) ==> Traced(AfterPersisted(s, call, lane), base, given)
    ensures Enabled(s, DoAfterRead(call, lane)) ==> Traced(AfterRead(s, call, lane), base, given)
    ensures Enabled(s, DoAfterResult(call, lane)) ==> Traced(AfterResult(s, call, lane), base, given)
  {
    hide Traced, Results, FirstResult;
    RecordIsTraced(s, call, lane, base, given);
    DropTraced(s, call, lane, base, given);
    ReadResultInLog(s.log, call);
    var r := Records(s, lane)[call];
    if Enabled(s, DoAfterPersisted(call, lane)) && s.orders[r.order].persist == Persisted {
      PutTraced(s, call, r.(lane := lane, phase := AwaitRead), base, given);
    }
    if Enabled(s, DoAfterRead(call, lane)) {
      PutTraced(s, call, r.(lane := lane, phase := HaveRead(FirstResult(s.log, call))), base, given);
    }
    if Enabled(s, DoAfterResult(call, lane)) {
      var promise := s.sched.entries[r.order].promise;
      if promise.Resolved? && promise.result.Some? {
        PutTraced(s, call, r.(lane := lane, phase := Done(promise.result.value)), base, given);
      }
    }
  }

  /** An order whose record has read the log is durable, so it may get an outcome. */
  lemma KindTraced(s: State, order: nat, k: Kind, a: S.Action<Terminal>, base: seq<Event>, given: set<Given>)
    requires Traced(s, base, given) && order < |s.orders| && s.orders[order].persist == Persisted
    requires a == S.DoExecute(order) ||
             (a.DoComplete? && a.order == order && Said(base, given, ToolResult(s.orders[order].call, a.value)))
    ensures Traced(SetKind(s, order, k, S.Apply(s.sched, a)), base, given)
  {
    hide SchedOk, S.Apply, Said, LogTraced, RecordsTraced;
    SchedTraced(s, a, base, given);
    var u := s.(sched := S.Apply(s.sched, a));
    var t := SetKind(s, order, k, S.Apply(s.sched, a));
    forall o | 0 <= o < |t.orders| ensures OrderTraced(t.orders[o], t.sched.entries[o], t.log, base, given) {
      assert OrderTraced(u.orders[o], u.sched.entries[o], u.log, base, given);
    }
    OrdersChange(u, t, base, given);
  }

  lemma LogIsSaid(s: State, e: Event, base: seq<Event>, given: set<Given>)
    requires Traced(s, base, given) && e in s.log
    ensures Said(base, given, e)
  {
    hide SchedOk, OrdersTraced, RecordsTraced, Said;
  }

  lemma DispatchTraced(s: State, call: CallId, lane: Lane, base: seq<Event>, given: set<Given>)
    requires Traced(s, base, given) && Enabled(s, DoDispatch(call, lane))
    ensures Traced(Dispatch(s, call, lane), base, given)
  {
    hide Traced, S.Apply, S.Execute, S.Complete;
    RecordIsTraced(s, call, lane, base, given);
    DropTraced(s, call, lane, base, given);
    var r := Records(s, lane)[call];
    var durable := r.phase.durable;
    if S.Accepts(s.sched, r.order) && !(lane.Completion? && durable.Some? && durable.value != lane.supplied) {
      var a := if lane.Completion? then S.DoComplete(r.order, lane.supplied)
               else if durable.Some? then S.DoComplete(r.order, durable.value)
               else S.DoExecute(r.order);
      ApplyIs(s.sched, a);
      if lane.Execution? && durable.Some? { LogIsSaid(s, ToolResult(call, durable.value), base, given); }
      var k := if durable.Some? then Noop else Store;
      KindTraced(s, r.order, k, a, base, given);
      var t := SetKind(s, r.order, k, S.Apply(s.sched, a));
      RecordIsTraced(t, call, lane, base, given);
      PutTraced(t, call, r.(lane := lane, phase := AwaitResult), base, given);
    }
  }

  lemma ApplyIs(s: S.State<Terminal>, a: S.Action<Terminal>)
    requires S.Enabled(s, a)
    ensures a.DoExecute? ==> S.Apply(s, a) == S.Execute(s, a.order)
    ensures a.DoComplete? ==> S.Apply(s, a) == S.Complete(s, a.order, a.value)
  {
    hide S.Execute, S.Complete;
  }

  lemma StoreLandsTraced(s: State, base: seq<Event>, given: set<Given>)
    requires Traced(s, base, given) && Enabled(s, DoStoreLands)
    ensures Traced(StoreLands(s), base, given)
  {
    hide Traced;
    var n := s.sched.nextCommit;
    OrderIsTraced(s, n, base, given);
    var call := ToolCall(s.orders[n].call, s.orders[n].identity);
    var j :| 0 <= j < |s.log| && s.log[j] == call;
    LogGrows(s, ToolResult(s.orders[n].call, s.sched.entries[n].value.value), base, given);
    LandedTraced(s.(log := StoreLands(s).log), true, base, given);
  }

  lemma LandedTraced(s: State, landed: bool, base: seq<Event>, given: set<Given>)
    requires Traced(s, base, given)
    ensures Traced(s.(appendLanded := landed), base, given)
  {
    hide SchedOk, LogTraced, OrdersTraced, RecordsTraced;
  }

  lemma CommitTraced(s: State, a: Action, base: seq<Event>, given: set<Given>)
    requires Traced(s, base, given) && Enabled(s, a) && (a.DoCommitFinished? || a.DoCommitFailed?)
    ensures Traced(Apply(s, a), base, given)
  {
    hide Traced, S.CommitFinished, S.CommitFailed;
    if a.DoCommitFinished? {
      SchedTraced(s, S.DoCommitFinished, base, given);
      LandedTraced(s.(sched := S.CommitFinished(s.sched)), false, base, given);
    } else {
      SchedTraced(s, S.DoCommitFailed(a.error), base, given);
    }
  }

  lemma BootTraced(log: seq<Event>, cap: nat, base: seq<Event>, given: set<Given>)
    requires 1 <= cap && LogTraced(log, base, given)
    ensures Traced(Boot(log, cap), base, given)
  {
    Origins.InitOrigins<Terminal>(cap);
    hide LogTraced;
  }

  lemma RestartTraced(s: State, cap: nat, base: seq<Event>, given: set<Given>)
    requires Traced(s, base, given) && 1 <= cap
    ensures Traced(Boot(s.log, cap), base, given)
  {
    hide LogTraced, SchedOk, OrdersTraced, RecordsTraced;
    BootTraced(s.log, cap, base, given);
  }

  lemma StepTraced(s: State, a: Action, base: seq<Event>, given: set<Given>)
    requires Traced(s, base, given) && Enabled(s, a)
    ensures Traced(Apply(s, a), base, given + Brings(s, a))
  {
    hide Traced, FirstCall, Register, Begin, Dispatch, AfterRead, AfterPersisted, AfterResult, StoreLands, S.Apply,
         Boot, FailPersist, PersistAppended, DropRecord;
    var more := given + Brings(s, a);
    GivenGrows(s, base, given, more);
    match a
    case RecordCall(call, identity, c) => RegisterTraced(s, call, identity, c, false, base, more);
    case Start(call, identity, c, lane) => BeginTraced(s, call, identity, c, lane, base, more);
    case DoPersistRead(o) => PersistReadTraced(s, o, base, more);
    case DoPersistAppended(o) => PersistAppendedTraced(s, o, base, more);
    case DoPersistFailed(o) => FailPersistTraced(s, o, base, more);
    case DoAfterPersisted(call, lane) => AwaitsTraced(s, call, lane, base, more);
    case DoAfterRead(call, lane) => AwaitsTraced(s, call, lane, base, more);
    case DoReadFailed(call, lane) => DropTraced(s, call, lane, base, more);
    case DoDispatch(call, lane) => DispatchTraced(s, call, lane, base, more);
    case DoAfterResult(call, lane) => AwaitsTraced(s, call, lane, base, more);
    case DoBody(step) => SchedTraced(s, step, base, more);
    case DoStoreLands => StoreLandsTraced(s, base, more);
    case DoCommitFinished => CommitTraced(s, a, base, more);
    case DoCommitFailed(_) => CommitTraced(s, a, base, more);
    case Restart(cap) => RestartTraced(s, cap, base, more);
  }

  lemma PersistReadTraced(s: State, order: nat, base: seq<Event>, given: set<Given>)
    requires Traced(s, base, given) && Enabled(s, DoPersistRead(order))
    ensures Traced(PersistRead(s, order), base, given)
  {
    hide Traced, FirstCall;
    FirstCallInLog(s.log, s.orders[order].call);
    FailPersistTraced(s, order, base, given);
    PersistTraced(s, order, Appending, base, given);
    if FirstCall(s.log, s.orders[order].call) == Some(s.orders[order].identity) {
      PersistTraced(s, order, Persisted, base, given);
    }
  }

  lemma {:induction false} RunTraced(s: State, acts: seq<Action>, base: seq<Event>, given: set<Given>)
    requires Traced(s, base, given) && ValidRun(s, acts)
    ensures Traced(Run(s, acts), base, given + Sources(s, acts))
    decreases |acts|
  {
    hide Traced, Apply, Enabled, Brings;
    if acts == [] {
      assert given + Sources(s, acts) == given;
    } else {
      StepTraced(s, acts[0], base, given);
      var more := given + Brings(s, acts[0]);
      RunTraced(Apply(s, acts[0]), acts[1..], base, more);
      assert given + Sources(s, acts) == more + Sources(Apply(s, acts[0]), acts[1..]);
    }
  }

  /** A process over any log. */
  lemma BootRunTraced(log: seq<Event>, cap: nat, acts: seq<Action>)
    requires 1 <= cap && ValidRun(Boot(log, cap), acts)
    ensures Traced(Run(Boot(log, cap), acts), log, Sources(Boot(log, cap), acts))
  {
    hide Traced, Run, ValidRun, Boot, Sources;
    assert LogTraced(log, log, {});
    BootTraced(log, cap, log, {});
    RunTraced(Boot(log, cap), acts, log, {});
    assert {} + Sources(Boot(log, cap), acts) == Sources(Boot(log, cap), acts);
  }

  // ----- the theorems -----

  /**
   Over every run from any log, with restarts: a stored call was asked for with that identity, and a
   stored result was supplied by a `complete` of that call or returned by the body of one of its
   orders; nothing the log held is lost; and every new result stands behind a call event of its call.
   */
  lemma EventsAreSupplied(log: seq<Event>, cap: nat, acts: seq<Action>)
    requires 1 <= cap && ValidRun(Boot(log, cap), acts)
    ensures var t, given := Run(Boot(log, cap), acts), Sources(Boot(log, cap), acts);
      && log <= t.log
      && (forall call, identity :: ToolCall(call, identity) in t.log ==>
            ToolCall(call, identity) in log || exists c :: Asked(call, identity, c) in given)
      && (forall call, v :: ToolResult(call, v) in t.log ==> ToolResult(call, v) in log || Answered(call, v) in given)
      && (forall k | |log| <= k < |t.log| && t.log[k].ToolResult? ::
            exists j :: 0 <= j < k && t.log[j].ToolCall? && t.log[j].call == t.log[k].call)
  {
    hide Run, ValidRun, Boot, Sources, SchedOk, OrdersTraced, RecordsTraced;
    BootRunTraced(log, cap, acts);
    var t, given := Run(Boot(log, cap), acts), Sources(Boot(log, cap), acts);
    forall e | e in t.log ensures Said(log, given, e) {}
    forall k | |log| <= k < |t.log| && t.log[k].ToolResult?
      ensures exists j :: 0 <= j < k && t.log[j].ToolCall? && t.log[j].call == t.log[k].call
    {
      assert CallBefore(t.log, k, t.log[k].call);
    }
  }

  /** What an order says about the log and the requests. */
  ghost predicate OrderMeans(s: State, o: nat, given: set<Given>)
    requires o < |s.orders|
  {
    && (s.orders[o].persist == Persisted ==> ToolCall(s.orders[o].call, s.orders[o].identity) in s.log)
    && (o == s.sched.nextCommit && Enabled(s, DoStoreLands) ==>
          ToolCall(s.orders[o].call, s.orders[o].identity) in s.log)
    && o < |s.sched.entries|
    && Asked(s.orders[o].call, s.orders[o].identity, s.sched.entries[o].concurrency) in given
  }

  lemma RecordedHolds(s: State, base: seq<Event>, given: set<Given>)
    requires Traced(s, base, given)
    ensures RecordedTraced(s.recorded, s.orders)
  {
    hide SchedOk, LogTraced, OrdersTraced, RecordsTraced;
  }

  lemma OrderMeaning(s: State, o: nat, base: seq<Event>, given: set<Given>)
    requires o < |s.orders| && o < |s.sched.entries|
    requires OrderTraced(s.orders[o], s.sched.entries[o], s.log, base, given)
    ensures OrderMeans(s, o, given)
  {
  }

  /**
   On the same runs: an order counts as persisted only while its own call event is in the log, a
   commit that stores a result finds the call event of that order, with its identity, already there,
   and an operation past that point has the identity of its order. The scheduler runs an order with
   the concurrency it was asked for; and a call stays registered under an order until its persistence
   fails, and not longer.
   */
  lemma PersistedMeansDurable(log: seq<Event>, cap: nat, acts: seq<Action>)
    requires 1 <= cap && ValidRun(Boot(log, cap), acts)
    ensures var t, given := Run(Boot(log, cap), acts), Sources(Boot(log, cap), acts);
      && (forall o: nat :: o < |t.orders| ==> OrderMeans(t, o, given))
      && (forall call :: call in t.recorded ==> t.recorded[call] < |t.orders|)
      && (forall o: nat :: o < |t.orders| ==>
            (t.orders[o].persist != PersistFailed <==> t.orders[o].call in t.recorded && t.recorded[t.orders[o].call] == o))
      && (forall call, lane :: Has(t, call, lane) && Records(t, lane)[call].phase != AwaitPersisted ==>
            ToolCall(call, Records(t, lane)[call].identity) in t.log)
  {
    hide Run, ValidRun, Boot, Sources, Traced, Enabled;
    BootRunTraced(log, cap, acts);
    var t, given := Run(Boot(log, cap), acts), Sources(Boot(log, cap), acts);
    forall o: nat | o < |t.orders| ensures OrderMeans(t, o, given) {
      OrderIsTraced(t, o, log, given);
      OrderMeaning(t, o, log, given);
    }
    RecordedHolds(t, log, given);
    forall call, lane | Has(t, call, lane) && Records(t, lane)[call].phase != AwaitPersisted
      ensures ToolCall(call, Records(t, lane)[call].identity) in t.log
    {
      RecordIsTraced(t, call, lane, log, given);
      OrderIsTraced(t, Records(t, lane)[call].order, log, given);
    }
  }

  // ----- identities -----

  /** The history refuses a second call event of a call, so such an append does not land. */
  ghost predicate Guarded(s: State, acts: seq<Action>)
    requires ValidRun(s, acts)
    decreases |acts|
  {
    acts == [] ||
    (GuardedStep(s, acts[0]) && Guarded(Apply(s, acts[0]), acts[1..]))
  }

  ghost predicate GuardedStep(s: State, a: Action) {
    a.DoPersistAppended? && a.order < |s.orders| ==>
      forall e :: e in s.log && e.ToolCall? ==> e.call != s.orders[a.order].call
  }

  ghost predicate OneIdentity(log: seq<Event>) {
    forall j, k | 0 <= j < k < |log| && log[j].ToolCall? && log[k].ToolCall? :: log[j].call != log[k].call
  }

  lemma StepIdentity(s: State, a: Action)
    requires OneIdentity(s.log) && Enabled(s, a) && GuardedStep(s, a)
    ensures OneIdentity(Apply(s, a).log)
  {
    hide Register, FirstCall, FirstResult, Results, S.Apply, S.Execute, S.Complete, S.CommitFinished, S.CommitFailed;
    match a
    case RecordCall(call, identity, c) => RegisterLog(s, call, identity, c, false);
    case Start(call, identity, c, _) => RegisterLog(s, call, identity, c, true);
    case DoPersistAppended(o) =>
      forall j | 0 <= j < |s.log| && s.log[j].ToolCall? ensures s.log[j].call != s.orders[o].call {
        assert s.log[j] in s.log;
      }
    case _ =>
  }

  lemma RegisterLog(s: State, call: CallId, identity: string, c: S.Concurrency, rehydrate: bool)
    ensures Register(s, call, identity, c, rehydrate).1.log == s.log
  {
  }

  lemma {:induction false} RunIdentity(s: State, acts: seq<Action>)
    requires OneIdentity(s.log) && ValidRun(s, acts) && Guarded(s, acts)
    ensures OneIdentity(Run(s, acts).log)
    decreases |acts|
  {
    hide OneIdentity, GuardedStep, Apply, Enabled;
    if acts != [] {
      StepIdentity(s, acts[0]);
      RunIdentity(Apply(s, acts[0]), acts[1..]);
    }
  }

  /**
   Where the history refuses a second call event, each call keeps one event and one identity over all
   restarts, and an operation of any other identity is never handed to the scheduler.
   */
  lemma OnlyDurableIdentityRuns(log: seq<Event>, cap: nat, acts: seq<Action>)
    requires 1 <= cap && OneIdentity(log) && ValidRun(Boot(log, cap), acts) && Guarded(Boot(log, cap), acts)
    ensures var t := Run(Boot(log, cap), acts);
      && OneIdentity(t.log)
      && (forall call, lane, identity ::
            ToolCall(call, identity) in t.log && Enabled(t, DoDispatch(call, lane)) ==>
            Records(t, lane)[call].identity == identity)
      && (forall o, identity | 0 <= o < |t.orders| && ToolCall(t.orders[o].call, identity) in t.log ::
            t.orders[o].kind != NoOutcome ==> t.orders[o].identity == identity)
  {
    hide Run, ValidRun, Boot, Guarded, Traced, OneIdentity;
    BootRunTraced(log, cap, acts);
    RunIdentity(Boot(log, cap), acts) by { assert Boot(log, cap).log == log by { BootLog(log, cap); } }
    var t, given := Run(Boot(log, cap), acts), Sources(Boot(log, cap), acts);
    forall call, lane, identity | ToolCall(call, identity) in t.log && Enabled(t, DoDispatch(call, lane))
      ensures Records(t, lane)[call].identity == identity
    {
      RecordIsTraced(t, call, lane, log, given);
      OrderIsTraced(t, Records(t, lane)[call].order, log, given);
      SameIdentity(t.log, call, identity, Records(t, lane)[call].identity);
    }
    forall o, identity | 0 <= o < |t.orders| && ToolCall(t.orders[o].call, identity) in t.log && t.orders[o].kind != NoOutcome
      ensures t.orders[o].identity == identity
    {
      OrderIsTraced(t, o, log, given);
      SameIdentity(t.log, t.orders[o].call, identity, t.orders[o].identity);
    }
  }

  lemma BootLog(log: seq<Event>, cap: nat)
    ensures Boot(log, cap).log == log
  {
  }

  lemma SameIdentity(log: seq<Event>, call: CallId, identity: string, other: string)
    requires OneIdentity(log) && ToolCall(call, identity) in log && ToolCall(call, other) in log
    ensures identity == other
  {
    var j :| 0 <= j < |log| && log[j] == ToolCall(call, identity);
    var k :| 0 <= k < |log| && log[k] == ToolCall(call, other);
  }

  /**
   What a rehydrating registration makes of the log: accepted exactly when its own call event is
   there, refused exactly when that of another identity is, and about to append otherwise.
   */
  lemma ReadDecides(s: State, o: nat)
    requires OneIdentity(s.log) && Enabled(s, DoPersistRead(o))
    ensures var p := Apply(s, DoPersistRead(o)).orders[o].persist;
      var call, identity := s.orders[o].call, s.orders[o].identity;
      && (p == Persisted <==> ToolCall(call, identity) in s.log)
      && (p == PersistFailed <==> exists other :: other != identity && ToolCall(call, other) in s.log)
      && (p == Appending <==> forall other :: ToolCall(call, other) !in s.log)
  {
    hide FirstCall, OneIdentity;
    var call, identity := s.orders[o].call, s.orders[o].identity;
    FirstCallInLog(s.log, call);
    var first := FirstCall(s.log, call);
    forall other | ToolCall(call, other) in s.log ensures first == Some(other) {
      SameIdentity(s.log, call, first.value, other);
    }
  }

  // ----- nothing that happened is forgotten -----

  /** The actions of the current process. */
  function SinceRestart(acts: seq<Action>): seq<Action> {
    if acts == [] then []
    else
      var last := acts[|acts| - 1];
      if last.Restart? then [] else SinceRestart(acts[..|acts| - 1]) + [last]
  }

  predicate HasOrder(s: State, call: CallId) {
    s.sched.failed != S.Undefined || exists o :: 0 <= o < |s.orders| && s.orders[o].call == call
  }

  /** What an action of this process left behind. */
  predicate Left(s: State, a: Action) {
    match a
    case RecordCall(call, _, _) => HasOrder(s, call)
    case Start(call, _, _, _) => HasOrder(s, call)
    case DoPersistAppended(o) => o < |s.orders| && s.orders[o].persist == Persisted
    case DoPersistFailed(o) => o < |s.orders| && s.orders[o].persist == PersistFailed
    case DoBody(DoBodyFinished(o, v)) => o < |s.sched.entries| && s.sched.entries[o].value == Some(v)
    case _ => true
  }

  /** What is settled stays settled. */
  ghost predicate Keeps(s: State, t: State) {
    && (s.sched.failed != S.Undefined ==> t.sched.failed != S.Undefined)
    && |s.orders| <= |t.orders| && |s.sched.entries| <= |t.sched.entries|
    && (forall o :: 0 <= o < |s.orders| ==> OrderKept(s.orders[o], t.orders[o]))
    && (forall o :: 0 <= o < |s.sched.entries| && s.sched.entries[o].value.Some? ==>
          t.sched.entries[o].value == s.sched.entries[o].value)
  }

  predicate OrderKept(o: Order, later: Order) {
    later.call == o.call && (o.persist == Persisted || o.persist == PersistFailed ==> later.persist == o.persist)
  }

  lemma LeftStays(s: State, t: State, a: Action)
    requires Left(s, a) && Keeps(s, t)
    ensures Left(t, a)
  {
    if (a.RecordCall? || a.Start?) && s.sched.failed == S.Undefined {
      var o :| 0 <= o < |s.orders| && s.orders[o].call == a.call;
      assert OrderKept(s.orders[o], t.orders[o]);
    }
  }

  ghost predicate ValuesReady(s: S.State<Terminal>) {
    forall o :: 0 <= o < |s.entries| && s.entries[o].value.Some? ==> s.entries[o].ready
  }

  /** A scheduler step keeps the failure and the values there are. */
  lemma SchedKeeps(s: S.State<Terminal>, a: S.Action<Terminal>)
    requires SchedOk(s) && ValuesReady(s) && S.Enabled(s, a)
    ensures var t := S.Apply(s, a);
      && ValuesReady(t) && |s.entries| <= |t.entries| && (s.failed != S.Undefined ==> t.failed == s.failed)
      && (forall o :: 0 <= o < |s.entries| && s.entries[o].value.Some? ==> t.entries[o].value == s.entries[o].value)
      && (a.DoBodyFinished? ==> a.index < |t.entries| && t.entries[a.index].value == Some(a.value))
      && (!a.DoRegister? ==> |t.entries| == |s.entries|)
  {
    hide SchedOk, S.Apply;
    SchedStepOk(s, a);
    var t := S.Apply(s, a);
    forall o | 0 <= o < |s.entries|
      ensures s.entries[o].value.Some? ==> t.entries[o].value == s.entries[o].value
      ensures t.entries[o].value.Some? ==> t.entries[o].ready
    {
      assert Origins.EntryStep(s.entries[o], t.entries[o], o, a);
    }
    if a.DoBodyFinished? { assert Origins.EntryStep(s.entries[a.index], t.entries[a.index], a.index, a); }
  }

  lemma SchedHolds(s: State, base: seq<Event>, given: set<Given>)
    requires Traced(s, base, given)
    ensures SchedOk(s.sched) && |s.orders| == |s.sched.entries| && RecordedTraced(s.recorded, s.orders)
  {
    hide SchedOk, LogTraced, RecordsTraced;
  }

  lemma RegisterKeepsLeft(s: State, call: CallId, identity: string, c: S.Concurrency, rehydrate: bool)
    requires RecordedTraced(s.recorded, s.orders) && ValuesReady(s.sched) && |s.orders| == |s.sched.entries|
    ensures var t := Register(s, call, identity, c, rehydrate).1;
      Keeps(s, t) && HasOrder(t, call) && ValuesReady(t.sched)
  {
    var t := Register(s, call, identity, c, rehydrate).1;
    if call in s.recorded {
      assert t.orders[s.recorded[call]].call == call;
    } else if s.sched.failed == S.Undefined {
      assert t.orders[|s.orders|].call == call;
    }
  }

  lemma DispatchKeeps(s: State, call: CallId, lane: Lane)
    requires Enabled(s, DoDispatch(call, lane)) && SchedOk(s.sched) && ValuesReady(s.sched) && |s.orders| == |s.sched.entries|
    ensures Keeps(s, Dispatch(s, call, lane)) && ValuesReady(Dispatch(s, call, lane).sched)
  {
    hide SchedOk, S.Apply, S.Execute, S.Complete, ValuesReady;
    var r := Records(s, lane)[call];
    var a := if lane.Completion? then S.DoComplete(r.order, lane.supplied)
             else if r.phase.durable.Some? then S.DoComplete(r.order, r.phase.durable.value)
             else S.DoExecute(r.order);
    ApplyIs(s.sched, a);
    SchedKeeps(s.sched, a);
  }

  lemma RecordHasOrder(s: State, call: CallId, base: seq<Event>, given: set<Given>)
    requires Traced(s, base, given) && (call in s.executions || call in s.completions)
    ensures HasOrder(s, call)
  {
    hide SchedOk, LogTraced, OrdersTraced;
    var r := if call in s.executions then s.executions[call] else s.completions[call];
    assert RecordTraced(r, call, s.orders, s.log, given);
    assert s.orders[r.order].call == call;
  }

  lemma BeginKeepsLeft(s: State, call: CallId, identity: string, c: S.Concurrency, lane: Lane, base: seq<Event>, given: set<Given>)
    requires Traced(s, base, given) && ValuesReady(s.sched)
    ensures Keeps(s, Begin(s, call, identity, c, lane)) && HasOrder(Begin(s, call, identity, c, lane), call)
    ensures ValuesReady(Begin(s, call, identity, c, lane).sched)
  {
    hide Register, ValuesReady, Traced;
    SchedHolds(s, base, given);
    RegisterKeepsLeft(s, call, identity, c, true);
    if call in s.executions || call in s.completions { RecordHasOrder(s, call, base, given); }
  }

  lemma StepKeeps(s: State, a: Action, base: seq<Event>, given: set<Given>)
    requires Traced(s, base, given) && ValuesReady(s.sched) && Enabled(s, a) && !a.Restart?
    ensures Keeps(s, Apply(s, a)) && ValuesReady(Apply(s, a).sched) && Left(Apply(s, a), a)
  {
    hide Traced, SchedOk, ValuesReady, RecordedTraced, Register, Begin, Dispatch, S.Apply, AfterPersisted, AfterRead, AfterResult,
         DropRecord, PersistRead, PersistAppended, FailPersist, StoreLands, S.CommitFinished, S.CommitFailed;
    SchedHolds(s, base, given);
    match a
    case DoPersistRead(o) => PersistKeepsLeft(s, o);
    case DoPersistAppended(o) => PersistKeepsLeft(s, o);
    case DoPersistFailed(o) => PersistKeepsLeft(s, o);
    case DoAfterPersisted(_, _) => RecordStepKeeps(s, a);
    case DoAfterRead(_, _) => RecordStepKeeps(s, a);
    case DoReadFailed(_, _) => RecordStepKeeps(s, a);
    case DoAfterResult(_, _) => RecordStepKeeps(s, a);
    case DoStoreLands => RecordStepKeeps(s, a);
    case RecordCall(call, identity, c) => RegisterKeepsLeft(s, call, identity, c, false);
    case Start(call, identity, c, lane) => BeginKeepsLeft(s, call, identity, c, lane, base, given);
    case DoDispatch(call, lane) => DispatchKeeps(s, call, lane);
    case DoBody(step) => SchedKeeps(s.sched, step);
    case DoCommitFinished => CommitApplies(s.sched, S.DoCommitFinished);
    case DoCommitFailed(error) => CommitApplies(s.sched, S.DoCommitFailed(error));
  }

  /** Changing the persistence of an order that is still on its way. */
  lemma PersistKeepsLeft(s: State, o: nat)
    requires o < |s.orders| && (s.orders[o].persist == Reading || s.orders[o].persist == Appending)
    ensures Keeps(s, PersistRead(s, o)) && PersistRead(s, o).sched == s.sched
    ensures Keeps(s, PersistAppended(s, o)) && PersistAppended(s, o).sched == s.sched
    ensures Keeps(s, FailPersist(s, o)) && FailPersist(s, o).sched == s.sched
    ensures o < |PersistAppended(s, o).orders| && PersistAppended(s, o).orders[o].persist == Persisted
    ensures o < |FailPersist(s, o).orders| && FailPersist(s, o).orders[o].persist == PersistFailed
  {
    hide FirstCall;
  }

  lemma RecordOnly(s: State, call: CallId, lane: Lane)
    requires Has(s, call, lane)
    ensures Enabled(s, DoAfterPersisted(call, lane)) ==>
      AfterPersisted(s, call, lane).orders == s.orders && AfterPersisted(s, call, lane).sched == s.sched
    ensures AfterRead(s, call, lane).orders == s.orders && AfterRead(s, call, lane).sched == s.sched
    ensures DropRecord(s, call, lane).orders == s.orders && DropRecord(s, call, lane).sched == s.sched
    ensures Enabled(s, DoAfterResult(call, lane)) ==>
      AfterResult(s, call, lane).orders == s.orders && AfterResult(s, call, lane).sched == s.sched
  {
    hide FirstResult, Results;
  }

  lemma SameKeeps(s: State, t: State)
    requires t.orders == s.orders && t.sched == s.sched
    ensures Keeps(s, t)
  {
  }

  lemma RecordStepKeeps(s: State, a: Action)
    requires Enabled(s, a)
    requires a.DoAfterPersisted? || a.DoAfterRead? || a.DoReadFailed? || a.DoAfterResult? || a.DoStoreLands?
    ensures Apply(s, a).sched == s.sched && Keeps(s, Apply(s, a))
  {
    hide Keeps, AfterPersisted, AfterRead, AfterResult, DropRecord;
    if !a.DoStoreLands? { RecordOnly(s, a.call, a.lane); }
    SameKeeps(s, Apply(s, a));
  }

  lemma CommitApplies(s: S.State<Terminal>, a: S.Action<Terminal>)
    requires SchedOk(s) && ValuesReady(s) && S.Enabled(s, a) && (a.DoCommitFinished? || a.DoCommitFailed?)
    ensures var t := if a.DoCommitFinished? then S.CommitFinished(s) else S.CommitFailed(s, a.error);
      && ValuesReady(t) && |s.entries| == |t.entries| && (s.failed != S.Undefined ==> t.failed == s.failed)
      && (forall o :: 0 <= o < |s.entries| && s.entries[o].value.Some? ==> t.entries[o].value == s.entries[o].value)
  {
    hide SchedOk, ValuesReady, S.CommitFinished, S.CommitFailed;
    SchedKeeps(s, a);
  }

  ghost predicate AllLeft(s: State, own: seq<Action>) {
    forall a :: a in own ==> Left(s, a)
  }

  lemma StepAllLeft(s: State, a: Action, own: seq<Action>, base: seq<Event>, given: set<Given>)
    requires Traced(s, base, given) && ValuesReady(s.sched) && Enabled(s, a) && AllLeft(s, own)
    ensures ValuesReady(Apply(s, a).sched)
    ensures AllLeft(Apply(s, a), if a.Restart? then [] else own + [a])
  {
    hide Traced, Left, Enabled, Apply, Keeps;
    if a.Restart? {
      RestartReady(s, a);
    } else {
      StepKeeps(s, a, base, given);
      forall b | b in own ensures Left(Apply(s, a), b) { LeftStays(s, Apply(s, a), b); }
    }
  }

  lemma RestartReady(s: State, a: Action)
    requires Enabled(s, a) && a.Restart?
    ensures ValuesReady(Apply(s, a).sched)
  {
  }

  lemma OwnSnoc(past: seq<Action>, a: Action)
    ensures SinceRestart(past + [a]) == if a.Restart? then [] else SinceRestart(past) + [a]
  {
    assert (past + [a])[..|past|] == past;
  }

  lemma {:induction false} RunAllLeft(s: State, acts: seq<Action>, past: seq<Action>, base: seq<Event>, given: set<Given>)
    requires Traced(s, base, given) && ValuesReady(s.sched) && ValidRun(s, acts) && AllLeft(s, SinceRestart(past))
    ensures AllLeft(Run(s, acts), SinceRestart(past + acts))
    decreases |acts|
  {
    hide Traced, AllLeft, ValuesReady, Apply, Enabled, SinceRestart, Brings;
    if acts == [] {
      assert past + acts == past;
    } else {
      StepAllLeft(s, acts[0], SinceRestart(past), base, given);
      StepTraced(s, acts[0], base, given);
      OwnSnoc(past, acts[0]);
      RunAllLeft(Apply(s, acts[0]), acts[1..], past + [acts[0]], base, given + Brings(s, acts[0]));
      assert past + acts == (past + [acts[0]]) + acts[1..];
    }
  }

  lemma BootReady(log: seq<Event>, cap: nat)
    ensures ValuesReady(Boot(log, cap).sched) && AllLeft(Boot(log, cap), SinceRestart([]))
  {
  }

  /**
   Nothing that happened in a process is forgotten by it: a call that was recorded, executed or completed
   has an order, unless the scheduler had failed; a registration that became durable or failed is marked
   so for good; and what a body returned is the value of its order.
   */
  lemma NothingIsForgotten(log: seq<Event>, cap: nat, acts: seq<Action>, a: Action)
    requires 1 <= cap && ValidRun(Boot(log, cap), acts) && a in SinceRestart(acts)
    ensures Left(Run(Boot(log, cap), acts), a)
  {
    hide Run, ValidRun, SinceRestart, Traced, Left, Boot;
    assert LogTraced(log, log, {});
    BootTraced(log, cap, log, {});
    BootReady(log, cap);
    RunAllLeft(Boot(log, cap), acts, [], log, {});
    assert [] + acts == acts;
  }
}

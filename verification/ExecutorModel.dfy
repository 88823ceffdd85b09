/** The tool executor, step by step. */
module ExecutorModel {
  // The executor of one session over a durable log: registration with rehydration, single-flight
  // `execute`/`complete`, and the commit that stores a result. Each step is one stretch of code
  // between two awaits; the scheduler runs inside.

  import opened Wrappers
  import S = SchedulerModel

  type CallId = string

  /** The parts of a terminal result that its signature covers; equality is equality of signatures. */
  datatype Terminal = Terminal(ok: bool, canonicalOutput: string, modelContent: string, error: Option<string>)

  /** Durable events of this executor; `identity` is the canonical call identity. */
  datatype Event = ToolCall(call: CallId, identity: string) | ToolResult(call: CallId, result: Terminal)

  /** The `persisted` promise of a registration. */
  datatype Persist = Reading | Appending | Persisted | PersistFailed

  /** What the scheduler was given for an order: nothing yet, a commit that stores, or one that does nothing. */
  datatype Kind = NoOutcome | Store | Noop

  datatype Order = Order(call: CallId, identity: string, persist: Persist, kind: Kind)

  datatype Phase = AwaitPersisted | AwaitRead | HaveRead(durable: Option<Terminal>) | AwaitResult | Done(result: Terminal)

  /** `executionRecords` and `completionRecords` are two maps; a lane selects one. */
  datatype Lane = Execution | Completion(supplied: Terminal)
  datatype Record = Record(identity: string, lane: Lane, order: nat, phase: Phase)

  datatype State = State(
    log: seq<Event>, sched: S.State<Terminal>, orders: seq<Order>, recorded: map<CallId, nat>,
    executions: map<CallId, Record>, completions: map<CallId, Record>, appendLanded: bool)

  /** A fresh process over the log a previous one left. */
  function Boot(log: seq<Event>, cap: nat): State {
    State(log, S.Init(cap), [], map[], map[], map[], false)
  }

  // ----- reading the log -----

  function Results(log: seq<Event>, call: CallId): nat {
    if log == [] then 0
    else Results(log[..|log| - 1], call) + if log[|log| - 1].ToolResult? && log[|log| - 1].call == call then 1 else 0
  }

  function FirstResult(log: seq<Event>, call: CallId): (r: Option<Terminal>)
    ensures r.Some? <==> exists k :: 0 <= k < |log| && log[k].ToolResult? && log[k].call == call
  {
    if log == [] then None
    else if log[0].ToolResult? && log[0].call == call then
      assert log[0] in log;
      Some(log[0].result)
    else
      var r := FirstResult(log[1..], call);
      assert r.Some? ==> exists k :: 0 <= k < |log[1..]| && log[1..][k] == log[k + 1] && log[1..][k].ToolResult? && log[1..][k].call == call;
      assert forall k :: 1 <= k < |log| ==> log[1..][k - 1] == log[k];
      r
  }

  function FirstCall(log: seq<Event>, call: CallId): Option<string> {
    if log == [] then None
    else if log[0].ToolCall? && log[0].call == call then Some(log[0].identity)
    else FirstCall(log[1..], call)
  }

  // ----- registration -----

  /** `registerCall`: reuse the registration of the same identity, or take the next order. */
  function Register(s: State, call: CallId, identity: string, c: S.Concurrency, rehydrate: bool): (Option<nat>, State) {
    if call in s.recorded then
      var order := s.recorded[call];
      if order < |s.orders| && s.orders[order].identity == identity then (Some(order), s) else (None, s)
    else if s.sched.failed != S.Undefined then (None, s)
    else
      (Some(|s.orders|),
       s.(sched := S.Register(s.sched, c),
          orders := s.orders + [Order(call, identity, if rehydrate then Reading else Appending, NoOutcome)],
          recorded := s.recorded[call := |s.orders|]))
  }

  function SetPersist(s: State, order: nat, p: Persist): State
    requires order < |s.orders|
  {
    s.(orders := s.orders[order := s.orders[order].(persist := p)])
  }

  /** A registration that could not be made durable is forgotten. */
  function FailPersist(s: State, order: nat): State
    requires order < |s.orders|
  {
    var call := s.orders[order].call;
    SetPersist(s, order, PersistFailed).(
      recorded := if call in s.recorded && s.recorded[call] == order then s.recorded - {call} else s.recorded)
  }

  /** `ensureDurableCall` after its read: accept the durable call, refuse another identity, or append. */
  function PersistRead(s: State, order: nat): State
    requires order < |s.orders|
  {
    match FirstCall(s.log, s.orders[order].call)
    case None => SetPersist(s, order, Appending)
    case Some(identity) =>
      if identity == s.orders[order].identity then SetPersist(s, order, Persisted) else FailPersist(s, order)
  }

  function PersistAppended(s: State, order: nat): State
    requires order < |s.orders|
  {
    SetPersist(s, order, Persisted).(log := s.log + [ToolCall(s.orders[order].call, s.orders[order].identity)])
  }

  // ----- operations -----

  /** The records of a lane. */
  function LaneOf(executions: map<CallId, Record>, completions: map<CallId, Record>, lane: Lane): map<CallId, Record> {
    if lane.Execution? then executions else completions
  }

  function Records(s: State, lane: Lane): map<CallId, Record> {
    LaneOf(s.executions, s.completions, lane)
  }

  function PutRecord(s: State, call: CallId, r: Record): State {
    if r.lane.Execution? then s.(executions := s.executions[call := r])
    else s.(completions := s.completions[call := r])
  }

  /** A rejected operation removes its own record. */
  function DropRecord(s: State, call: CallId, lane: Lane): State {
    if lane.Execution? then s.(executions := s.executions - {call})
    else s.(completions := s.completions - {call})
  }

  /** `execute` or `complete` of a call: join the operation in flight, or start one. */
  function Begin(s: State, call: CallId, identity: string, c: S.Concurrency, lane: Lane): State {
    if call in s.executions || call in s.completions then s
    else
      var (order, t) := Register(s, call, identity, c, true);
      match order
      case None => t
      case Some(o) => PutRecord(t, call, Record(identity, lane, o, AwaitPersisted))
  }

  predicate Has(s: State, call: CallId, lane: Lane) {
    call in Records(s, lane) && Records(s, lane)[call].lane == lane
  }

  function SetPhase(s: State, call: CallId, lane: Lane, p: Phase): State
    requires call in Records(s, lane)
  {
    PutRecord(s, call, Records(s, lane)[call].(lane := lane, phase := p))
  }

  function AfterPersisted(s: State, call: CallId, lane: Lane): State
    requires Has(s, call, lane) && Records(s, lane)[call].order < |s.orders|
  {
    if s.orders[Records(s, lane)[call].order].persist == PersistFailed then DropRecord(s, call, lane)
    else SetPhase(s, call, lane, AwaitRead)
  }

  /** `persistedTerminalResult`: more than one durable result is an error. */
  function AfterRead(s: State, call: CallId, lane: Lane): State
    requires Has(s, call, lane)
  {
    if Results(s.log, call) > 1 then DropRecord(s, call, lane)
    else SetPhase(s, call, lane, HaveRead(FirstResult(s.log, call)))
  }

  function SetKind(s: State, order: nat, k: Kind, sched: S.State<Terminal>): State
    requires order < |s.orders|
  {
    s.(sched := sched, orders := s.orders[order := s.orders[order].(kind := k)])
  }

  /** Hands the order to the scheduler; an order with an outcome makes the operation reject. */
  function Dispatch(s: State, call: CallId, lane: Lane): State
    requires Has(s, call, lane) && Records(s, lane)[call].phase.HaveRead?
    requires Records(s, lane)[call].order < |s.orders|
  {
    var order := Records(s, lane)[call].order;
    var durable := Records(s, lane)[call].phase.durable;
    if !S.Accepts(s.sched, order) then DropRecord(s, call, lane)
    else
      match lane
      case Execution =>
        var t := if durable.Some? then SetKind(s, order, Noop, S.Complete(s.sched, order, durable.value))
                 else SetKind(s, order, Store, S.Execute(s.sched, order));
        SetPhase(t, call, lane, AwaitResult)
      case Completion(result) =>
        if durable.Some? && durable.value != result then DropRecord(s, call, lane)
        else
          SetPhase(SetKind(s, order, if durable.Some? then Noop else Store, S.Complete(s.sched, order, result)),
                   call, lane, AwaitResult)
  }

  /** The caller's promise settled. */
  function AfterResult(s: State, call: CallId, lane: Lane): State
    requires Has(s, call, lane) && Records(s, lane)[call].order < |s.sched.entries|
  {
    match s.sched.entries[Records(s, lane)[call].order].promise
    case Pending => s
    case Rejected(_) => DropRecord(s, call, lane)
    case Resolved(v) => if v.Some? then SetPhase(s, call, lane, Done(v.value)) else s
  }

  /** The order whose commit is in flight, when that commit stores a result. */
  predicate Storing(s: State) {
    s.sched.committing && s.sched.nextCommit < |s.orders| && s.orders[s.sched.nextCommit].kind == Store
  }

  function StoreLands(s: State): State
    requires Storing(s) && s.sched.nextCommit < |s.sched.entries|
    requires s.sched.entries[s.sched.nextCommit].value.Some?
  {
    s.(log := s.log + [ToolResult(s.orders[s.sched.nextCommit].call, s.sched.entries[s.sched.nextCommit].value.value)],
       appendLanded := true)
  }

  datatype Action =
    | RecordCall(call: CallId, identity: string, concurrency: S.Concurrency)
    | Start(call: CallId, identity: string, concurrency: S.Concurrency, lane: Lane)
    | DoPersistRead(order: nat)
    | DoPersistAppended(order: nat)
    | DoPersistFailed(order: nat)
    | DoAfterPersisted(call: CallId, lane: Lane)
    | DoAfterRead(call: CallId, lane: Lane)
    | DoReadFailed(call: CallId, lane: Lane)
    | DoDispatch(call: CallId, lane: Lane)
    | DoAfterResult(call: CallId, lane: Lane)
    | DoBody(step: S.Action<Terminal>)
    | DoStoreLands
    | DoCommitFinished
    | DoCommitFailed(error: S.Thrown)
    | Restart(cap: nat)

  predicate IsBodyStep(a: S.Action<Terminal>) {
    a.DoBodyFinished? || a.DoBodyFailed? || a.DoSlotSettled? || a.DoSettleFailed?
  }

  predicate Enabled(s: State, a: Action) {
    match a
    case RecordCall(_, _, _) => true
    case Start(_, _, _, _) => true
    case DoPersistRead(o) => o < |s.orders| && s.orders[o].persist == Reading
    case DoPersistAppended(o) => o < |s.orders| && s.orders[o].persist == Appending
    case DoPersistFailed(o) => o < |s.orders| && s.orders[o].persist in {Reading, Appending}
    case DoAfterPersisted(call, lane) =>
      Has(s, call, lane) && var r := Records(s, lane)[call];
      r.order < |s.orders| && r.phase == AwaitPersisted && s.orders[r.order].persist in {Persisted, PersistFailed}
    case DoAfterRead(call, lane) => Has(s, call, lane) && Records(s, lane)[call].phase == AwaitRead
    case DoReadFailed(call, lane) => Has(s, call, lane) && Records(s, lane)[call].phase == AwaitRead
    case DoDispatch(call, lane) =>
      Has(s, call, lane) && Records(s, lane)[call].phase.HaveRead? && Records(s, lane)[call].order < |s.orders|
    case DoAfterResult(call, lane) =>
      Has(s, call, lane) && Records(s, lane)[call].phase == AwaitResult &&
      Records(s, lane)[call].order < |s.sched.entries|
    case DoBody(step) => IsBodyStep(step) && S.Enabled(s.sched, step)
    case DoStoreLands =>
      Storing(s) && !s.appendLanded && s.sched.nextCommit < |s.sched.entries| &&
      s.sched.entries[s.sched.nextCommit].value.Some?
    case DoCommitFinished => S.Enabled(s.sched, S.DoCommitFinished) && (Storing(s) ==> s.appendLanded)
    case DoCommitFailed(error) => S.Enabled(s.sched, S.DoCommitFailed(error)) && Storing(s) && !s.appendLanded
    case Restart(cap) => 1 <= cap
  }

  function Apply(s: State, a: Action): State
    requires Enabled(s, a)
  {
    match a
    case RecordCall(call, identity, c) => Register(s, call, identity, c, false).1
    case Start(call, identity, c, lane) => Begin(s, call, identity, c, lane)
    case DoPersistRead(o) => PersistRead(s, o)
    case DoPersistAppended(o) => PersistAppended(s, o)
    case DoPersistFailed(o) => FailPersist(s, o)
    case DoAfterPersisted(call, lane) => AfterPersisted(s, call, lane)
    case DoAfterRead(call, lane) => AfterRead(s, call, lane)
    case DoReadFailed(call, lane) => DropRecord(s, call, lane)
    case DoDispatch(call, lane) => Dispatch(s, call, lane)
    case DoAfterResult(call, lane) => AfterResult(s, call, lane)
    case DoBody(step) => s.(sched := S.Apply(s.sched, step))
    case DoStoreLands => StoreLands(s)
    case DoCommitFinished => s.(sched := S.CommitFinished(s.sched), appendLanded := false)
    case DoCommitFailed(error) => s.(sched := S.CommitFailed(s.sched, error))
    case Restart(cap) => Boot(s.log, cap)
  }

  /** No promise rejects with `undefined`. */
  predicate Clean(a: Action) {
    match a
    case DoBody(DoBodyFailed(_, error)) => error != S.Undefined
    case DoBody(DoSettleFailed(_, error)) => error != S.Undefined
    case DoCommitFailed(error) => error != S.Undefined
    case _ => true
  }

  predicate ValidRun(s: State, acts: seq<Action>)
    decreases |acts|
  {
    acts == [] || (Enabled(s, acts[0]) && ValidRun(Apply(s, acts[0]), acts[1..]))
  }

  function Run(s: State, acts: seq<Action>): State
    requires ValidRun(s, acts)
    decreases |acts|
  {
    if acts == [] then s else Run(Apply(s, acts[0]), acts[1..])
  }
}

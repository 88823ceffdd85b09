/** The tool scheduler, step by step. */
module SchedulerModel {
  // A state machine with one step per public call and one step per promise continuation.
  // The class in Scheduler.dfy refines these steps.

  import opened Wrappers

  datatype Concurrency = Safe | Exclusive

  /** A JavaScript rejection value; a rejection may carry `undefined`. */
  datatype Thrown = Undefined | Cause(message: string)

  /** Where the body of an entry is: `Stuck` is a rejected body or a rejected settle promise. */
  datatype Body = NotStarted | Running | Settling | Released | Stuck

  datatype Promise<T> = Pending | Resolved(result: Option<T>) | Rejected(error: Thrown)

  datatype Entry<T> = Entry(
    concurrency: Concurrency, hasRun: bool, hasCommit: bool, started: bool, ready: bool,
    value: Option<T>, body: Body, promise: Promise<T>)

  datatype Event<T> =
    | Start(order: nat)
    | Release(order: nat)
    | CommitCall(order: nat, value: Option<T>)
    | CommitDone(order: nat)

  datatype State<T> = State(
    cap: nat, entries: seq<Entry<T>>, runningSafe: int, exclusiveRunning: bool,
    nextCommit: nat, committing: bool, failed: Thrown, trace: seq<Event<T>>)

  function Init<T>(cap: nat): State<T> {
    State(cap, [], 0, false, 0, false, Undefined, [])
  }

  // ----- the steps -----

  function NewEntry<T>(c: Concurrency): Entry<T> {
    Entry(c, false, false, false, false, None, NotStarted, Pending)
  }

  /** An entry the pump may still have to start. */
  predicate IsPending<T>(e: Entry<T>) { !e.started && !e.ready }

  /** The slot of a body is held from its start until it has really stopped. */
  predicate Holding<T>(e: Entry<T>) { e.started && e.body != Released }

  predicate HasOutcome<T>(e: Entry<T>) { e.hasRun || e.ready }

  function FirstPending<T>(es: seq<Entry<T>>, from: nat): (r: nat)
    requires from <= |es|
    ensures from <= r <= |es|
    ensures forall k :: from <= k < r ==> !IsPending(es[k])
    ensures r < |es| ==> IsPending(es[r])
    decreases |es| - from
  {
    if from == |es| || IsPending(es[from]) then from else FirstPending(es, from + 1)
  }

  function StartBody<T>(s: State<T>, i: nat): State<T>
    requires i < |s.entries|
  {
    s.(entries := s.entries[i := s.entries[i].(started := true, body := Running)],
       trace := s.trace + [Start(i)])
  }

  function PumpSafe<T>(s: State<T>, index: nat): State<T>
    requires index <= |s.entries|
    decreases |s.entries| - index
  {
    if index == |s.entries| || s.runningSafe >= s.cap then s
    else if !IsPending(s.entries[index]) then PumpSafe(s, index + 1)
    else if s.entries[index].concurrency == Exclusive || !s.entries[index].hasRun then s
    else PumpSafe(StartBody(s.(runningSafe := s.runningSafe + 1), index), index + 1)
  }

  function Pump<T>(s: State<T>): State<T> {
    if s.failed != Undefined || s.exclusiveRunning then s
    else
      var pending := FirstPending(s.entries, 0);
      if pending == |s.entries| || !s.entries[pending].hasRun then s
      else if s.entries[pending].concurrency == Exclusive then
        if s.runningSafe > 0 then s else StartBody(s.(exclusiveRunning := true), pending)
      else PumpSafe(s, pending)
  }

  /** The commit that is due: the next entry in order, once it is ready. */
  predicate CommitDue<T>(s: State<T>) {
    s.nextCommit < |s.entries| && s.entries[s.nextCommit].ready && s.entries[s.nextCommit].hasCommit
  }

  /** One turn of the commit loop up to its next `await`, or its exit. */
  function CommitLoop<T>(s: State<T>): State<T> {
    if CommitDue(s)
    then s.(trace := s.trace + [CommitCall(s.nextCommit, s.entries[s.nextCommit].value)])
    else s.(committing := false)
  }

  function CommitReady<T>(s: State<T>): State<T> {
    if s.committing || s.failed != Undefined then s else CommitLoop(s.(committing := true))
  }

  /** Settling a promise twice has no effect. */
  function Reject<T>(e: Entry<T>, error: Thrown): Entry<T> {
    if e.promise.Pending? then e.(promise := Rejected(error)) else e
  }

  function RejectFrom<T>(es: seq<Entry<T>>, from: nat, error: Thrown): (r: seq<Entry<T>>)
    ensures |r| == |es|
    ensures forall k :: 0 <= k < |es| ==> r[k] == if k < from then es[k] else Reject(es[k], error)
  {
    seq(|es|, k requires 0 <= k < |es| => if k < from then es[k] else Reject(es[k], error))
  }

  function Fail<T>(s: State<T>, error: Thrown): State<T> {
    if s.failed != Undefined then s
    else s.(failed := error, entries := RejectFrom(s.entries, s.nextCommit, error))
  }

  function Register<T>(s: State<T>, c: Concurrency): State<T> {
    if s.failed != Undefined then s else s.(entries := s.entries + [NewEntry(c)])
  }

  /** `execute` and `complete` throw for an unknown order and for an order with an outcome. */
  predicate Accepts<T>(s: State<T>, order: nat) {
    order < |s.entries| && !HasOutcome(s.entries[order])
  }

  function SetRun<T>(s: State<T>, order: nat): State<T>
    requires order < |s.entries|
  {
    s.(entries := s.entries[order := s.entries[order].(hasRun := true, hasCommit := true)])
  }

  function Execute<T>(s: State<T>, order: nat): State<T> {
    if !Accepts(s, order) then s else Pump(SetRun(s, order))
  }

  function SetValue<T>(s: State<T>, order: nat, value: T): State<T>
    requires order < |s.entries|
  {
    s.(entries := s.entries[order := s.entries[order].(value := Some(value), ready := true, hasCommit := true)])
  }

  function Complete<T>(s: State<T>, order: nat, value: T): State<T> {
    if !Accepts(s, order) then s else Pump(CommitReady(SetValue(s, order, value)))
  }

  function EndBody<T>(s: State<T>, i: nat, value: T): State<T>
    requires i < |s.entries|
  {
    s.(entries := s.entries[i := s.entries[i].(value := Some(value), ready := true, body := Settling)])
  }

  function BodyFinished<T>(s: State<T>, i: nat, value: T): State<T>
    requires i < |s.entries|
  {
    CommitReady(EndBody(s, i, value))
  }

  function StickBody<T>(s: State<T>, i: nat): State<T>
    requires i < |s.entries|
  {
    s.(entries := s.entries[i := s.entries[i].(body := Stuck)])
  }

  function BodyFailed<T>(s: State<T>, i: nat, error: Thrown): State<T>
    requires i < |s.entries|
  {
    Fail(StickBody(s, i), error)
  }

  function ReleaseSlot<T>(s: State<T>, i: nat): State<T>
    requires i < |s.entries|
  {
    var safe := s.entries[i].concurrency == Safe;
    s.(runningSafe := if safe then s.runningSafe - 1 else s.runningSafe,
       exclusiveRunning := safe && s.exclusiveRunning,
       entries := s.entries[i := s.entries[i].(hasRun := false, body := Released)],
       trace := s.trace + [Release(i)])
  }

  function SlotSettled<T>(s: State<T>, i: nat): State<T>
    requires i < |s.entries|
  {
    Pump(ReleaseSlot(s, i))
  }

  function Resolve<T>(e: Entry<T>): Entry<T> {
    if e.promise.Pending? then e.(promise := Resolved(e.value)) else e
  }

  function CommitLanded<T>(s: State<T>): State<T>
    requires s.nextCommit < |s.entries|
  {
    s.(entries := s.entries[s.nextCommit := Resolve(s.entries[s.nextCommit])],
       nextCommit := s.nextCommit + 1, trace := s.trace + [CommitDone(s.nextCommit)])
  }

  function CommitFinished<T>(s: State<T>): State<T>
    requires s.nextCommit < |s.entries|
  {
    CommitLoop(CommitLanded(s))
  }

  function CommitFailed<T>(s: State<T>, error: Thrown): State<T> {
    Fail(s, error).(committing := false)
  }

  datatype Action<T> =
    | DoRegister(concurrency: Concurrency)
    | DoExecute(order: nat)
    | DoComplete(order: nat, value: T)
    | DoBodyFinished(index: nat, value: T)
    | DoBodyFailed(index: nat, error: Thrown)
    | DoSlotSettled(index: nat)
    | DoSettleFailed(index: nat, error: Thrown)
    | DoCommitFinished
    | DoCommitFailed(error: Thrown)

  /** Calls can come at any time; a continuation only when its promise is outstanding. */
  predicate Enabled<T>(s: State<T>, a: Action<T>) {
    match a
    case DoRegister(_) => true
    case DoExecute(_) => true
    case DoComplete(_, _) => true
    case DoBodyFinished(i, _) => i < |s.entries| && s.entries[i].body == Running
    case DoBodyFailed(i, _) => i < |s.entries| && s.entries[i].body == Running
    case DoSlotSettled(i) => i < |s.entries| && s.entries[i].body == Settling
    case DoSettleFailed(i, _) => i < |s.entries| && s.entries[i].body == Settling
    case DoCommitFinished => s.committing && s.nextCommit < |s.entries|
    case DoCommitFailed(_) => s.committing && s.nextCommit < |s.entries|
  }

  function Apply<T>(s: State<T>, a: Action<T>): State<T>
    requires Enabled(s, a)
  {
    match a
    case DoRegister(c) => Register(s, c)
    case DoExecute(order) => Execute(s, order)
    case DoComplete(order, v) => Complete(s, order, v)
    case DoBodyFinished(i, v) => BodyFinished(s, i, v)
    case DoBodyFailed(i, err) => BodyFailed(s, i, err)
    case DoSlotSettled(i) => SlotSettled(s, i)
    case DoSettleFailed(i, err) => BodyFailed(s, i, err)
    case DoCommitFinished => CommitFinished(s)
    case DoCommitFailed(err) => CommitFailed(s, err)
  }

  predicate ValidRun<T>(s: State<T>, acts: seq<Action<T>>)
    decreases |acts|
  {
    acts == [] || (Enabled(s, acts[0]) && ValidRun(Apply(s, acts[0]), acts[1..]))
  }

  function Run<T>(s: State<T>, acts: seq<Action<T>>): State<T>
    requires ValidRun(s, acts)
    decreases |acts|
  {
    if acts == [] then s else Run(Apply(s, acts[0]), acts[1..])
  }
}

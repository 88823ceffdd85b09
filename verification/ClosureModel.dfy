/** The turn closure gate. */
module ClosureModel {
  // Which turn of a session is registered, the one piece of work that closes it, the repair of a
  // failed closure, and the calls that wait for either.

  import opened Wrappers

  type SessionId = string

  /** The `closePromise` of a turn together with its `done`, which settles the same way. */
  datatype Closing = NotClosing | Closing | Closed | Failed

  /** `recovery` is the attempt held in the state object; a failed attempt is taken out again. */
  datatype Turn = Turn(session: SessionId, hasStop: bool, closing: Closing, recovery: Option<nat>)

  datatype Settled = Pending | Succeeded | Broke

  /** One call of `options.recover`. */
  datatype Repair = Repair(turn: nat, outcome: Settled)

  datatype Kind = BeforeOpen | Stop | Close

  datatype Wait = OnClosing | OnRepair(repair: nat) | Returned | Threw

  /** A pending call; `turn` is the state object it found, None when the session had none. */
  datatype Call = Call(kind: Kind, session: SessionId, turn: Option<nat>, wait: Wait)

  /** `works` lists the turns whose work function was started, in order. */
  datatype State = State(canRecover: bool, turns: seq<Turn>, active: map<SessionId, nat>,
                         repairs: seq<Repair>, calls: seq<Call>, works: seq<nat>)

  function Init(canRecover: bool): State {
    State(canRecover, [], map[], [], [], [])
  }

  ghost predicate Sound(s: State) {
    && (forall k :: k in s.active ==> s.active[k] < |s.turns| && s.turns[s.active[k]].session == k)
    && (forall r :: 0 <= r < |s.repairs| ==> s.repairs[r].turn < |s.turns|)
    && (forall t :: 0 <= t < |s.turns| && s.turns[t].recovery.Some? ==> s.turns[t].recovery.value < |s.repairs|)
    && (forall c :: 0 <= c < |s.calls| ==> CallSound(s, s.calls[c]))
  }

  predicate CallSound(s: State, c: Call) {
    && (c.turn.Some? ==> c.turn.value < |s.turns| && s.turns[c.turn.value].session == c.session)
    && (c.wait == OnClosing || c.wait.OnRepair? ==> c.turn.Some?)
    && (c.wait.OnRepair? ==> c.wait.repair < |s.repairs| && s.repairs[c.wait.repair].turn == c.turn.value)
  }

  function AddCall(s: State, c: Call): State {
    s.(calls := s.calls + [c])
  }

  /** The work function of a turn is called, at most once through `closePromise`. */
  function StartWork(s: State, t: nat): State
    requires t < |s.turns|
  {
    if s.turns[t].closing != NotClosing then s
    else s.(turns := s.turns[t := s.turns[t].(closing := Closing)], works := s.works + [t])
  }

  function OpenTurn(s: State, session: SessionId, hasStop: bool): State {
    if session in s.active then s
    else s.(turns := s.turns + [Turn(session, hasStop, NotClosing, None)], active := s.active[session := |s.turns|])
  }

  function CallBeforeOpen(s: State, session: SessionId): State {
    if session !in s.active then AddCall(s, Call(BeforeOpen, session, None, Returned))
    else AddCall(s, Call(BeforeOpen, session, Some(s.active[session]), OnClosing))
  }

  function CallStop(s: State, session: SessionId): State
    requires session in s.active ==> s.active[session] < |s.turns|
  {
    if session !in s.active then AddCall(s, Call(Stop, session, None, Returned))
    else
      var t := s.active[session];
      if s.turns[t].closing == NotClosing && !s.turns[t].hasStop then AddCall(s, Call(Stop, session, Some(t), Threw))
      else AddCall(StartWork(s, t), Call(Stop, session, Some(t), OnClosing))
  }

  function CallClose(s: State, t: nat): State
    requires t < |s.turns|
  {
    AddCall(StartWork(s, t), Call(Close, s.turns[t].session, Some(t), OnClosing))
  }

  /** `if (active.get(sessionId) === state) active.delete(sessionId)`. */
  function Unregister(s: State, t: nat): State
    requires t < |s.turns|
  {
    var session := s.turns[t].session;
    if session in s.active && s.active[session] == t then s.(active := s.active - {session}) else s
  }

  function WorkDone(s: State, t: nat): State
    requires t < |s.turns|
  {
    Unregister(s.(turns := s.turns[t := s.turns[t].(closing := Closed)]), t)
  }

  function WorkFails(s: State, t: nat): State
    requires t < |s.turns|
  {
    s.(turns := s.turns[t := s.turns[t].(closing := Failed)])
  }

  function SetWait(s: State, c: nat, wait: Wait): State
    requires c < |s.calls|
  {
    s.(calls := s.calls[c := s.calls[c].(wait := wait)])
  }

  /** `recoverOrThrow` after the closure failed: join the running repair or start one. */
  function Recover(s: State, c: nat, t: nat): State
    requires c < |s.calls| && t < |s.turns|
  {
    if !s.canRecover then SetWait(s, c, Threw)
    else if s.turns[t].recovery.Some? then SetWait(s, c, OnRepair(s.turns[t].recovery.value))
    else
      var u := s.(repairs := s.repairs + [Repair(t, Pending)],
                  turns := s.turns[t := s.turns[t].(recovery := Some(|s.repairs|))]);
      SetWait(u, c, OnRepair(|s.repairs|))
  }

  /** The closing promise a call waits for has settled. */
  function WakeClosing(s: State, c: nat): State
    requires c < |s.calls| && s.calls[c].turn.Some? && s.calls[c].turn.value < |s.turns|
  {
    var t := s.calls[c].turn.value;
    if s.turns[t].closing == Closed then SetWait(s, c, Returned)
    else if s.calls[c].kind == Close then SetWait(s, c, Threw)
    else Recover(s, c, t)
  }

  function WakeRepair(s: State, c: nat): State
    requires c < |s.calls| && s.calls[c].wait.OnRepair? && s.calls[c].wait.repair < |s.repairs|
  {
    SetWait(s, c, if s.repairs[s.calls[c].wait.repair].outcome == Succeeded then Returned else Threw)
  }

  function RepairDone(s: State, r: nat): State
    requires r < |s.repairs| && s.repairs[r].turn < |s.turns|
  {
    Unregister(s.(repairs := s.repairs[r := s.repairs[r].(outcome := Succeeded)]), s.repairs[r].turn)
  }

  function RepairFails(s: State, r: nat): State
    requires r < |s.repairs| && s.repairs[r].turn < |s.turns|
  {
    var t := s.repairs[r].turn;
    s.(repairs := s.repairs[r := s.repairs[r].(outcome := Broke)], turns := s.turns[t := s.turns[t].(recovery := None)])
  }

  datatype Action =
    | DoOpen(session: SessionId, hasStop: bool)
    | DoBeforeOpen(session: SessionId)
    | DoStop(session: SessionId)
    | DoClose(turn: nat)
    | DoWorkDone(turn: nat)
    | DoWorkFails(turn: nat)
    | DoWakeClosing(call: nat)
    | DoRepairDone(repair: nat)
    | DoRepairFails(repair: nat)
    | DoWakeRepair(call: nat)

  ghost predicate Enabled(s: State, a: Action) {
    && Sound(s)
    && match a
       case DoClose(t) => t < |s.turns|
       case DoWorkDone(t) => t < |s.turns| && s.turns[t].closing == Closing
       case DoWorkFails(t) => t < |s.turns| && s.turns[t].closing == Closing
       case DoWakeClosing(c) =>
         c < |s.calls| && s.calls[c].wait == OnClosing &&
         (s.turns[s.calls[c].turn.value].closing == Closed || s.turns[s.calls[c].turn.value].closing == Failed)
       case DoRepairDone(r) => r < |s.repairs| && s.repairs[r].outcome == Pending
       case DoRepairFails(r) => r < |s.repairs| && s.repairs[r].outcome == Pending
       case DoWakeRepair(c) =>
         c < |s.calls| && s.calls[c].wait.OnRepair? && s.repairs[s.calls[c].wait.repair].outcome != Pending
       case _ => true
  }

  ghost function Apply(s: State, a: Action): State
    requires Enabled(s, a)
  {
    match a
    case DoOpen(session, hasStop) => OpenTurn(s, session, hasStop)
    case DoBeforeOpen(session) => CallBeforeOpen(s, session)
    case DoStop(session) => CallStop(s, session)
    case DoClose(t) => CallClose(s, t)
    case DoWorkDone(t) => WorkDone(s, t)
    case DoWorkFails(t) => WorkFails(s, t)
    case DoWakeClosing(c) => WakeClosing(s, c)
    case DoRepairDone(r) => RepairDone(s, r)
    case DoRepairFails(r) => RepairFails(s, r)
    case DoWakeRepair(c) => WakeRepair(s, c)
  }

  ghost predicate ValidRun(s: State, acts: seq<Action>)
    decreases |acts|
  {
    acts == [] || (Enabled(s, acts[0]) && ValidRun(Apply(s, acts[0]), acts[1..]))
  }

  ghost function Run(s: State, acts: seq<Action>): State
    requires ValidRun(s, acts)
    decreases |acts|
  {
    if acts == [] then s else Run(Apply(s, acts[0]), acts[1..])
  }
}

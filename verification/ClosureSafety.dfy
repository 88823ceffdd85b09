/** One closing work and one repair of a turn at a time. */
module ClosureSafety {
  // What the closure gate keeps on every run: registration, single work, single repair.

  import opened Wrappers
  import opened ClosureModel

  /** The turn is durably closed: by its own work or by a repair of the failed work. */
  predicate Over(s: State, t: nat)
    requires t < |s.turns|
  {
    var turn := s.turns[t];
    turn.closing == Closed ||
    (turn.recovery.Some? && turn.recovery.value < |s.repairs| && s.repairs[turn.recovery.value].outcome == Succeeded)
  }

  predicate Registered(s: State, t: nat)
    requires t < |s.turns|
  {
    s.turns[t].session in s.active && s.active[s.turns[t].session] == t
  }

  function WorkCount(works: seq<nat>, t: nat): nat {
    if works == [] then 0
    else WorkCount(works[..|works| - 1], t) + if works[|works| - 1] == t then 1 else 0
  }

  ghost predicate TurnOk(s: State, t: nat)
    requires t < |s.turns|
  {
    var turn := s.turns[t];
    && (Registered(s, t) <==> !Over(s, t))
    && (turn.recovery.Some? ==>
          && turn.closing == Failed && s.canRecover && turn.recovery.value < |s.repairs|
          && s.repairs[turn.recovery.value].turn == t && s.repairs[turn.recovery.value].outcome != Broke)
    && WorkCount(s.works, t) == (if turn.closing == NotClosing then 0 else 1)
  }

  /** A repair that runs or succeeded is the one held in its turn. */
  ghost predicate RepairOk(s: State, r: nat)
    requires r < |s.repairs|
  {
    var repair := s.repairs[r];
    repair.turn < |s.turns| && (repair.outcome != Broke ==> s.turns[repair.turn].recovery == Some(r))
  }

  /** A call that returned normally found its turn over, and stays right about it. */
  predicate CallOk(s: State, c: Call)
    requires CallSound(s, c)
  {
    && (c.wait == Returned && c.turn.Some? ==> Over(s, c.turn.value))
    && (c.kind == Close ==> c.turn.Some? && !c.wait.OnRepair?)
    && (c.kind == Close && c.wait == Returned ==> s.turns[c.turn.value].closing == Closed)
  }

  ghost predicate Inv(s: State) {
    && Sound(s)
    && (forall t :: 0 <= t < |s.turns| ==> TurnOk(s, t))
    && (forall r :: 0 <= r < |s.repairs| ==> RepairOk(s, r))
    && (forall c :: 0 <= c < |s.calls| ==> CallOk(s, s.calls[c]))
  }

  // ----- the parts of a step -----

  lemma WorkCountAppend(works: seq<nat>, w: nat, t: nat)
    ensures WorkCount(works + [w], t) == WorkCount(works, t) + if w == t then 1 else 0
  {
    assert (works + [w])[..|works + [w]| - 1] == works;
  }

  lemma AddCallKeepsInv(s: State, c: Call)
    requires Inv(s) && CallSound(s, c) && CallOk(s, c)
    ensures Inv(AddCall(s, c))
  {
    hide WorkCount;
    var u := AddCall(s, c);
    forall t | 0 <= t < |u.turns| ensures TurnOk(u, t) { assert TurnOk(s, t); }
    forall r | 0 <= r < |u.repairs| ensures RepairOk(u, r) { assert RepairOk(s, r); }
    forall k | 0 <= k < |u.calls| ensures CallSound(u, u.calls[k]) && CallOk(u, u.calls[k]) {
      if k < |s.calls| { assert CallSound(s, s.calls[k]) && CallOk(s, s.calls[k]); }
    }
  }

  lemma StartWorkKeepsInv(s: State, t: nat)
    requires Inv(s) && t < |s.turns|
    ensures Inv(StartWork(s, t))
  {
    hide WorkCount;
    var u := StartWork(s, t);
    forall k | 0 <= k < |u.turns| ensures TurnOk(u, k) {
      assert TurnOk(s, k);
      WorkCountAppend(s.works, t, k);
    }
    forall r | 0 <= r < |u.repairs| ensures RepairOk(u, r) { assert RepairOk(s, r); }
    forall k | 0 <= k < |u.calls| ensures CallSound(u, u.calls[k]) && CallOk(u, u.calls[k]) {
      assert CallSound(s, s.calls[k]) && CallOk(s, s.calls[k]);
    }
  }

  lemma {:induction false} NoWorkYet(works: seq<nat>, t: nat)
    requires forall i :: 0 <= i < |works| ==> works[i] < t
    ensures WorkCount(works, t) == 0
  {
    if works != [] { NoWorkYet(works[..|works| - 1], t); }
  }

  /** Works are started for turns that exist. */
  ghost predicate WorksExist(s: State) {
    forall i :: 0 <= i < |s.works| ==> s.works[i] < |s.turns|
  }

  lemma OpenKeepsInv(s: State, session: SessionId, hasStop: bool)
    requires Inv(s) && WorksExist(s)
    ensures Inv(OpenTurn(s, session, hasStop))
  {
    hide WorkCount;
    var u := OpenTurn(s, session, hasStop);
    if session !in s.active {
      NoWorkYet(s.works, |s.turns|);
      forall t | 0 <= t < |u.turns| ensures TurnOk(u, t) {
        if t < |s.turns| { assert TurnOk(s, t); }
      }
      forall r | 0 <= r < |u.repairs| ensures RepairOk(u, r) { assert RepairOk(s, r); }
      forall k | 0 <= k < |u.calls| ensures CallSound(u, u.calls[k]) && CallOk(u, u.calls[k]) {
        assert CallSound(s, s.calls[k]) && CallOk(s, s.calls[k]);
      }
    }
  }

  lemma WorkDoneKeepsInv(s: State, t: nat)
    requires Inv(s) && t < |s.turns| && s.turns[t].closing == Closing
    ensures Inv(WorkDone(s, t))
  {
    hide WorkCount;
    var u := WorkDone(s, t);
    assert TurnOk(s, t);
    forall k | 0 <= k < |u.turns| ensures TurnOk(u, k) { assert TurnOk(s, k); }
    forall r | 0 <= r < |u.repairs| ensures RepairOk(u, r) { assert RepairOk(s, r); }
    forall k | 0 <= k < |u.calls| ensures CallSound(u, u.calls[k]) && CallOk(u, u.calls[k]) {
      assert CallSound(s, s.calls[k]) && CallOk(s, s.calls[k]);
    }
  }

  lemma WorkFailsKeepsInv(s: State, t: nat)
    requires Inv(s) && t < |s.turns| && s.turns[t].closing == Closing
    ensures Inv(WorkFails(s, t))
  {
    hide WorkCount;
    var u := WorkFails(s, t);
    assert TurnOk(s, t);
    forall k | 0 <= k < |u.turns| ensures TurnOk(u, k) { assert TurnOk(s, k); }
    forall r | 0 <= r < |u.repairs| ensures RepairOk(u, r) { assert RepairOk(s, r); }
    forall k | 0 <= k < |u.calls| ensures CallSound(u, u.calls[k]) && CallOk(u, u.calls[k]) {
      assert CallSound(s, s.calls[k]) && CallOk(s, s.calls[k]);
    }
  }

  lemma SetWaitKeepsInv(s: State, c: nat, wait: Wait)
    requires Inv(s) && c < |s.calls|
    requires CallSound(s, s.calls[c].(wait := wait)) && CallOk(s, s.calls[c].(wait := wait))
    ensures Inv(SetWait(s, c, wait))
  {
    hide WorkCount;
    var u := SetWait(s, c, wait);
    forall t | 0 <= t < |u.turns| ensures TurnOk(u, t) { assert TurnOk(s, t); }
    forall r | 0 <= r < |u.repairs| ensures RepairOk(u, r) { assert RepairOk(s, r); }
    forall k | 0 <= k < |u.calls| ensures CallSound(u, u.calls[k]) && CallOk(u, u.calls[k]) {
      assert CallSound(s, s.calls[k]) && CallOk(s, s.calls[k]);
    }
  }

  /** Starting a repair of a failed turn that holds none. */
  lemma StartRepairKeepsInv(s: State, t: nat)
    requires Inv(s) && s.canRecover && t < |s.turns| && s.turns[t].closing == Failed && s.turns[t].recovery.None?
    ensures Inv(s.(repairs := s.repairs + [Repair(t, Pending)],
                   turns := s.turns[t := s.turns[t].(recovery := Some(|s.repairs|))]))
  {
    hide WorkCount;
    var u := s.(repairs := s.repairs + [Repair(t, Pending)],
                turns := s.turns[t := s.turns[t].(recovery := Some(|s.repairs|))]);
    forall k | 0 <= k < |u.turns| ensures TurnOk(u, k) { assert TurnOk(s, k); }
    forall r | 0 <= r < |u.repairs| ensures RepairOk(u, r) {
      if r < |s.repairs| { assert RepairOk(s, r); }
    }
    forall k | 0 <= k < |u.calls| ensures CallSound(u, u.calls[k]) && CallOk(u, u.calls[k]) {
      assert CallSound(s, s.calls[k]) && CallOk(s, s.calls[k]);
    }
  }

  lemma WakeClosingKeepsInv(s: State, c: nat)
    requires Inv(s) && Enabled(s, DoWakeClosing(c))
    ensures Inv(WakeClosing(s, c))
  {
    hide WorkCount, Inv;
    assert CallSound(s, s.calls[c]) && CallOk(s, s.calls[c]) by { CallHolds(s, c); }
    var t := s.calls[c].turn.value;
    if s.turns[t].closing == Closed {
      SetWaitKeepsInv(s, c, Returned);
    } else if s.calls[c].kind == Close || !s.canRecover {
      SetWaitKeepsInv(s, c, Threw);
    } else {
      TurnHolds(s, t);
      var u := s;
      if s.turns[t].recovery.None? {
        StartRepairKeepsInv(s, t);
        u := s.(repairs := s.repairs + [Repair(t, Pending)],
                turns := s.turns[t := s.turns[t].(recovery := Some(|s.repairs|))]);
      }
      SetWaitKeepsInv(u, c, OnRepair(u.turns[t].recovery.value));
    }
  }

  lemma CallHolds(s: State, c: nat)
    requires Inv(s) && c < |s.calls|
    ensures CallSound(s, s.calls[c]) && CallOk(s, s.calls[c])
  {
  }

  lemma TurnHolds(s: State, t: nat)
    requires Inv(s) && t < |s.turns|
    ensures TurnOk(s, t)
  {
  }

  lemma RepairHolds(s: State, r: nat)
    requires Inv(s) && r < |s.repairs|
    ensures RepairOk(s, r)
  {
  }

  lemma WakeRepairKeepsInv(s: State, c: nat)
    requires Inv(s) && Enabled(s, DoWakeRepair(c))
    ensures Inv(WakeRepair(s, c))
  {
    hide WorkCount, Inv;
    CallHolds(s, c);
    RepairHolds(s, s.calls[c].wait.repair);
    SetWaitKeepsInv(s, c, WakeRepair(s, c).calls[c].wait);
  }

  lemma RepairDoneKeepsInv(s: State, r: nat)
    requires Inv(s) && Enabled(s, DoRepairDone(r))
    ensures Inv(RepairDone(s, r))
  {
    hide WorkCount;
    var u := RepairDone(s, r);
    assert RepairOk(s, r);
    forall t | 0 <= t < |u.turns| ensures TurnOk(u, t) { assert TurnOk(s, t); }
    forall k | 0 <= k < |u.repairs| ensures RepairOk(u, k) { assert RepairOk(s, k); }
    forall k | 0 <= k < |u.calls| ensures CallSound(u, u.calls[k]) && CallOk(u, u.calls[k]) {
      assert CallSound(s, s.calls[k]) && CallOk(s, s.calls[k]);
    }
  }

  lemma RepairFailsKeepsInv(s: State, r: nat)
    requires Inv(s) && Enabled(s, DoRepairFails(r))
    ensures Inv(RepairFails(s, r))
  {
    hide WorkCount;
    var u := RepairFails(s, r);
    assert RepairOk(s, r);
    forall t | 0 <= t < |u.turns| ensures TurnOk(u, t) { assert TurnOk(s, t); }
    forall k | 0 <= k < |u.repairs| ensures RepairOk(u, k) { assert RepairOk(s, k); }
    forall k | 0 <= k < |u.calls| ensures CallSound(u, u.calls[k]) && CallOk(u, u.calls[k]) {
      assert CallSound(s, s.calls[k]) && CallOk(s, s.calls[k]);
    }
  }

  lemma StopKeepsInv(s: State, session: SessionId)
    requires Inv(s)
    ensures Inv(CallStop(s, session))
  {
    hide WorkCount, Inv;
    ActiveHolds(s);
    if session !in s.active {
      AddCallKeepsInv(s, Call(Stop, session, None, Returned));
    } else {
      var t := s.active[session];
      if s.turns[t].closing == NotClosing && !s.turns[t].hasStop {
        AddCallKeepsInv(s, Call(Stop, session, Some(t), Threw));
      } else {
        StartWorkKeepsInv(s, t);
        AddCallKeepsInv(StartWork(s, t), Call(Stop, session, Some(t), OnClosing));
      }
    }
  }

  lemma ActiveHolds(s: State)
    requires Inv(s)
    ensures forall k :: k in s.active ==> s.active[k] < |s.turns| && s.turns[s.active[k]].session == k
  {
  }

  lemma WorksStayExist(s: State, a: Action)
    requires Inv(s) && WorksExist(s) && Enabled(s, a)
    ensures WorksExist(Apply(s, a))
  {
    hide Inv;
    ActiveHolds(s);
  }

  lemma StepKeepsInv(s: State, a: Action)
    requires Inv(s) && WorksExist(s) && Enabled(s, a)
    ensures Inv(Apply(s, a)) && WorksExist(Apply(s, a))
  {
    hide Inv, Sound, WorksExist, OpenTurn, WorkDone, WorkFails, WakeClosing, RepairDone, RepairFails, WakeRepair, StartWork, Recover;
    WorksStayExist(s, a);
    match a {
      case DoOpen(session, hasStop) => OpenKeepsInv(s, session, hasStop);
      case DoBeforeOpen(session) =>
        ActiveHolds(s);
        AddCallKeepsInv(s, CallBeforeOpen(s, session).calls[|s.calls|]);
      case DoStop(session) => StopKeepsInv(s, session);
      case DoClose(t) =>
        StartWorkKeepsInv(s, t);
        assert StartWork(s, t).turns[t].session == s.turns[t].session && |StartWork(s, t).turns| == |s.turns| by { StartWorkSame(s, t); }
        AddCallKeepsInv(StartWork(s, t), Call(Close, s.turns[t].session, Some(t), OnClosing));
      case DoWorkDone(t) => WorkDoneKeepsInv(s, t);
      case DoWorkFails(t) => WorkFailsKeepsInv(s, t);
      case DoWakeClosing(c) => WakeClosingKeepsInv(s, c);
      case DoRepairDone(r) => RepairDoneKeepsInv(s, r);
      case DoRepairFails(r) => RepairFailsKeepsInv(s, r);
      case DoWakeRepair(c) => WakeRepairKeepsInv(s, c);
    }
  }

  lemma StartWorkSame(s: State, t: nat)
    requires t < |s.turns|
    ensures |StartWork(s, t).turns| == |s.turns| && StartWork(s, t).turns[t].session == s.turns[t].session
  {
  }

  lemma {:induction false} RunKeepsInv(s: State, acts: seq<Action>)
    requires Inv(s) && WorksExist(s) && ValidRun(s, acts)
    ensures Inv(Run(s, acts)) && WorksExist(Run(s, acts))
    decreases |acts|
  {
    hide Inv, Enabled, Apply, WorksExist;
    if acts != [] {
      StepKeepsInv(s, acts[0]);
      RunKeepsInv(Apply(s, acts[0]), acts[1..]);
    }
  }

  // ----- the theorems -----

  predicate Busy(s: State, t: nat)
    requires t < |s.turns|
  {
    s.turns[t].closing == Closing
  }

  /**
   On every run a turn is registered exactly until it is durably closed, its work function runs
   at most once, no two repairs of a session are under way together nor one beside a closing
   work, and a call that returned normally has seen its own turn leave the gate.
   */
  lemma GateOnEveryRun(canRecover: bool, acts: seq<Action>)
    requires ValidRun(Init(canRecover), acts)
    ensures var s := Run(Init(canRecover), acts);
      && (forall t :: 0 <= t < |s.turns| ==> (Registered(s, t) <==> !Over(s, t)) && WorkCount(s.works, t) <= 1)
      && (forall r, q :: 0 <= r < |s.repairs| && 0 <= q < |s.repairs| && s.repairs[r].outcome == s.repairs[q].outcome == Pending ==>
            s.repairs[r].turn < |s.turns| && s.repairs[q].turn < |s.turns| &&
            (s.turns[s.repairs[r].turn].session == s.turns[s.repairs[q].turn].session ==> r == q))
      && (forall r, t :: 0 <= r < |s.repairs| && 0 <= t < |s.turns| && s.repairs[r].outcome == Pending && Busy(s, t) ==>
            s.repairs[r].turn < |s.turns| && s.turns[s.repairs[r].turn].session != s.turns[t].session)
      && (forall c :: 0 <= c < |s.calls| && s.calls[c].wait == Returned && s.calls[c].turn.Some? ==>
            s.calls[c].turn.value < |s.turns| && !Registered(s, s.calls[c].turn.value))
  {
    hide ValidRun, Run, WorkCount;
    var s := Run(Init(canRecover), acts);
    RunKeepsInv(Init(canRecover), acts);
    forall t | 0 <= t < |s.turns| ensures (Registered(s, t) <==> !Over(s, t)) && WorkCount(s.works, t) <= 1 {
      assert TurnOk(s, t);
    }
    forall r, q | 0 <= r < |s.repairs| && 0 <= q < |s.repairs| && s.repairs[r].outcome == s.repairs[q].outcome == Pending
      ensures s.repairs[r].turn < |s.turns| && s.repairs[q].turn < |s.turns| &&
              (s.turns[s.repairs[r].turn].session == s.turns[s.repairs[q].turn].session ==> r == q)
    {
      PendingRegistered(s, r);
      PendingRegistered(s, q);
    }
    forall r, t | 0 <= r < |s.repairs| && 0 <= t < |s.turns| && s.repairs[r].outcome == Pending && Busy(s, t)
      ensures s.repairs[r].turn < |s.turns| && s.turns[s.repairs[r].turn].session != s.turns[t].session
    {
      PendingRegistered(s, r);
      assert TurnOk(s, t);
    }
    forall c | 0 <= c < |s.calls| && s.calls[c].wait == Returned && s.calls[c].turn.Some?
      ensures s.calls[c].turn.value < |s.turns| && !Registered(s, s.calls[c].turn.value)
    {
      assert CallSound(s, s.calls[c]) && CallOk(s, s.calls[c]);
      assert TurnOk(s, s.calls[c].turn.value);
    }
  }

  /** A repair under way holds its failed turn registered. */
  lemma PendingRegistered(s: State, r: nat)
    requires Inv(s) && r < |s.repairs| && s.repairs[r].outcome == Pending
    ensures s.repairs[r].turn < |s.turns| && Registered(s, s.repairs[r].turn)
    ensures s.turns[s.repairs[r].turn].closing == Failed && s.turns[s.repairs[r].turn].recovery == Some(r)
  {
    hide WorkCount;
    assert RepairOk(s, r);
    assert TurnOk(s, s.repairs[r].turn);
  }

  /** `open` goes through exactly when every earlier turn of the session is over. */
  lemma OpensIffAllOver(s: State, session: SessionId, hasStop: bool)
    requires Inv(s)
    ensures |OpenTurn(s, session, hasStop).turns| == |s.turns| + 1 <==>
            forall t :: 0 <= t < |s.turns| && s.turns[t].session == session ==> Over(s, t)
  {
    hide WorkCount;
    if session in s.active {
      assert TurnOk(s, s.active[session]);
    } else {
      forall t | 0 <= t < |s.turns| && s.turns[t].session == session ensures Over(s, t) { assert TurnOk(s, t); }
    }
  }

  ghost predicate Blocked(s: State, t: nat) {
    t < |s.turns| && s.turns[t].closing == Failed && s.turns[t].recovery.None? && !s.canRecover && Registered(s, t)
  }

  /** Without `recover` a failed closure is never undone, whatever is called. */
  lemma {:induction false} FailureBlocksForever(s: State, acts: seq<Action>, t: nat)
    requires Inv(s) && WorksExist(s) && Blocked(s, t) && ValidRun(s, acts)
    ensures Blocked(Run(s, acts), t)
    ensures forall hasStop :: OpenTurn(Run(s, acts), s.turns[t].session, hasStop) == Run(s, acts)
    decreases |acts|
  {
    hide Inv, Enabled, Apply, WorksExist;
    if acts != [] {
      StepKeepsInv(s, acts[0]);
      BlockedStep(s, acts[0], t);
      FailureBlocksForever(Apply(s, acts[0]), acts[1..], t);
    }
  }

  lemma BlockedStep(s: State, a: Action, t: nat)
    requires Inv(s) && Enabled(s, a) && Blocked(s, t)
    ensures Blocked(Apply(s, a), t) && Apply(s, a).turns[t].session == s.turns[t].session
  {
    hide WorkCount;
    match a {
      case DoRepairDone(r) => PendingRegistered(s, r);
      case DoRepairFails(r) => PendingRegistered(s, r);
      case _ => assert TurnOk(s, t);
    }
  }
}

/** Who returns, who throws. */
module ClosureOrigins {
  // The fate of every call of the closure gate, told by the actions of the run: which work and which
  // repair settled how, and what each pending call was answered.

  import opened Wrappers
  import opened ClosureModel
  import opened ClosureSafety

  // ----- what is traced back -----

  /** A turn was opened as it is, its closing work settled as recorded, and only Stop or `close` started it. */
  ghost predicate TurnTraced(s: State, t: nat, acts: seq<Action>)
    requires t < |s.turns|
  {
    var turn := s.turns[t];
    && DoOpen(turn.session, turn.hasStop) in acts
    && (turn.closing == Closed <==> DoWorkDone(t) in acts)
    && (turn.closing == Failed <==> DoWorkFails(t) in acts)
    && (turn.closing != NotClosing ==> DoClose(t) in acts || (turn.hasStop && DoStop(turn.session) in acts))
    && (DoClose(t) in acts ==> turn.closing != NotClosing)
  }

  ghost predicate RepairTraced(s: State, r: nat, acts: seq<Action>)
    requires r < |s.repairs|
  {
    && (s.repairs[r].outcome == Succeeded <==> DoRepairDone(r) in acts)
    && (s.repairs[r].outcome == Broke <==> DoRepairFails(r) in acts)
  }

  predicate Waited(c: nat, acts: seq<Action>) {
    DoWakeClosing(c) in acts
  }

  /** A repair of the turn ended that way. */
  ghost predicate Repaired(s: State, t: nat, outcome: Settled) {
    exists r :: 0 <= r < |s.repairs| && s.repairs[r] == Repair(t, outcome)
  }

  /** Never woken: still waiting, a Stop or `close` for a closing under way or settled; or answered at once because there was no turn, or no Stop to start. */
  ghost predicate NotWoken(s: State, c: nat)
    requires c < |s.calls|
  {
    var call := s.calls[c];
    || (call.wait == OnClosing && call.turn.Some? && call.turn.value < |s.turns|
        && (call.kind == BeforeOpen || s.turns[call.turn.value].closing != NotClosing))
    || (call.wait == Returned && call.turn.None? && call.kind != Close)
    || (call.wait == Threw && call.kind == Stop && call.turn.Some? && call.turn.value < |s.turns| && !s.turns[call.turn.value].hasStop)
  }

  /** Woken by the settled closing of its turn: answered with it, or sent on to a repair. */
  ghost predicate Woken(s: State, c: nat, acts: seq<Action>)
    requires c < |s.calls|
  {
    var call := s.calls[c];
    && call.turn.Some? && call.turn.value < |s.turns|
    && match s.turns[call.turn.value].closing
       case Closed => call.wait == Returned
       case Failed =>
         if call.kind == Close || !s.canRecover then call.wait == Threw
         else if DoWakeRepair(c) in acts then
           || (call.wait == Returned && Repaired(s, call.turn.value, Succeeded))
           || (call.wait == Threw && Repaired(s, call.turn.value, Broke))
         else call.wait.OnRepair?
       case _ => false
  }

  ghost predicate CallTraced(s: State, c: nat, acts: seq<Action>)
    requires c < |s.calls|
  {
    if Waited(c, acts) then Woken(s, c, acts) else NotWoken(s, c) && DoWakeRepair(c) !in acts
  }

  /** Continuations belong to turns, repairs and calls there are. */
  ghost predicate InRange(s: State, acts: seq<Action>) {
    forall a :: a in acts ==>
      match a
      case DoWorkDone(t) => t < |s.turns|
      case DoWorkFails(t) => t < |s.turns|
      case DoRepairDone(r) => r < |s.repairs|
      case DoRepairFails(r) => r < |s.repairs|
      case DoClose(t) => t < |s.turns|
      case DoWakeClosing(c) => c < |s.calls|
      case DoWakeRepair(c) => c < |s.calls|
      case _ => true
  }

  ghost predicate Traced(s: State, acts: seq<Action>) {
    && InRange(s, acts)
    && (forall t: nat :: t < |s.turns| ==> TurnTraced(s, t, acts))
    && (forall r: nat :: r < |s.repairs| ==> RepairTraced(s, r, acts))
    && (forall c: nat :: c < |s.calls| ==> CallTraced(s, c, acts))
  }

  // ----- what one step leaves -----

  /** Lengths only grow. */
  predicate Longer(s: State, u: State) {
    |s.turns| <= |u.turns| && |s.repairs| <= |u.repairs| && |s.calls| <= |u.calls| && u.canRecover == s.canRecover
  }

  lemma StepLonger(s: State, a: Action, acts: seq<Action>)
    requires InRange(s, acts) && Enabled(s, a)
    ensures Longer(s, Apply(s, a)) && InRange(Apply(s, a), acts + [a])
  {
  }

  lemma StepTurn(s: State, a: Action, acts: seq<Action>, t: nat)
    requires InRange(s, acts) && Enabled(s, a) && t < |Apply(s, a).turns|
    requires t < |s.turns| ==> TurnTraced(s, t, acts)
    ensures TurnTraced(Apply(s, a), t, acts + [a])
  {
    assert a in acts + [a] && forall b :: b in acts ==> b in acts + [a];
  }

  lemma StepRepair(s: State, a: Action, acts: seq<Action>, r: nat)
    requires Inv(s) && InRange(s, acts) && Enabled(s, a) && r < |Apply(s, a).repairs|
    requires r < |s.repairs| ==> RepairTraced(s, r, acts)
    ensures RepairTraced(Apply(s, a), r, acts + [a])
  {
    hide TurnOk, RepairOk, CallOk;
    assert a in acts + [a] && forall b :: b in acts ==> b in acts + [a];
  }

  /** Turns that settled and repairs that ended stay so. */
  predicate Settles(s: State, u: State) {
    && Longer(s, u)
    && (forall t: nat :: t < |s.turns| ==> TurnSettles(s.turns[t], u.turns[t]))
    && (forall r: nat :: r < |s.repairs| ==> RepairSettles(s.repairs[r], u.repairs[r]))
  }

  predicate TurnSettles(turn: Turn, later: Turn) {
    && later.hasStop == turn.hasStop
    && (turn.closing == Closed || turn.closing == Failed ==> later.closing == turn.closing)
    && (turn.closing != NotClosing ==> later.closing != NotClosing)
  }

  predicate RepairSettles(repair: Repair, later: Repair) {
    later.turn == repair.turn && (repair.outcome != Pending ==> later == repair)
  }

  lemma StepSettlesTurn(s: State, a: Action, t: nat)
    requires Enabled(s, a) && t < |s.turns|
    ensures t < |Apply(s, a).turns| && TurnSettles(s.turns[t], Apply(s, a).turns[t])
  {
  }

  lemma StepSettlesRepair(s: State, a: Action, r: nat)
    requires Enabled(s, a) && r < |s.repairs|
    ensures r < |Apply(s, a).repairs| && RepairSettles(s.repairs[r], Apply(s, a).repairs[r])
  {
  }

  lemma StepSettles(s: State, a: Action)
    requires Enabled(s, a)
    ensures Settles(s, Apply(s, a))
  {
    hide Enabled, Apply;
    StepLonger(s, a, []);
    forall t: nat | t < |s.turns| ensures TurnSettles(s.turns[t], Apply(s, a).turns[t]) { StepSettlesTurn(s, a, t); }
    forall r: nat | r < |s.repairs| ensures RepairSettles(s.repairs[r], Apply(s, a).repairs[r]) { StepSettlesRepair(s, a, r); }
  }

  lemma CallKept(s: State, u: State, c: nat, acts: seq<Action>, a: Action)
    requires Settles(s, u) && c < |s.calls| && u.calls[c] == s.calls[c] && CallTraced(s, c, acts)
    requires a != DoWakeClosing(c) && a != DoWakeRepair(c)
    ensures CallTraced(u, c, acts + [a])
  {
    assert Waited(c, acts + [a]) == Waited(c, acts);
    if Waited(c, acts) {
      var t := s.calls[c].turn.value;
      forall outcome | outcome != Pending && Repaired(s, t, outcome) ensures Repaired(u, t, outcome) {
        var r :| 0 <= r < |s.repairs| && s.repairs[r] == Repair(t, outcome);
        assert u.repairs[r] == Repair(t, outcome);
      }
    }
  }

  /** A step changes no call but the one it wakes, and adds at most one. */
  lemma StepCalls(s: State, a: Action, c: nat)
    requires Enabled(s, a) && c < |s.calls| && a != DoWakeClosing(c) && a != DoWakeRepair(c)
    ensures c < |Apply(s, a).calls| && Apply(s, a).calls[c] == s.calls[c]
  {
  }

  lemma NewCall(s: State, a: Action, c: nat, acts: seq<Action>)
    requires Inv(s) && InRange(s, acts) && Enabled(s, a) && |s.calls| <= c < |Apply(s, a).calls|
    ensures CallTraced(Apply(s, a), c, acts + [a])
  {
    hide TurnOk, RepairOk, CallOk;
    assert !Waited(c, acts + [a]);
    assert NotWoken(Apply(s, a), c);
  }

  lemma WakeTraced(s: State, c: nat, acts: seq<Action>)
    requires Inv(s) && Enabled(s, DoWakeClosing(c)) && CallTraced(s, c, acts)
    ensures CallTraced(Apply(s, DoWakeClosing(c)), c, acts + [DoWakeClosing(c)])
  {
    hide TurnOk, RepairOk, CallOk;
    assert Waited(c, acts + [DoWakeClosing(c)]);
    assert !Waited(c, acts);
    assert DoWakeRepair(c) !in acts + [DoWakeClosing(c)];
    assert Woken(Apply(s, DoWakeClosing(c)), c, acts + [DoWakeClosing(c)]);
  }

  lemma RepairWakeTraced(s: State, c: nat, acts: seq<Action>)
    requires Inv(s) && Enabled(s, DoWakeRepair(c)) && CallTraced(s, c, acts)
    ensures CallTraced(Apply(s, DoWakeRepair(c)), c, acts + [DoWakeRepair(c)])
  {
    hide TurnOk, RepairOk, CallOk;
    var u, r, t := Apply(s, DoWakeRepair(c)), s.calls[c].wait.repair, s.calls[c].turn.value;
    assert Waited(c, acts + [DoWakeRepair(c)]) == Waited(c, acts);
    assert u.repairs[r] == Repair(t, s.repairs[r].outcome) by { assert CallSound(s, s.calls[c]); }
    assert Repaired(u, t, s.repairs[r].outcome);
    assert Woken(u, c, acts + [DoWakeRepair(c)]);
  }

  lemma StepCall(s: State, a: Action, acts: seq<Action>, c: nat)
    requires Inv(s) && InRange(s, acts) && Enabled(s, a) && c < |Apply(s, a).calls|
    requires c < |s.calls| ==> CallTraced(s, c, acts)
    ensures CallTraced(Apply(s, a), c, acts + [a])
  {
    hide Inv, InRange, Enabled, Apply, CallTraced, Settles;
    if c >= |s.calls| {
      NewCall(s, a, c, acts);
    } else if a == DoWakeClosing(c) {
      WakeTraced(s, c, acts);
    } else if a == DoWakeRepair(c) {
      RepairWakeTraced(s, c, acts);
    } else {
      StepSettles(s, a);
      StepCalls(s, a, c);
      CallKept(s, Apply(s, a), c, acts, a);
    }
  }

  lemma StepTraced(s: State, a: Action, acts: seq<Action>)
    requires Inv(s) && Traced(s, acts) && Enabled(s, a)
    ensures Traced(Apply(s, a), acts + [a])
  {
    hide Inv, InRange, Enabled, Apply, TurnTraced, RepairTraced, CallTraced;
    var u := Apply(s, a);
    StepLonger(s, a, acts);
    forall t: nat | t < |u.turns| ensures TurnTraced(u, t, acts + [a]) { StepTurn(s, a, acts, t); }
    forall r: nat | r < |u.repairs| ensures RepairTraced(u, r, acts + [a]) { StepRepair(s, a, acts, r); }
    forall c: nat | c < |u.calls| ensures CallTraced(u, c, acts + [a]) { StepCall(s, a, acts, c); }
  }

  lemma {:induction false} RunTraced(s: State, acts: seq<Action>, past: seq<Action>)
    requires Inv(s) && WorksExist(s) && Traced(s, past) && ValidRun(s, acts)
    ensures Inv(Run(s, acts)) && Traced(Run(s, acts), past + acts)
    decreases |acts|
  {
    hide Inv, Enabled, Apply, WorksExist, Traced;
    if acts == [] {
      assert past + acts == past;
    } else {
      StepTraced(s, acts[0], past);
      StepKeepsInv(s, acts[0]);
      RunTraced(Apply(s, acts[0]), acts[1..], past + [acts[0]]);
      assert past + acts == (past + [acts[0]]) + acts[1..];
    }
  }

  // ----- the calls made -----

  /** The calls of a run in order, as what they are. */
  function CallsMade(acts: seq<Action>): seq<Kind> {
    if acts == [] then [] else CallsMade(acts[..|acts| - 1]) + CallOf(acts[|acts| - 1])
  }

  function CallOf(a: Action): seq<Kind> {
    match a
    case DoBeforeOpen(_) => [BeforeOpen]
    case DoStop(_) => [Stop]
    case DoClose(_) => [Close]
    case _ => []
  }

  lemma CallsSnoc(past: seq<Action>, a: Action)
    ensures CallsMade(past + [a]) == CallsMade(past) + CallOf(a)
  {
    assert (past + [a])[..|past|] == past;
  }

  /** A step adds the call it makes and leaves the kind of the others. */
  lemma StepAdds(s: State, a: Action)
    requires Enabled(s, a)
    ensures |Apply(s, a).calls| == |s.calls| + |CallOf(a)|
    ensures forall c :: 0 <= c < |s.calls| ==> Apply(s, a).calls[c].kind == s.calls[c].kind
    ensures CallOf(a) != [] ==> Apply(s, a).calls[|s.calls|].kind == CallOf(a)[0]
  {
  }

  ghost predicate KindsAre(calls: seq<Call>, kinds: seq<Kind>) {
    |calls| == |kinds| && forall c :: 0 <= c < |calls| ==> calls[c].kind == kinds[c]
  }

  lemma StepKinds(s: State, a: Action, past: seq<Action>)
    requires Enabled(s, a) && KindsAre(s.calls, CallsMade(past))
    ensures KindsAre(Apply(s, a).calls, CallsMade(past + [a]))
  {
    hide Enabled, Apply, CallsMade;
    CallsSnoc(past, a);
    StepAdds(s, a);
  }

  lemma {:induction false} RunKinds(s: State, acts: seq<Action>, past: seq<Action>)
    requires ValidRun(s, acts) && KindsAre(s.calls, CallsMade(past))
    ensures KindsAre(Run(s, acts).calls, CallsMade(past + acts))
    decreases |acts|
  {
    hide KindsAre, CallsMade, Enabled, Apply;
    if acts == [] {
      assert past + acts == past;
    } else {
      StepKinds(s, acts[0], past);
      RunKinds(Apply(s, acts[0]), acts[1..], past + [acts[0]]);
      assert past + acts == (past + [acts[0]]) + acts[1..];
    }
  }

  // ----- the theorems -----

  /**
   The fate of each call on every run. Until the closing of its turn settles it waits, a Stop or `close`
   for a closing it found or started, unless it was answered at once: a session without a turn has nothing
   to wait for, a Stop without a handler throws.
   Woken by a closing that succeeded it returns, whoever it is. Woken by one that failed it throws if it
   is a `close` or nothing can recover the turn; otherwise it waits for a repair of that turn, and
   returns or throws as a repair of that turn succeeded or broke.
   */
  lemma EveryCallAnswered(canRecover: bool, acts: seq<Action>, c: nat)
    requires ValidRun(Init(canRecover), acts) && c < |Run(Init(canRecover), acts).calls|
    ensures var s := Run(Init(canRecover), acts);
      var call := s.calls[c];
      && s.canRecover == canRecover
      && c < |CallsMade(acts)| == |s.calls| && call.kind == CallsMade(acts)[c]
      && (DoWakeClosing(c) !in acts ==> NotWoken(s, c))
      && (DoWakeClosing(c) in acts ==> call.turn.Some? && call.turn.value < |s.turns|)
      && (DoWakeClosing(c) in acts ==>
            var t := call.turn.value;
            && (DoWorkDone(t) in acts ==> call.wait == Returned)
            && (DoWorkDone(t) !in acts ==> DoWorkFails(t) in acts)
            && (DoWorkFails(t) in acts && (call.kind == Close || !canRecover) ==> call.wait == Threw)
            && (DoWorkFails(t) in acts && call.kind != Close && canRecover && DoWakeRepair(c) !in acts ==> call.wait.OnRepair?)
            && (DoWorkFails(t) in acts && call.kind != Close && canRecover && DoWakeRepair(c) in acts ==>
                  || (call.wait == Returned && exists r :: 0 <= r < |s.repairs| && s.repairs[r].turn == t && DoRepairDone(r) in acts)
                  || (call.wait == Threw && exists r :: 0 <= r < |s.repairs| && s.repairs[r].turn == t && DoRepairFails(r) in acts)))
  {
    hide ValidRun, Run, Inv, InRange;
    InitTraced(canRecover, acts);
    var s := Run(Init(canRecover), acts);
    RunRecovers(Init(canRecover), acts);
    RunKinds(Init(canRecover), acts, []);
    assert [] + acts == acts;
    assert CallTraced(s, c, acts);
    if DoWakeClosing(c) in acts {
      assert Waited(c, acts);
      var t := s.calls[c].turn.value;
      assert TurnTraced(s, t, acts);
      forall outcome | outcome != Pending && Repaired(s, t, outcome)
        ensures exists r :: (0 <= r < |s.repairs| && s.repairs[r].turn == t &&
          (if outcome == Succeeded then DoRepairDone(r) else DoRepairFails(r)) in acts)
      {
        var r :| 0 <= r < |s.repairs| && s.repairs[r] == Repair(t, outcome);
        assert RepairTraced(s, r, acts);
      }
    }
  }

  lemma InitTraced(canRecover: bool, acts: seq<Action>)
    requires ValidRun(Init(canRecover), acts)
    ensures Inv(Run(Init(canRecover), acts)) && Traced(Run(Init(canRecover), acts), acts)
  {
    hide ValidRun, Run;
    RunTraced(Init(canRecover), acts, []);
    assert [] + acts == acts;
  }

  lemma {:induction false} RunRecovers(s: State, acts: seq<Action>)
    requires ValidRun(s, acts)
    ensures Run(s, acts).canRecover == s.canRecover
    decreases |acts|
  {
    hide Enabled, Apply;
    if acts != [] {
      StepSettles(s, acts[0]);
      RunRecovers(Apply(s, acts[0]), acts[1..]);
    }
  }

  /**
   The calls that wait for a failed closure share one repair: whoever is woken waits for the repair its
   turn holds, running or done, and a second is started only when the turn holds none; a call woken by
   that repair returns exactly when that very repair succeeded.
   */
  lemma JoinersShareTheRepair(s: State, c: nat)
    requires Inv(s) && c < |s.calls|
    ensures Enabled(s, DoWakeClosing(c)) && s.calls[c].turn.Some? && s.calls[c].turn.value < |s.turns| ==>
      var t, u := s.calls[c].turn.value, Apply(s, DoWakeClosing(c));
      u.calls[c].wait.OnRepair? ==>
        && t < |u.turns| && u.turns[t].recovery == Some(u.calls[c].wait.repair)
        && (s.turns[t].recovery.Some? ==> u.turns == s.turns && u.repairs == s.repairs)
        && (s.turns[t].recovery.None? ==> u.repairs == s.repairs + [Repair(t, Pending)])
    ensures Enabled(s, DoWakeRepair(c)) && s.calls[c].wait.repair < |s.repairs| ==>
      var w := Apply(s, DoWakeRepair(c)).calls[c].wait;
      && (w == Returned <==> s.repairs[s.calls[c].wait.repair].outcome == Succeeded)
      && (w == Threw <==> s.repairs[s.calls[c].wait.repair].outcome == Broke)
  {
    hide Inv;
    CallHolds(s, c);
  }

  /** Closing a turn is started by its `close`, or by a Stop of its session where there is one to run; settled work is remembered. */
  lemma WorkIsAskedFor(canRecover: bool, acts: seq<Action>, t: nat)
    requires ValidRun(Init(canRecover), acts) && t < |Run(Init(canRecover), acts).turns|
    ensures var turn := Run(Init(canRecover), acts).turns[t];
      && DoOpen(turn.session, turn.hasStop) in acts
      && (turn.closing != NotClosing ==> DoClose(t) in acts || (turn.hasStop && DoStop(turn.session) in acts))
      && (DoClose(t) in acts ==> turn.closing != NotClosing)
      && (turn.closing == Closed <==> DoWorkDone(t) in acts)
      && (turn.closing == Failed <==> DoWorkFails(t) in acts)
  {
    hide ValidRun, Run, Inv, InRange;
    InitTraced(canRecover, acts);
    assert TurnTraced(Run(Init(canRecover), acts), t, acts);
  }

  /**
   `beforeOpen` and Stop of a session find its one turn that is not over, or none: without one they
   return at once; with one they wait for its closing, except a Stop that finds neither a closing under
   way nor a handler, which throws.
   */
  lemma CallsFindTheirTurn(s: State, a: Action)
    requires Inv(s) && Enabled(s, a) && (a.DoBeforeOpen? || a.DoStop?)
    ensures |Apply(s, a).calls| == |s.calls| + 1
    ensures var call := Apply(s, a).calls[|s.calls|];
      && call.session == a.session
      && (forall t: nat :: call.turn == Some(t) <==> t < |s.turns| && s.turns[t].session == a.session && !Over(s, t))
      && (call.turn.None? ==> call.wait == Returned)
      && (call.turn.Some? && call.turn.value < |s.turns| ==>
            var turn := s.turns[call.turn.value];
            call.wait == if a.DoStop? && turn.closing == NotClosing && !turn.hasStop then Threw else OnClosing)
  {
    hide WorkCount;
    forall t: nat | t < |s.turns| ensures Registered(s, t) <==> !Over(s, t) { assert TurnOk(s, t); }
  }
}

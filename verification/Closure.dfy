/** The closure gate as an object. */
module Closure {
  import opened Wrappers
  import M = ClosureModel

  datatype GateError = AlreadyActive | NoStopClosure

  class SessionTurnClosureGate {
    const canRecover: bool
    var turns: seq<M.Turn>
    var active: map<M.SessionId, nat>
    var repairs: seq<M.Repair>
    var calls: seq<M.Call>
    ghost var works: seq<nat>

    ghost function State(): M.State
      reads this
    {
      M.State(canRecover, turns, active, repairs, calls, works)
    }

    constructor (canRecover: bool)
      ensures State() == M.Init(canRecover)
    {
      this.canRecover := canRecover;
      turns, active, repairs, calls, works := [], map[], [], [], [];
    }

    method Open(session: M.SessionId, hasStop: bool) returns (r: Result<nat, GateError>)
      modifies this
      ensures State() == M.OpenTurn(old(State()), session, hasStop)
      ensures r == if session in old(active) then Err(AlreadyActive) else Ok(|old(turns)|)
    {
      if session in active { return Err(AlreadyActive); }
      r := Ok(|turns|);
      active := active[session := |turns|];
      turns := turns + [M.Turn(session, hasStop, M.NotClosing, None)];
    }

    method BeforeOpen(session: M.SessionId)
      modifies this
      ensures State() == M.CallBeforeOpen(old(State()), session)
    {
      if session !in active {
        calls := calls + [M.Call(M.BeforeOpen, session, None, M.Returned)];
        return;
      }
      calls := calls + [M.Call(M.BeforeOpen, session, Some(active[session]), M.OnClosing)];
    }

    /** Stop closes with the work given when the turn was opened. */
    method Stop(session: M.SessionId) returns (r: Result<(), GateError>)
      requires M.Enabled(State(), M.DoStop(session))
      modifies this
      ensures State() == M.CallStop(old(State()), session)
      ensures r.Err? <==>
        && session in old(active)
        && old(turns)[old(active)[session]].closing == M.NotClosing && !old(turns)[old(active)[session]].hasStop
    {
      if session !in active {
        calls := calls + [M.Call(M.Stop, session, None, M.Returned)];
        return Ok(());
      }
      var t := active[session];
      if turns[t].closing == M.NotClosing {
        if !turns[t].hasStop {
          calls := calls + [M.Call(M.Stop, session, Some(t), M.Threw)];
          return Err(NoStopClosure);
        }
        turns := turns[t := turns[t].(closing := M.Closing)];
        works := works + [t];
      }
      calls := calls + [M.Call(M.Stop, session, Some(t), M.OnClosing)];
      return Ok(());
    }

    /** `close` of an opened turn: its work is used only when nothing closes the turn yet. */
    method Close(t: nat)
      requires M.Enabled(State(), M.DoClose(t))
      modifies this
      ensures State() == M.CallClose(old(State()), t)
    {
      var session := turns[t].session;
      if turns[t].closing == M.NotClosing {
        turns := turns[t := turns[t].(closing := M.Closing)];
        works := works + [t];
      }
      calls := calls + [M.Call(M.Close, session, Some(t), M.OnClosing)];
    }

    method Unregister(t: nat)
      requires t < |turns|
      modifies this
      ensures State() == M.Unregister(old(State()), t)
    {
      var session := turns[t].session;
      if session in active && active[session] == t { active := active - {session}; }
    }

    method WorkDone(t: nat)
      requires M.Enabled(State(), M.DoWorkDone(t))
      modifies this
      ensures State() == M.Apply(old(State()), M.DoWorkDone(t))
    {
      turns := turns[t := turns[t].(closing := M.Closed)];
      Unregister(t);
    }

    method WorkFails(t: nat)
      requires M.Enabled(State(), M.DoWorkFails(t))
      modifies this
      ensures State() == M.Apply(old(State()), M.DoWorkFails(t))
    {
      turns := turns[t := turns[t].(closing := M.Failed)];
    }

    /** A call resumes after the closing it waited for settled. */
    method WakeClosing(c: nat)
      requires M.Enabled(State(), M.DoWakeClosing(c))
      modifies this
      ensures State() == M.Apply(old(State()), M.DoWakeClosing(c))
    {
      var t := calls[c].turn.value;
      if turns[t].closing == M.Closed {
        calls := calls[c := calls[c].(wait := M.Returned)];
      } else if calls[c].kind == M.Close || !canRecover {
        calls := calls[c := calls[c].(wait := M.Threw)];
      } else {
        if turns[t].recovery.None? {
          turns := turns[t := turns[t].(recovery := Some(|repairs|))];
          repairs := repairs + [M.Repair(t, M.Pending)];
        }
        calls := calls[c := calls[c].(wait := M.OnRepair(turns[t].recovery.value))];
      }
    }

    method WakeRepair(c: nat)
      requires M.Enabled(State(), M.DoWakeRepair(c))
      modifies this
      ensures State() == M.Apply(old(State()), M.DoWakeRepair(c))
    {
      var succeeded := repairs[calls[c].wait.repair].outcome == M.Succeeded;
      calls := calls[c := calls[c].(wait := if succeeded then M.Returned else M.Threw)];
    }

    method RepairDone(r: nat)
      requires M.Enabled(State(), M.DoRepairDone(r))
      modifies this
      ensures State() == M.Apply(old(State()), M.DoRepairDone(r))
    {
      repairs := repairs[r := repairs[r].(outcome := M.Succeeded)];
      Unregister(repairs[r].turn);
    }

    method RepairFails(r: nat)
      requires M.Enabled(State(), M.DoRepairFails(r))
      modifies this
      ensures State() == M.Apply(old(State()), M.DoRepairFails(r))
    {
      var t := repairs[r].turn;
      repairs := repairs[r := repairs[r].(outcome := M.Broke)];
      turns := turns[t := turns[t].(recovery := None)];
    }
  }
}

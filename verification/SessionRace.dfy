/** One of several racing closers lands, the others learn of it. */
module SessionRace {
  // Closers that race on one open step: one of them lands, the others find the step closed.

  import opened Wrappers
  import opened HistoryModel
  import opened HistorySafety
  import opened SessionModel
  import opened SessionSafety
  import opened SessionBuilders

  /** A `failChatTurn`, `abortChatTurn` or `completeChatTurn` on a handle. */
  predicate ClosesHandle(j: Job, h: Handle) {
    j.Close? && (j.closing.Fail? || j.closing.Abort? || j.closing.Complete?) &&
    j.handle.turn == h.turn && j.handle.step == h.step
  }

  /** The job neither suspends the step of the handle nor moves on from it. */
  predicate LeavesAlone(j: Job, h: Handle) {
    && !(j.NextStep? && j.previous.turn == h.turn && j.previous.step == h.step)
    && !(j.Close? && j.closing.Suspend? && j.handle.turn == h.turn && j.handle.step == h.step)
  }

  /** The guard has the step open and something holds the closer back. */
  predicate Blocks(log: seq<Event>, h: Handle, job: Job)
    requires job.Close?
  {
    OpenAt(log, h) && !Closable(GuardOf(log).value, job.handle, job.closing)
  }

  predicate BlockedNow(s: State, a: Action, h: Handle)
    requires Enabled(s, a)
  {
    a.DoLand? && ClosesHandle(s.tickets[s.next].job, h) && Blocks(s.log, h, s.tickets[s.next].job)
  }

  /** The closers whose append met the step open and blocked. */
  function Blocked(s: State, acts: seq<Action>, h: Handle): set<nat>
    requires ValidRun(s, acts)
    decreases |acts|
  {
    if acts == [] then {}
    else (if BlockedNow(s, acts[0], h) then {s.next} else {}) + Blocked(Apply(s, acts[0]), acts[1..], h)
  }

  /** Nothing enqueued on the way suspends the step or moves on from it. */
  predicate LeftAlone(acts: seq<Action>, h: Handle) {
    forall a :: a in acts && a.DoEnqueue? ==> LeavesAlone(a.job, h)
  }

  predicate Finished(t: Ticket) {
    t.status.Landed? || t.status == AlreadyClosed || t.status.Rejected?
  }

  /** A closer that left the queue unblocked found the step closed or met a failure. */
  ghost predicate TicketRaces(s: State, i: nat, h: Handle, blocked: set<nat>)
    requires i < |s.tickets|
  {
    var t := s.tickets[i];
    && (i >= s.next ==> LeavesAlone(t.job, h))
    && (i < s.next && ClosesHandle(t.job, h) && i !in blocked ==>
          t.status == Checking(true) || t.status == Rejected(true) || (Closed(s.log, h) && !t.status.Rejected?))
  }

  ghost predicate Racing(s: State, h: Handle, blocked: set<nat>) {
    && Inv(s)
    && (OpenAt(s.log, h) || (Closed(s.log, h) && exists i :: LandedOn(s, i, h)))
    && (forall i :: 0 <= i < |s.tickets| ==> TicketRaces(s, i, h, blocked))
  }

  predicate LandedOn(s: State, i: int, h: Handle) {
    0 <= i < |s.tickets| && ClosesHandle(s.tickets[i].job, h) && s.tickets[i].status.Landed?
  }

  // ----- open and closed exclude each other -----

  lemma {:induction false} EndCounted(log: seq<Event>, e: Event)
    requires e in log
    ensures e.TurnEnd? ==> Ends(log, e.turn) >= 1
    ensures e.StepEnd? ==> StepEnds(log, e.step) >= 1
  {
    var n := |log| - 1;
    if log[n] != e {
      assert log == log[..n] + [log[n]];
      EndCounted(log[..n], e);
    }
  }

  lemma OpenNotClosed(log: seq<Event>, h: Handle)
    requires Good(log) && OpenAt(log, h)
    ensures !Closed(log, h)
  {
    hide Ends, StepEnds, LastTurn, LastStep, TurnNumbers, StepNumbers, ModeOf;
    forall e | e in log ensures !ClosesEvent(e, h) {
      EndCounted(log, e);
      assert Ends(log, h.turn) == 0 && StepEnds(log, h.step) == 0;
    }
  }

  lemma ClosedGrows(log: seq<Event>, more: seq<Event>, h: Handle)
    requires Closed(log, h)
    ensures Closed(log + more, h)
  {
    var e :| e in log && ClosesEvent(e, h);
    assert e in log + more;
  }

  // ----- what an open step accepts -----

  /** Accepting a batch means accepting its second event after its first. */
  lemma AcceptsSecond(log: seq<Event>, batch: seq<Event>)
    requires Accepts(log, batch) && |batch| >= 2
    ensures ModeOf(log).Some? && Next(ModeOf(log).value, batch[0]).Some?
    ensures Next(Next(ModeOf(log).value, batch[0]).value, batch[1]).Some?
  {
    hide Next, ModeOf, Accepts, GuardOf;
    AcceptsFirst(log, batch);
    var one := log + [batch[0]];
    assert log + batch == one + batch[1..];
    AcceptedMode(log, batch);
    AcceptedMode(one, batch[1..]);
    AcceptsFirst(one, batch[1..]);
  }

  lemma OpenRefuses(log: seq<Event>, h: Handle, job: Job, turn: nat, step: nat)
    requires OpenAt(log, h) && LeavesAlone(job, h) && !ClosesHandle(job, h) && !job.Append?
    ensures !Accepts(log, Batch(job, turn, step))
  {
    hide ModeOf, Accepts;
    var batch := Batch(job, turn, step);
    if Accepts(log, batch) {
      AcceptsFirst(log, batch);
      AcceptsSecond(log, batch);
    }
  }

  // ----- every step of a race -----

  lemma SetStatusRaces(s: State, i: nat, status: Status, h: Handle, blocked: set<nat>)
    requires Racing(s, h, blocked) && i < |s.tickets| && Inv(SetStatus(s, i, status))
    requires !s.tickets[i].status.Landed?
    requires i < s.next && ClosesHandle(s.tickets[i].job, h) && i !in blocked ==>
      status == Rejected(true) || (Closed(s.log, h) && !status.Rejected?)
    ensures Racing(SetStatus(s, i, status), h, blocked)
  {
    hide Inv, OpenAt, Closed, ClosesHandle, LeavesAlone;
    var u := SetStatus(s, i, status);
    if !OpenAt(s.log, h) {
      var k :| LandedOn(s, k, h);
      assert LandedOn(u, k, h);
    }
    forall k | 0 <= k < |u.tickets| ensures TicketRaces(u, k, h, blocked) { assert TicketRaces(s, k, h, blocked); }
  }

  lemma EnqueueRaces(s: State, job: Job, h: Handle, blocked: set<nat>)
    requires Racing(s, h, blocked) && LeavesAlone(job, h) && Queued(job)
    ensures Racing(Enqueue(s, job), h, blocked)
  {
    hide Inv, OpenAt, Closed, ClosesHandle, LeavesAlone;
    EnqueueKeepsInv(s, job);
    var u := Enqueue(s, job);
    assert s.next <= |s.tickets| by { Bounded(s); }
    if !OpenAt(s.log, h) {
      var k :| LandedOn(s, k, h);
      assert LandedOn(u, k, h);
    }
    forall k | 0 <= k < |u.tickets| ensures TicketRaces(u, k, h, blocked) {
      if k < |s.tickets| { assert TicketRaces(s, k, h, blocked); }
    }
  }

  lemma Bounded(s: State)
    requires Inv(s)
    ensures s.next <= |s.tickets|
  {
  }

  /** Refusing the head of the queue: it is no closer, or the step is closed, or an append failed, or it is blocked. */
  lemma RefuseRaces(s: State, fault: bool, h: Handle, blocked: set<nat>)
    requires Racing(s, h, blocked) && s.next < |s.tickets| && !s.tickets[s.next].status.Landed?
    requires ClosesHandle(s.tickets[s.next].job, h) ==> fault || Closed(s.log, h) || s.next in blocked
    ensures Racing(Refuse(s, fault), h, blocked)
  {
    hide Inv, OpenAt, Closed;
    RefuseKeepsInv(s, fault);
    var u := Refuse(s, fault);
    if !OpenAt(s.log, h) {
      var k :| LandedOn(s, k, h);
      assert LandedOn(u, k, h);
    }
    forall k | 0 <= k < |u.tickets| ensures TicketRaces(u, k, h, blocked) { assert TicketRaces(s, k, h, blocked); }
  }

  lemma ToolRaces(s: State, e: Event, h: Handle, blocked: set<nat>)
    requires Racing(s, h, blocked) && !Bracket(e) && Accepts(s.log, [e])
    ensures Racing(s.(log := s.log + [e]), h, blocked)
  {
    hide Inv, Closed, OpenAt, Bracket;
    ToolKeepsInv(s, e);
    var u := s.(log := s.log + [e]);
    if Closed(s.log, h) { ClosedGrows(s.log, [e], h); }
    if OpenAt(s.log, h) {
      StaysOpen(s.log, h, [e]);
    } else {
      var k :| LandedOn(s, k, h);
      assert LandedOn(u, k, h);
    }
    forall k | 0 <= k < |u.tickets| ensures TicketRaces(u, k, h, blocked) { assert TicketRaces(s, k, h, blocked); }
  }

  lemma StaysOpen(log: seq<Event>, h: Handle, events: seq<Event>)
    requires OpenAt(log, h) && Accepts(log, events) && forall e :: e in events ==> !Bracket(e)
    ensures OpenAt(log + events, h)
  {
    AcceptedMode(log, events);
    NeutralKeeps(log, events);
  }

  lemma JobAtHead(s: State, h: Handle, blocked: set<nat>)
    requires Racing(s, h, blocked) && s.next < |s.tickets|
    ensures LeavesAlone(s.tickets[s.next].job, h) && Queued(s.tickets[s.next].job)
    ensures !s.tickets[s.next].status.Landed?
  {
    hide OpenAt, Closed, ClosesHandle, LeavesAlone, Good, CountsOk;
    assert TicketRaces(s, s.next, h, blocked);
    assert StatusOk(s, s.next);
  }

  lemma CloserBatch(s: State, h: Handle)
    requires s.next < |s.tickets| && ClosesHandle(s.tickets[s.next].job, h)
    ensures BatchAt(s) == ClosingBatch(s.tickets[s.next].job.handle, s.tickets[s.next].job.closing)
  {
  }

  lemma SameStep(log: seq<Event>, h: Handle, other: Handle)
    requires h.turn == other.turn && h.step == other.step
    ensures OpenAt(log, h) == OpenAt(log, other) && Closed(log, h) == Closed(log, other)
  {
    hide ModeOf;
    assert forall e :: ClosesEvent(e, h) == ClosesEvent(e, other);
  }

  /** An accepted batch either leaves the open step open or is the closing one. */
  lemma AcceptedWhileOpen(s: State, h: Handle, blocked: set<nat>)
    requires Racing(s, h, blocked) && Enabled(s, DoLand) && Accepts(s.log, BatchAt(s)) && OpenAt(s.log, h)
    ensures ClosesHandle(s.tickets[s.next].job, h) ==> Closed(s.log + BatchAt(s), h)
    ensures !ClosesHandle(s.tickets[s.next].job, h) ==> OpenAt(s.log + BatchAt(s), h)
  {
    hide Inv, Closed, LeavesAlone, ClosingBatch, Accepts, Racing, Closable, GuardOf;
    var job := s.tickets[s.next].job;
    JobAtHead(s, h, blocked);
    if ClosesHandle(job, h) {
      CloserBatch(s, h);
      CloserAccepted(s.log, job.handle, job.closing);
      SameStep(s.log + BatchAt(s), h, job.handle);
    } else if job.Append? {
      StaysOpen(s.log, h, BatchAt(s));
    } else {
      var t := s.tickets[s.next];
      OpenRefuses(s.log, h, job, if t.status.Numbered? then t.status.turn else 0,
                  if t.status.Numbered? then t.status.step else 0);
    }
  }

  lemma LandRaces(s: State, h: Handle, blocked: set<nat>)
    requires Racing(s, h, blocked) && Enabled(s, DoLand) && Accepts(s.log, BatchAt(s))
    ensures Racing(Land(s), h, blocked)
  {
    hide Inv, Closed, OpenAt, ClosesHandle, LeavesAlone, BatchAt, HandleAt, Accepts;
    LandKeepsInv(s);
    var u := Land(s);
    if Closed(s.log, h) { ClosedGrows(s.log, BatchAt(s), h); }
    if OpenAt(s.log, h) {
      AcceptedWhileOpen(s, h, blocked);
      if ClosesHandle(s.tickets[s.next].job, h) {
        assert LandedOn(u, s.next, h);
      }
    } else {
      JobAtHead(s, h, blocked);
      var k :| LandedOn(s, k, h);
      assert k != s.next;
      assert LandedOn(u, k, h);
    }
    forall k | 0 <= k < |u.tickets| ensures TicketRaces(u, k, h, blocked) { assert TicketRaces(s, k, h, blocked); }
  }

  /** A refused closer met a closed step, unless it was blocked. */
  lemma RefusedIsClosed(s: State, h: Handle, blocked: set<nat>)
    requires Racing(s, h, blocked) && Enabled(s, DoLand) && !Accepts(s.log, BatchAt(s))
    requires ClosesHandle(s.tickets[s.next].job, h) && !Blocks(s.log, h, s.tickets[s.next].job)
    ensures Closed(s.log, h)
  {
    hide Inv, Closed, Accepts, Batch, Closable, GuardOf;
    var job := s.tickets[s.next].job;
    if OpenAt(s.log, h) {
      CloserBatch(s, h);
      CloserAccepted(s.log, job.handle, job.closing);
      SameStep(s.log, h, job.handle);
    }
  }

  lemma CheckRaces(s: State, i: nat, h: Handle, blocked: set<nat>)
    requires Racing(s, h, blocked) && Enabled(s, DoCheck(i))
    ensures Racing(Check(s, i), h, blocked)
  {
    hide Inv, OpenAt, LeavesAlone, Closed;
    StepKeepsInv(s, DoCheck(i));
    assert TicketRaces(s, i, h, blocked);
    if ClosesHandle(s.tickets[i].job, h) { SameStep(s.log, h, s.tickets[i].job.handle); }
    SetStatusRaces(s, i, Check(s, i).tickets[i].status, h, blocked);
  }

  lemma StepRaces(s: State, a: Action, h: Handle, blocked: set<nat>)
    requires Racing(s, h, blocked) && Enabled(s, a) && (a.DoEnqueue? ==> LeavesAlone(a.job, h))
    requires BlockedNow(s, a, h) ==> s.next in blocked
    ensures Racing(Apply(s, a), h, blocked)
  {
    hide Racing, Inv, ClosesHandle, LeavesAlone, Accepts, BatchAt, HandleAt, Closed, Check, Blocks;
    StepKeepsInv(s, a) by { RacingInv(s, h, blocked); }
    match a {
      case DoEnqueue(job) => EnqueueRaces(s, job, h, blocked);
      case DoStart => SetStatusRaces(s, s.next, Running, h, blocked);
      case DoNumber => SetStatusRaces(s, s.next, Numbered(LastTurn(s.log) + 1, LastStep(s.log) + 1), h, blocked);
      case DoReadFails => RefuseRaces(s, true, h, blocked);
      case DoLand =>
        JobAtHead(s, h, blocked);
        if Accepts(s.log, BatchAt(s)) {
          LandRaces(s, h, blocked);
        } else {
          if ClosesHandle(s.tickets[s.next].job, h) {
            IsClose(s.tickets[s.next].job, h);
            if !Blocks(s.log, h, s.tickets[s.next].job) { RefusedIsClosed(s, h, blocked); }
          }
          RefuseRaces(s, false, h, blocked);
        }
      case DoLandFails => RefuseRaces(s, true, h, blocked);
      case DoCheck(i) => CheckRaces(s, i, h, blocked);
      case DoCheckFails(i) => SetStatusRaces(s, i, Rejected(true), h, blocked);
      case DoTool(e) => if Accepts(s.log, [e]) { ToolRaces(s, e, h, blocked); }
    }
  }

  lemma IsClose(job: Job, h: Handle)
    requires ClosesHandle(job, h)
    ensures job.Close?
  {
  }

  lemma RacingInv(s: State, h: Handle, blocked: set<nat>)
    requires Racing(s, h, blocked)
    ensures Inv(s)
  {
  }

  lemma {:induction false} RunRaces(s: State, acts: seq<Action>, h: Handle, blocked: set<nat>)
    requires Racing(s, h, blocked) && ValidRun(s, acts) && LeftAlone(acts, h) && Blocked(s, acts, h) <= blocked
    ensures Racing(Run(s, acts), h, blocked)
    decreases |acts|
  {
    hide Racing, Enabled, Apply, LeavesAlone, BlockedNow;
    if acts != [] {
      assert acts[0] in acts;
      StepRaces(s, acts[0], h, blocked);
      RunRaces(Apply(s, acts[0]), acts[1..], h, blocked);
    }
  }

  lemma {:induction false} TwoLanded(ts: seq<Ticket>, i: nat, k: nat, turn: nat)
    requires i < k < |ts| && LandedCloser(ts[i], turn) && LandedCloser(ts[k], turn)
    ensures LandedClosers(ts, turn) >= 2
    decreases |ts|
  {
    hide LandedCloser;
    var n := |ts| - 1;
    if k == n { OneLanded(ts[..n], i, turn); } else { TwoLanded(ts[..n], i, k, turn); }
  }

  lemma {:induction false} OneLanded(ts: seq<Ticket>, i: nat, turn: nat)
    requires i < |ts| && LandedCloser(ts[i], turn)
    ensures LandedClosers(ts, turn) >= 1
  {
    hide LandedCloser;
    var n := |ts| - 1;
    if i < n { OneLanded(ts[..n], i, turn); }
  }

  /** A finished closer of the handle that neither met a failing append or read nor was refused while blocked. */
  predicate Settled(s: State, i: int, h: Handle, blocked: set<nat>) {
    && 0 <= i < |s.tickets| && ClosesHandle(s.tickets[i].job, h) && Finished(s.tickets[i])
    && s.tickets[i].status != Rejected(true) && i !in blocked
  }

  /**
   Fail, abort and complete calls racing on an open step, interleaved with failing reads and
   appends, tool events and anything that neither suspends the step nor moves on from it. At most
   one closer lands and it writes the only end of the turn; until it does the step is open. Every
   other closer that finishes reports the step as already closed, unless an append or read failed
   or it was refused while the step was open and blocked; one that finishes otherwise proves that
   one has landed.
   */
  lemma OneCloserLands(s: State, acts: seq<Action>, h: Handle)
    requires Inv(s) && OpenAt(s.log, h)
    requires forall t :: t in s.tickets ==> LeavesAlone(t.job, h)
    requires forall i :: 0 <= i < s.next ==> !ClosesHandle(s.tickets[i].job, h)
    requires ValidRun(s, acts) && LeftAlone(acts, h)
    ensures var u := Run(s, acts);
      var blocked := Blocked(s, acts, h);
      && (forall i, k :: LandedOn(u, i, h) && LandedOn(u, k, h) ==> i == k)
      && (if exists i :: LandedOn(u, i, h) then Closed(u.log, h) && Ends(u.log, h.turn) == 1
          else OpenAt(u.log, h) && Ends(u.log, h.turn) == 0)
      && (forall i :: Settled(u, i, h, blocked) ==> u.tickets[i].status.Landed? || u.tickets[i].status == AlreadyClosed)
      && ((exists i :: Settled(u, i, h, blocked)) ==> exists i :: LandedOn(u, i, h))
  {
    hide Run, ValidRun, LeavesAlone, ClosesHandle, ModeOf, Inv, LeftAlone, Blocked;
    var blocked := Blocked(s, acts, h);
    assert Racing(s, h, blocked);
    RunRaces(s, acts, h, blocked);
    RaceOutcome(Run(s, acts), h, blocked);
  }

  lemma RaceOutcome(u: State, h: Handle, blocked: set<nat>)
    requires Racing(u, h, blocked)
    ensures forall i, k :: LandedOn(u, i, h) && LandedOn(u, k, h) ==> i == k
    ensures if exists i :: LandedOn(u, i, h) then Closed(u.log, h) && Ends(u.log, h.turn) == 1
            else OpenAt(u.log, h) && Ends(u.log, h.turn) == 0
    ensures forall i :: Settled(u, i, h, blocked) ==> u.tickets[i].status.Landed? || u.tickets[i].status == AlreadyClosed
    ensures (exists i :: Settled(u, i, h, blocked)) ==> exists i :: LandedOn(u, i, h)
  {
    hide Ends, LandedClosers, LastTurn, LastStep, TurnNumbers, StepNumbers, StepEnds, Closed, OpenAt;
    forall i | Settled(u, i, h, blocked) ensures Closed(u.log, h) && !u.tickets[i].status.Rejected? {
      assert StatusOk(u, i);
      assert TicketRaces(u, i, h, blocked);
    }
    assert Ends(u.log, h.turn) <= 1;
    forall i, k | LandedOn(u, i, h) && LandedOn(u, k, h) ensures i == k {
      if i < k { TwoLanded(u.tickets, i, k, h.turn); }
      if k < i { TwoLanded(u.tickets, k, i, h.turn); }
    }
    if OpenAt(u.log, h) {
      OpenNotClosed(u.log, h);
      OpenHasNoEnd(u.log, h);
      if k :| LandedOn(u, k, h) { OneLanded(u.tickets, k, h.turn); }
    } else {
      var k :| LandedOn(u, k, h);
      OneLanded(u.tickets, k, h.turn);
    }
  }

  lemma OpenHasNoEnd(log: seq<Event>, h: Handle)
    requires Good(log) && OpenAt(log, h)
    ensures Ends(log, h.turn) == 0
  {
    hide Ends, StepEnds, LastTurn, LastStep, TurnNumbers, StepNumbers, ModeOf;
  }
}

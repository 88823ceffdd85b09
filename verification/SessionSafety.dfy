/** Bracketed, numbered, ended once. */
module SessionSafety {
  // Every run of the session queue keeps the log bracketed and numbered, and closes a turn once.

  import opened Wrappers
  import opened HistoryModel
  import opened HistorySafety
  import opened SessionModel

  /** The number of `turn/end` events of a turn. */
  function Ends(log: seq<Event>, turn: nat): nat {
    if log == [] then 0
    else
      var e := log[|log| - 1];
      Ends(log[..|log| - 1], turn) + if e.TurnEnd? && e.turn == turn then 1 else 0
  }

  /** The number of `step/end` events of a step. */
  function StepEnds(log: seq<Event>, step: nat): nat {
    if log == [] then 0
    else
      var e := log[|log| - 1];
      StepEnds(log[..|log| - 1], step) + if e.StepEnd? && e.step == step then 1 else 0
  }

  function TurnNumbers(log: seq<Event>): seq<nat> {
    if log == [] then []
    else
      var e := log[|log| - 1];
      TurnNumbers(log[..|log| - 1]) + if e.TurnStart? then [e.turn] else []
  }

  function StepNumbers(log: seq<Event>): seq<nat> {
    if log == [] then []
    else
      var e := log[|log| - 1];
      StepNumbers(log[..|log| - 1]) + if e.StepStart? then [e.step] else []
  }

  /** 1, 2, ..., n. */
  function UpTo(n: nat): (r: seq<nat>)
    ensures |r| == n
  {
    if n == 0 then [] else UpTo(n - 1) + [n]
  }

  ghost predicate EndsOnce(log: seq<Event>, m: Mode) {
    forall t: nat :: Ends(log, t) <= (if t > LastTurn(log) || (m != Idle && t == m.turn) then 0 else 1)
  }

  ghost predicate StepEndsOnce(log: seq<Event>, m: Mode) {
    forall k: nat :: StepEnds(log, k) <=
      (if k > LastStep(log) || ((m.InStep? || m.Paused?) && k == m.step) then 0 else 1)
  }

  /** A log written by the builders. */
  ghost predicate Good(log: seq<Event>) {
    && ModeOf(log).Some?
    && TurnNumbers(log) == UpTo(LastTurn(log))
    && StepNumbers(log) == UpTo(LastStep(log))
    && (var m := ModeOf(log).value;
        && (m != Idle ==> m.turn == LastTurn(log) > 0)
        && (m.InStep? || m.Paused? ==> m.step == LastStep(log) > 0)
        && EndsOnce(log, m) && StepEndsOnce(log, m))
  }

  /** A start event carries the number after the largest one of the log. */
  predicate NumberedNext(log: seq<Event>, e: Event) {
    && (e.TurnStart? ==> e.turn == LastTurn(log) + 1)
    && (e.StepStart? ==> e.step == LastStep(log) + 1)
  }

  predicate NumberedOn(log: seq<Event>, batch: seq<Event>)
    decreases |batch|
  {
    batch == [] || (NumberedNext(log, batch[0]) && NumberedOn(log + [batch[0]], batch[1..]))
  }

  // ----- the log -----

  /** An event the guard allows is one the brackets allow, with the same effect on them. */
  lemma GuardRefinesBrackets(g: Guard, e: Event)
    requires Coherent(g) && Allowed(g, e)
    ensures Next(ModeIn(g), e) == Some(ModeIn(After(g, e)))
  {
    hide Coherent, WellFormed, BracketRule, ToolRule, RequestRule, RetryRule;
    if Bracket(e) { BracketMoves(g, e); }
  }

  lemma BracketMoves(g: Guard, e: Event)
    requires Coherent(g) && Bracket(e) && Allowed(g, e)
    ensures Next(ModeIn(g), e) == Some(ModeIn(After(g, e)))
  {
    hide CallsOk, ApprovalsOk, RetriesOk, SuspensionOk, WellFormed, ToolRule, RequestRule, RetryRule;
  }

  lemma ModeAppend(log: seq<Event>, e: Event)
    requires ModeOf(log + [e]).Some?
    ensures ModeOf(log).Some? && Next(ModeOf(log).value, e) == ModeOf(log + [e])
  {
    hide Validate, Coherent, Allowed, After, Next, ModeIn, Knows, Witnessed;
    AppendOne(log, e);
    GuardTracks(log);
    GuardRefinesBrackets(GuardOf(log).value, e);
  }

  lemma ModePrefix(a: seq<Event>, b: seq<Event>)
    requires ModeOf(a + b).Some?
    ensures ModeOf(a).Some?
  {
    hide Validate;
    Prefix(a, b);
  }

  lemma CountsAppend(log: seq<Event>, e: Event)
    ensures LastTurn(log + [e]) == if e.TurnStart? then Max(LastTurn(log), e.turn) else LastTurn(log)
    ensures LastStep(log + [e]) == if e.StepStart? then Max(LastStep(log), e.step) else LastStep(log)
    ensures TurnNumbers(log + [e]) == TurnNumbers(log) + if e.TurnStart? then [e.turn] else []
    ensures StepNumbers(log + [e]) == StepNumbers(log) + if e.StepStart? then [e.step] else []
    ensures forall t: nat :: Ends(log + [e], t) == Ends(log, t) + if e.TurnEnd? && e.turn == t then 1 else 0
    ensures forall k: nat :: StepEnds(log + [e], k) == StepEnds(log, k) + if e.StepEnd? && e.step == k then 1 else 0
  {
    assert (log + [e])[..|log + [e]| - 1] == log;
  }

  lemma GoodAppend(log: seq<Event>, e: Event)
    requires Good(log) && NumberedNext(log, e) && ModeOf(log + [e]).Some?
    ensures Good(log + [e])
  {
    hide LastTurn, LastStep, TurnNumbers, StepNumbers, Ends, StepEnds, ModeOf;
    ModeAppend(log, e);
    CountsAppend(log, e);
    var m := ModeOf(log).value;
    var n := ModeOf(log + [e]).value;
    forall t: nat ensures Ends(log + [e], t) <= if t > LastTurn(log + [e]) || (n != Idle && t == n.turn) then 0 else 1 {
      assert Ends(log, t) <= if t > LastTurn(log) || (m != Idle && t == m.turn) then 0 else 1;
    }
    forall k: nat ensures StepEnds(log + [e], k) <=
        if k > LastStep(log + [e]) || ((n.InStep? || n.Paused?) && k == n.step) then 0 else 1 {
      assert StepEnds(log, k) <= if k > LastStep(log) || ((m.InStep? || m.Paused?) && k == m.step) then 0 else 1;
    }
    assert TurnNumbers(log + [e]) == UpTo(LastTurn(log + [e]));
    assert StepNumbers(log + [e]) == UpTo(LastStep(log + [e]));
  }

  lemma {:induction false} GoodBatch(log: seq<Event>, batch: seq<Event>)
    requires Good(log) && NumberedOn(log, batch) && ModeOf(log + batch).Some?
    ensures Good(log + batch)
    decreases |batch|
  {
    hide Good, ModeOf;
    if batch == [] {
      assert log + batch == log;
    } else {
      assert log + batch == (log + [batch[0]]) + batch[1..];
      ModePrefix(log + [batch[0]], batch[1..]);
      GoodAppend(log, batch[0]);
      GoodBatch(log + [batch[0]], batch[1..]);
    }
  }

  // ----- the batches -----

  /** Events that are no brackets leave everything open that was. */
  lemma {:induction false} NeutralKeeps(log: seq<Event>, events: seq<Event>)
    requires ModeOf(log + events).Some? && forall e :: e in events ==> !Bracket(e)
    ensures ModeOf(log + events) == ModeOf(log)
    decreases |events|
  {
    hide ModeOf;
    if events == [] {
      assert log + events == log;
    } else {
      var n := |events| - 1;
      assert log + events == (log + events[..n]) + [events[n]];
      assert events[n] in events;
      ModeAppend(log + events[..n], events[n]);
      NeutralKeeps(log, events[..n]);
    }
  }

  predicate NoStarts(events: seq<Event>) {
    forall e :: e in events ==> !e.TurnStart? && !e.StepStart?
  }

  lemma {:induction false} NoStartsNumbered(log: seq<Event>, events: seq<Event>)
    requires NoStarts(events)
    ensures NumberedOn(log, events)
    decreases |events|
  {
    if events != [] {
      assert events[0] in events;
      NoStartsNumbered(log + [events[0]], events[1..]);
    }
  }

  lemma BeginNumbered(log: seq<Event>, request: string)
    ensures NumberedOn(log, Batch(Begin(request), LastTurn(log) + 1, LastStep(log) + 1))
  {
    hide LastTurn, LastStep;
    var batch := Batch(Begin(request), LastTurn(log) + 1, LastStep(log) + 1);
    var one := log + [batch[0]];
    var two := one + [batch[1]];
    CountsAppend(log, batch[0]);
    CountsAppend(one, batch[1]);
    NoStartsNumbered(two + [batch[2]], batch[3..]);
    assert batch[1..][1..] == batch[2..] && batch[2..][1..] == batch[3..];
    assert NumberedOn(two, batch[2..]);
    assert NumberedOn(one, batch[1..]);
  }

  lemma NextNumbered(log: seq<Event>, previous: Handle, request: string)
    requires previous.step == LastStep(log)
    ensures NumberedOn(log, Batch(NextStep(previous, request), 0, 0))
  {
    hide LastTurn, LastStep;
    var batch := Batch(NextStep(previous, request), 0, 0);
    var one := log + [batch[0]];
    CountsAppend(log, batch[0]);
    NoStartsNumbered(one + [batch[1]], batch[2..]);
    assert batch[1..][1..] == batch[2..];
    assert NumberedOn(one, batch[1..]);
  }

  /** Accepting a batch means accepting its first event. */
  lemma AcceptsFirst(log: seq<Event>, batch: seq<Event>)
    requires Accepts(log, batch)
    ensures ModeOf(log + [batch[0]]).Some? && ModeOf(log).Some?
    ensures Next(ModeOf(log).value, batch[0]) == ModeOf(log + [batch[0]])
  {
    hide Next, ModeOf, Validate;
    assert log + batch == (log + [batch[0]]) + batch[1..];
    ModePrefix(log + [batch[0]], batch[1..]) by { AcceptedMode(log, batch); }
    ModeAppend(log, batch[0]);
  }

  lemma AcceptedMode(log: seq<Event>, batch: seq<Event>)
    ensures Accepts(log, batch) <==> batch != [] && ModeOf(log + batch).Some?
  {
  }

  // ----- the invariant -----

  /** Closers of a turn that landed. */
  function LandedClosers(ts: seq<Ticket>, turn: nat): nat {
    if ts == [] then 0
    else
      var t := ts[|ts| - 1];
      LandedClosers(ts[..|ts| - 1], turn) + if LandedCloser(t, turn) then 1 else 0
  }

  predicate Closer(j: Job, turn: nat) {
    j.Close? && !j.closing.Suspend? && j.handle.turn == turn
  }

  predicate LandedCloser(t: Ticket, turn: nat) {
    Closer(t.job, turn) && t.status.Landed?
  }

  ghost predicate StatusOk(s: State, i: nat)
    requires i < |s.tickets|
  {
    var t := s.tickets[i];
    && Queued(t.job)
    && (i > s.next ==> t.status == Waiting)
    && (i == s.next ==> t.status == Waiting || t.status == Running || t.status.Numbered?)
    && (i >= s.next && t.status.Numbered? ==>
          t.job.Begin? && t.status.turn == LastTurn(s.log) + 1 && t.status.step == LastStep(s.log) + 1)
    && (i < s.next ==>
          && !t.status.Waiting? && !t.status.Running? && !t.status.Numbered?
          && (t.status == AlreadyClosed ==> t.job.Close? && Closed(s.log, t.job.handle))
          && (t.status.Checking? ==> t.job.Close?))
  }

  ghost predicate TicketsOk(s: State) {
    s.next <= |s.tickets| && forall i :: 0 <= i < |s.tickets| ==> StatusOk(s, i)
  }

  ghost predicate CountsOk(log: seq<Event>, tickets: seq<Ticket>) {
    forall t: nat :: Ends(log, t) == LandedClosers(tickets, t)
  }

  ghost predicate Inv(s: State) {
    Good(s.log) && TicketsOk(s) && CountsOk(s.log, s.tickets)
  }

  lemma {:induction false} LandedUpdate(ts: seq<Ticket>, i: nat, t: Ticket, turn: nat)
    requires i < |ts|
    ensures LandedClosers(ts[i := t], turn) ==
            LandedClosers(ts, turn) - (if LandedCloser(ts[i], turn) then 1 else 0) + (if LandedCloser(t, turn) then 1 else 0)
  {
    hide LandedCloser;
    var n := |ts| - 1;
    if i == n {
      assert ts[i := t][..n] == ts[..n];
    } else {
      assert ts[i := t][..n] == ts[..n][i := t];
      LandedUpdate(ts[..n], i, t, turn);
    }
  }

  /** Setting a status that is not a landing keeps the count. */
  lemma StatusKeepsCounts(s: State, i: nat, status: Status)
    requires i < |s.tickets| && CountsOk(s.log, s.tickets) && !s.tickets[i].status.Landed? && !status.Landed?
    ensures CountsOk(s.log, SetStatus(s, i, status).tickets)
  {
    hide Ends, LandedClosers;
    var t := s.tickets[i].(status := status);
    forall turn: nat ensures Ends(s.log, turn) == LandedClosers(s.tickets[i := t], turn) {
      LandedUpdate(s.tickets, i, t, turn);
    }
  }

  lemma EnqueueKeepsInv(s: State, job: Job)
    requires Inv(s) && Queued(job)
    ensures Inv(Enqueue(s, job))
  {
    hide Good, Ends, LastTurn, LastStep, Closed;
    var u := Enqueue(s, job);
    assert u.tickets[..|u.tickets| - 1] == s.tickets;
    forall t: nat ensures Ends(u.log, t) == LandedClosers(u.tickets, t) {
      assert Ends(s.log, t) == LandedClosers(s.tickets, t);
    }
    forall k | 0 <= k < |u.tickets| ensures StatusOk(u, k) {
      if k < |s.tickets| { assert StatusOk(s, k); }
    }
  }

  lemma StatusKeepsInv(s: State, i: nat, status: Status)
    requires Inv(s) && i < |s.tickets| && !s.tickets[i].status.Landed? && !status.Landed?
    requires StatusOk(SetStatus(s, i, status), i)
    ensures Inv(SetStatus(s, i, status))
  {
    hide Good, Ends, LastTurn, LastStep, Closed, LandedClosers, CountsOk;
    StatusKeepsCounts(s, i, status);
    var u := SetStatus(s, i, status);
    forall k | 0 <= k < |u.tickets| ensures StatusOk(u, k) { assert StatusOk(s, k); }
  }

  lemma RefuseKeepsInv(s: State, fault: bool)
    requires Inv(s) && s.next < |s.tickets| && !s.tickets[s.next].status.Landed?
    ensures Inv(Refuse(s, fault))
  {
    hide Good, Ends, LastTurn, LastStep, Closed, LandedClosers, CountsOk;
    var status := if s.tickets[s.next].job.Close? then Checking(fault) else Rejected(fault);
    StatusKeepsCounts(s, s.next, status);
    var u := Refuse(s, fault);
    forall k | 0 <= k < |u.tickets| ensures StatusOk(u, k) { assert StatusOk(s, k); }
  }

  // ----- landing -----

  lemma BatchNumbered(s: State)
    requires Inv(s) && Enabled(s, DoLand) && Accepts(s.log, BatchAt(s))
    ensures NumberedOn(s.log, BatchAt(s))
  {
    hide Ends, LastTurn, LastStep, NumberedOn, TurnNumbers, StepNumbers, CountsOk, Closed, Accepts;
    var t := s.tickets[s.next];
    assert StatusOk(s, s.next);
    match t.job {
      case Begin(request) => BeginNumbered(s.log, request);
      case NextStep(previous, request) =>
        AcceptsFirst(s.log, BatchAt(s));
        NextNumbered(s.log, previous, request);
      case _ => NoStartsNumbered(s.log, BatchAt(s));
    }
  }

  lemma {:induction false} EndsConcat(a: seq<Event>, b: seq<Event>, turn: nat)
    ensures Ends(a + b, turn) == Ends(a, turn) + Ends(b, turn)
  {
    if b == [] {
      assert a + b == a;
    } else {
      var n := |b| - 1;
      EndsConcat(a, b[..n], turn);
      assert (a + b)[..|a + b| - 1] == a + b[..n];
      assert (a + b)[|a + b| - 1] == b[n];
    }
  }

  lemma {:induction false} NoEnds(events: seq<Event>, turn: nat)
    requires forall e :: e in events ==> !e.TurnEnd?
    ensures Ends(events, turn) == 0
  {
    if events != [] { NoEnds(events[..|events| - 1], turn); }
  }

  /** A closing batch ends its turn once, every other batch ends none. */
  lemma BatchEnds(job: Job, turn: nat, step: nat, t: nat)
    requires Queued(job)
    ensures Ends(Batch(job, turn, step), t) == if Closer(job, t) then 1 else 0
  {
    hide Ends;
    var batch := Batch(job, turn, step);
    if job.Close? && !job.closing.Suspend? {
      var n := |batch| - 1;
      assert batch == batch[..n] + [batch[n]];
      EndsConcat(batch[..n], [batch[n]], t);
      NoEnds(batch[..n], t);
      OneEnd(batch[n], t);
    } else {
      NoEnds(batch, t);
    }
  }

  lemma OneEnd(e: Event, t: nat)
    ensures Ends([e], t) == if e.TurnEnd? && e.turn == t then 1 else 0
  {
    assert [e][..0] == [];
  }

  lemma LandKeepsInv(s: State)
    requires Inv(s) && Enabled(s, DoLand) && Accepts(s.log, BatchAt(s))
    ensures Inv(Land(s))
  {
    hide Ends, LastTurn, LastStep, NumberedOn, TurnNumbers, StepNumbers, Accepts, Good, LandedClosers, Batch;
    var u := Land(s);
    BatchNumbered(s);
    AcceptedMode(s.log, BatchAt(s));
    GoodBatch(s.log, BatchAt(s));
    var landed := Ticket(s.tickets[s.next].job, Landed(HandleAt(s)));
    assert u.tickets == s.tickets[s.next := landed];
    assert StatusOk(s, s.next);
    forall t: nat ensures Ends(u.log, t) == LandedClosers(u.tickets, t) {
      EndsConcat(s.log, BatchAt(s), t);
      BatchEnds(s.tickets[s.next].job, if s.tickets[s.next].status.Numbered? then s.tickets[s.next].status.turn else 0,
                if s.tickets[s.next].status.Numbered? then s.tickets[s.next].status.step else 0, t);
      LandedUpdate(s.tickets, s.next, landed, t);
    }
    forall k | 0 <= k < |u.tickets| ensures StatusOk(u, k) { assert StatusOk(s, k); }
  }

  lemma ToolKeepsInv(s: State, e: Event)
    requires Inv(s) && !Bracket(e) && Accepts(s.log, [e])
    ensures Inv(s.(log := s.log + [e]))
  {
    hide Ends, LastTurn, LastStep, TurnNumbers, StepNumbers, Good, LandedClosers, ModeOf;
    AcceptedMode(s.log, [e]);
    GoodAppend(s.log, e);
    CountsAppend(s.log, e);
    var u := s.(log := s.log + [e]);
    forall k | 0 <= k < |u.tickets| ensures StatusOk(u, k) { assert StatusOk(s, k); }
  }

  lemma StepKeepsInv(s: State, a: Action)
    requires Inv(s) && Enabled(s, a)
    ensures Inv(Apply(s, a))
  {
    hide Good, Ends, LastTurn, LastStep, LandedClosers, CountsOk, BatchAt, Accepts, Closed;
    match a {
      case DoEnqueue(job) => EnqueueKeepsInv(s, job);
      case DoStart =>
        assert StatusOk(s, s.next);
        StatusKeepsInv(s, s.next, Running);
      case DoNumber =>
        assert StatusOk(s, s.next);
        StatusKeepsInv(s, s.next, Numbered(LastTurn(s.log) + 1, LastStep(s.log) + 1));
      case DoReadFails => RefuseKeepsInv(s, true);
      case DoLand => if Accepts(s.log, BatchAt(s)) { LandKeepsInv(s); } else { RefuseKeepsInv(s, false); }
      case DoLandFails => RefuseKeepsInv(s, true);
      case DoCheck(i) =>
        assert StatusOk(s, i);
        StatusKeepsInv(s, i, Check(s, i).tickets[i].status);
      case DoCheckFails(i) =>
        assert StatusOk(s, i);
        StatusKeepsInv(s, i, Rejected(true));
      case DoTool(e) => if Accepts(s.log, [e]) { ToolKeepsInv(s, e); }
    }
  }

  lemma InitInv()
    ensures Inv(Init())
  {
    assert UpTo(0) == [];
  }

  lemma {:induction false} RunKeepsInv(s: State, acts: seq<Action>)
    requires Inv(s) && ValidRun(s, acts)
    ensures Inv(Run(s, acts))
    decreases |acts|
  {
    hide Inv, Apply, Enabled;
    if acts != [] {
      StepKeepsInv(s, acts[0]);
      RunKeepsInv(Apply(s, acts[0]), acts[1..]);
    }
  }

  /**
   Whatever handles the builders are given and however reads and appends fail, the log stays
   bracketed with at most one turn and one step open, its turns and its steps are numbered
   1, 2, 3, ..., every turn and every step ends at most once, and a turn ended exactly as often
   as closers landed on it.
   */
  lemma SessionOnEveryRun(acts: seq<Action>, turn: nat, step: nat)
    requires ValidRun(Init(), acts)
    ensures var s := Run(Init(), acts);
      && ModeOf(s.log).Some?
      && TurnNumbers(s.log) == UpTo(|TurnNumbers(s.log)|)
      && StepNumbers(s.log) == UpTo(|StepNumbers(s.log)|)
      && LandedClosers(s.tickets, turn) == Ends(s.log, turn) <= 1
      && StepEnds(s.log, step) <= 1
  {
    hide Ends, StepEnds, LandedClosers, ValidRun, Run, TurnNumbers, StepNumbers, LastTurn, LastStep;
    InitInv();
    RunKeepsInv(Init(), acts);
    var s := Run(Init(), acts);
    assert Ends(s.log, turn) <= 1 && StepEnds(s.log, step) <= 1;
  }

  /** Whatever the operations before it did, the head of the queue can always take a step, and it leaves when it appends. */
  lemma QueueNeverSticks(s: State)
    requires Inv(s) && s.next < |s.tickets|
    ensures Enabled(s, DoStart) || Enabled(s, DoNumber) || Enabled(s, DoLand)
    ensures Enabled(s, DoLand) ==>
      Apply(s, DoLand).next == s.next + 1 && Enabled(s, DoLandFails) && Apply(s, DoLandFails).next == s.next + 1
  {
    hide Good, Accepts, Batch;
    assert StatusOk(s, s.next);
  }
}

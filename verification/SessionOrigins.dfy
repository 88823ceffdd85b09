/** What a session log is made of. */
module SessionOrigins {
  // The log of every run is made of the batches of the tickets that landed, whole and in queue order,
  // and of single events of the tool executor; and every bracket in it comes with its batch.

  import opened Wrappers
  import opened HistoryModel
  import opened SessionModel
  import opened SessionSafety
  import opened SessionSuspension

  // ----- the log as landings -----

  /** A stretch of the log: the batch of a ticket, or one event of the tool executor. */
  datatype Piece = Landing(ticket: nat, handle: Handle) | Beside(event: Event)

  /** The jobs of a run, in the order they were queued. */
  function Jobs(acts: seq<Action>): seq<Job> {
    if acts == [] then []
    else
      var last := acts[|acts| - 1];
      Jobs(acts[..|acts| - 1]) + if last.DoEnqueue? then [last.job] else []
  }

  function Written(p: Piece, jobs: seq<Job>): seq<Event> {
    match p
    case Landing(k, h) => if k < |jobs| then Batch(jobs[k], h.turn, h.step) else []
    case Beside(e) => [e]
  }

  function AllWritten(pieces: seq<Piece>, jobs: seq<Job>): seq<Event> {
    if pieces == [] then [] else AllWritten(pieces[..|pieces| - 1], jobs) + Written(pieces[|pieces| - 1], jobs)
  }

  ghost predicate PieceOk(p: Piece, s: State, jobs: seq<Job>, acts: seq<Action>) {
    match p
    case Landing(k, h) =>
      && k < s.next && k < |s.tickets| && k < |jobs| && s.tickets[k].status == Landed(h)
      && h == HandleOf(jobs[k], h.turn, h.step)
    case Beside(e) => DoTool(e) in acts
  }

  /** The tickets of two landings stand in queue order. */
  ghost predicate InQueueOrder(pieces: seq<Piece>) {
    forall i, j :: 0 <= i < j < |pieces| && pieces[i].Landing? && pieces[j].Landing? ==> pieces[i].ticket < pieces[j].ticket
  }

  ghost predicate Lands(pieces: seq<Piece>, k: nat, h: Handle) {
    Landing(k, h) in pieces
  }

  /** The log is what these pieces wrote, and each ticket that landed is among them. */
  ghost predicate MadeOf(s: State, pieces: seq<Piece>, acts: seq<Action>) {
    var jobs := Jobs(acts);
    && s.log == AllWritten(pieces, jobs)
    && |s.tickets| == |jobs| && (forall k :: 0 <= k < |jobs| ==> s.tickets[k].job == jobs[k])
    && (forall p :: p in pieces ==> PieceOk(p, s, jobs, acts))
    && InQueueOrder(pieces)
    && (forall k: nat :: k < |s.tickets| && s.tickets[k].status.Landed? ==> Lands(pieces, k, s.tickets[k].status.handle))
  }

  lemma JobsSnoc(past: seq<Action>, a: Action)
    ensures Jobs(past + [a]) == Jobs(past) + if a.DoEnqueue? then [a.job] else []
  {
    assert (past + [a])[..|past|] == past;
  }

  lemma WrittenSnoc(pieces: seq<Piece>, p: Piece, jobs: seq<Job>)
    ensures AllWritten(pieces + [p], jobs) == AllWritten(pieces, jobs) + Written(p, jobs)
  {
    assert (pieces + [p])[..|pieces|] == pieces;
  }

  /** What landed is not changed by a job that joins the queue. */
  lemma {:induction false} WrittenStays(pieces: seq<Piece>, jobs: seq<Job>, job: Job)
    requires forall p :: p in pieces && p.Landing? ==> p.ticket < |jobs|
    ensures AllWritten(pieces, jobs + [job]) == AllWritten(pieces, jobs)
  {
    hide Batch;
    if pieces != [] {
      var n := |pieces| - 1;
      assert pieces[n] in pieces;
      WrittenStays(pieces[..n], jobs, job);
    }
  }

  /** A step that changes neither the log nor what landed. */
  lemma QuietMade(s: State, t: State, pieces: seq<Piece>, acts: seq<Action>, a: Action)
    requires MadeOf(s, pieces, acts) && !a.DoEnqueue? && t.log == s.log && s.next <= t.next
    requires |t.tickets| == |s.tickets|
    requires forall k :: 0 <= k < |s.tickets| ==>
      && t.tickets[k].job == s.tickets[k].job
      && (s.tickets[k].status.Landed? || t.tickets[k].status.Landed? ==> t.tickets[k].status == s.tickets[k].status)
    ensures MadeOf(t, pieces, acts + [a])
  {
    hide AllWritten;
    JobsSnoc(acts, a);
    assert Jobs(acts + [a]) == Jobs(acts);
    forall p | p in pieces ensures PieceOk(p, t, Jobs(acts), acts + [a]) { assert PieceOk(p, s, Jobs(acts), acts); }
  }

  lemma EnqueueMade(s: State, job: Job, pieces: seq<Piece>, acts: seq<Action>)
    requires MadeOf(s, pieces, acts)
    ensures MadeOf(Enqueue(s, job), pieces, acts + [DoEnqueue(job)])
  {
    hide AllWritten;
    var t, jobs := Enqueue(s, job), Jobs(acts);
    JobsSnoc(acts, DoEnqueue(job));
    forall p | p in pieces ensures PieceOk(p, t, jobs + [job], acts + [DoEnqueue(job)]) {
      assert PieceOk(p, s, jobs, acts);
    }
    forall p | p in pieces && p.Landing? ensures p.ticket < |jobs| { assert PieceOk(p, s, jobs, acts); }
    WrittenStays(pieces, jobs, job);
  }

  lemma ToolMade(s: State, e: Event, pieces: seq<Piece>, acts: seq<Action>) returns (more: seq<Piece>)
    requires MadeOf(s, pieces, acts)
    ensures MadeOf(AppendBeside(s, e), more, acts + [DoTool(e)])
  {
    hide AllWritten, Accepts;
    var t, jobs := AppendBeside(s, e), Jobs(acts);
    JobsSnoc(acts, DoTool(e));
    assert Jobs(acts + [DoTool(e)]) == jobs;
    more := if Accepts(s.log, [e]) then pieces + [Beside(e)] else pieces;
    WrittenSnoc(pieces, Beside(e), jobs);
    forall p | p in more ensures PieceOk(p, t, jobs, acts + [DoTool(e)]) {
      if p in pieces { assert PieceOk(p, s, jobs, acts); }
    }
    forall k: nat | k < |t.tickets| && t.tickets[k].status.Landed? ensures Lands(more, k, t.tickets[k].status.handle) {
      assert Lands(pieces, k, s.tickets[k].status.handle);
    }
  }

  /** The batch at the head of the queue is the one its handle names. */
  lemma BatchIsOfHandle(s: State)
    requires s.next < |s.tickets| && StatusOk(s, s.next)
    ensures var job, h := s.tickets[s.next].job, HandleAt(s);
      BatchAt(s) == Batch(job, h.turn, h.step) && h == HandleOf(job, h.turn, h.step)
  {
  }

  lemma LandMade(s: State, pieces: seq<Piece>, acts: seq<Action>) returns (more: seq<Piece>)
    requires MadeOf(s, pieces, acts) && Inv(s) && Enabled(s, DoLand) && Accepts(s.log, BatchAt(s))
    ensures MadeOf(Land(s), more, acts + [DoLand])
  {
    hide AllWritten, Accepts, Good, CountsOk, HandleAt, BatchAt, Batch;
    var t, jobs, h := Land(s), Jobs(acts), HandleAt(s);
    JobsSnoc(acts, DoLand);
    assert Jobs(acts + [DoLand]) == jobs;
    assert StatusOk(s, s.next);
    BatchIsOfHandle(s);
    more := pieces + [Landing(s.next, h)];
    WrittenSnoc(pieces, Landing(s.next, h), jobs);
    forall p | p in more ensures PieceOk(p, t, jobs, acts + [DoLand]) {
      if p in pieces { assert PieceOk(p, s, jobs, acts); }
    }
    forall i, j | 0 <= i < j < |more| && more[i].Landing? && more[j].Landing? ensures more[i].ticket < more[j].ticket {
      assert more[i] in pieces;
      assert PieceOk(more[i], s, jobs, acts);
    }
    forall k: nat | k < |t.tickets| && t.tickets[k].status.Landed? ensures Lands(more, k, t.tickets[k].status.handle) {
      if k == s.next { assert more[|pieces|] == Landing(k, h); } else { assert Lands(pieces, k, s.tickets[k].status.handle); }
    }
  }

  lemma StepMade(s: State, a: Action, pieces: seq<Piece>, acts: seq<Action>) returns (more: seq<Piece>)
    requires MadeOf(s, pieces, acts) && Inv(s) && Enabled(s, a)
    ensures MadeOf(Apply(s, a), more, acts + [a])
  {
    hide MadeOf, Accepts, Good, CountsOk, BatchAt, HandleAt, Closed, LastTurn, LastStep;
    more := pieces;
    if s.next < |s.tickets| { assert StatusOk(s, s.next); }
    match a {
      case DoEnqueue(job) => EnqueueMade(s, job, pieces, acts);
      case DoTool(e) => more := ToolMade(s, e, pieces, acts);
      case DoLand =>
        if Accepts(s.log, BatchAt(s)) { more := LandMade(s, pieces, acts); } else { QuietMade(s, Apply(s, a), pieces, acts, a); }
      case _ => QuietMade(s, Apply(s, a), pieces, acts, a);
    }
  }

  lemma {:induction false} RunMade(s: State, acts: seq<Action>, pieces: seq<Piece>, past: seq<Action>) returns (more: seq<Piece>)
    requires MadeOf(s, pieces, past) && Inv(s) && ValidRun(s, acts)
    ensures MadeOf(Run(s, acts), more, past + acts)
    decreases |acts|
  {
    hide MadeOf, Inv, Apply, Enabled;
    if acts == [] {
      assert past + acts == past;
      more := pieces;
    } else {
      more := StepMade(s, acts[0], pieces, past);
      StepKeepsInv(s, acts[0]);
      more := RunMade(Apply(s, acts[0]), acts[1..], more, past + [acts[0]]);
      assert past + acts == (past + [acts[0]]) + acts[1..];
    }
  }

  /**
   On every run the log is made of whole batches and nothing else: each is the batch of one queued job
   under the handle its caller got, in queue order; every caller that got a handle has its batch there,
   once; and what is between them was appended by the tool executor, event by event.
   */
  lemma LogIsTheLandings(acts: seq<Action>) returns (pieces: seq<Piece>)
    requires ValidRun(Init(), acts)
    ensures MadeOf(Run(Init(), acts), pieces, acts)
  {
    hide Run, ValidRun;
    InitInv();
    pieces := RunMade(Init(), acts, [], []);
    assert [] + acts == acts;
  }

  // ----- no ticket is refused without a reason -----

  /** The append of the head of the queue lands exactly when the history takes its batch; nobody else's ticket changes. */
  lemma LandsIffAccepted(s: State)
    requires Inv(s) && Enabled(s, DoLand)
    ensures var t, h, job := Apply(s, DoLand), HandleAt(s), s.tickets[s.next].job;
      && |t.tickets| == |s.tickets| && t.next == s.next + 1
      && (t.tickets[s.next].status == Landed(h) <==> Accepts(s.log, Batch(job, h.turn, h.step)))
      && (t.tickets[s.next].status == Landed(h) ==> t.log == s.log + Batch(job, h.turn, h.step))
      && (t.tickets[s.next].status != Landed(h) ==>
            t.log == s.log && t.tickets[s.next].status == (if job.Close? then Checking(false) else Rejected(false)))
      && (forall k :: 0 <= k < |s.tickets| && k != s.next ==> t.tickets[k] == s.tickets[k])
  {
    hide Good, CountsOk, GuardOf, Batch;
    assert StatusOk(s, s.next);
    BatchIsOfHandle(s);
  }

  // ----- every bracket comes with its batch -----

  /** A step opens with the header of a request of that step, its context and its first attempt. */
  predicate OpensWith(log: seq<Event>, i: int, turn: nat, step: nat, reason: string) {
    && 0 <= i && i + 2 < |log| && log[i].RequestHeader?
    && log[i].handle.turn == turn && log[i].handle.step == step && log[i].reason == reason
    && log[i + 1] == RequestContext(log[i].handle.request)
    && log[i + 2] == RequestAttempt(log[i].handle.request, 1, None)
  }

  /** What stands around a bracket event. */
  predicate Whole(log: seq<Event>, i: nat)
    requires i < |log|
  {
    match log[i]
    case TurnStart(t) => i + 2 < |log| && log[i + 1] == UserMessage(t) && log[i + 2].StepStart? && log[i + 2].turn == t
    case StepStart(t, s) =>
      || (i >= 2 && log[i - 2] == TurnStart(t) && OpensWith(log, i + 1, t, s, "initial"))
      || (i >= 1 && s >= 1 && log[i - 1] == StepEnd(t, s - 1, "completed") && OpensWith(log, i + 1, t, s, "step"))
    case StepEnd(t, s, reason) =>
      i + 1 < |log| && (log[i + 1] == TurnEnd(t, reason) || (reason == "completed" && log[i + 1] == StepStart(t, s + 1)))
    case TurnSuspend(t, s, _, _) =>
      i >= 1 && log[i - 1].AssistantMessage? && log[i - 1].handle.turn == t && log[i - 1].handle.step == s
    case TurnResume(t, s, cause) =>
      || (cause == "response" && OpensWith(log, i + 1, t, s, "resume"))
      || (cause == "cancel" && i + 1 < |log| && log[i + 1] == StepEnd(t, s, "aborted"))
    case _ => true
  }

  ghost predicate AllWhole(log: seq<Event>) {
    forall i: nat :: i < |log| ==> Whole(log, i)
  }

  /** `log` stands in `all` from position `n` on. */
  ghost predicate Embeds(log: seq<Event>, all: seq<Event>, n: nat) {
    n + |log| <= |all| && forall k :: 0 <= k < |log| ==> all[n + k] == log[k]
  }

  lemma OpensShifts(log: seq<Event>, all: seq<Event>, n: nat, i: nat, turn: nat, step: nat, reason: string)
    requires Embeds(log, all, n) && OpensWith(log, i, turn, step, reason)
    ensures OpensWith(all, n + i, turn, step, reason)
  {
    assert all[n + i] == log[i] && all[n + (i + 1)] == log[i + 1] && all[n + (i + 2)] == log[i + 2];
  }

  lemma StartShifts(log: seq<Event>, all: seq<Event>, n: nat, i: nat)
    requires Embeds(log, all, n) && i < |log| && log[i].StepStart? && Whole(log, i)
    ensures Whole(all, n + i)
  {
    hide OpensWith;
    assert all[n + i] == log[i];
    assert i >= 1 && all[n + (i - 1)] == log[i - 1];
    var e := log[i];
    if i >= 2 && log[i - 2] == TurnStart(e.turn) && OpensWith(log, i + 1, e.turn, e.step, "initial") {
      assert all[n + (i - 2)] == log[i - 2];
      OpensShifts(log, all, n, i + 1, e.turn, e.step, "initial");
    } else {
      OpensShifts(log, all, n, i + 1, e.turn, e.step, "step");
    }
  }

  lemma WholeShifts(log: seq<Event>, all: seq<Event>, n: nat, i: nat)
    requires Embeds(log, all, n) && i < |log| && Whole(log, i)
    ensures Whole(all, n + i)
  {
    hide OpensWith;
    assert all[n + i] == log[i];
    match log[i]
    case TurnStart(t) => assert all[n + (i + 1)] == log[i + 1] && all[n + (i + 2)] == log[i + 2];
    case StepStart(_, _) => StartShifts(log, all, n, i);
    case StepEnd(_, _, _) => assert all[n + (i + 1)] == log[i + 1];
    case TurnSuspend(_, _, _, _) => assert all[n + (i - 1)] == log[i - 1];
    case TurnResume(t, s, cause) =>
      if OpensWith(log, i + 1, t, s, "resume") { OpensShifts(log, all, n, i + 1, t, s, "resume"); }
      else { assert all[n + (i + 1)] == log[i + 1]; }
    case _ =>
  }

  lemma WholeConcat(a: seq<Event>, b: seq<Event>)
    requires AllWhole(a) && AllWhole(b)
    ensures AllWhole(a + b)
  {
    hide Whole;
    forall i: nat | i < |a + b| ensures Whole(a + b, i) {
      if i < |a| { WholeShifts(a, a + b, 0, i); } else { WholeShifts(b, a + b, |a|, i - |a|); }
    }
  }

  lemma NeutralWhole(events: seq<Event>)
    requires forall e :: e in events ==> !Bracket(e)
    ensures AllWhole(events)
  {
    forall i: nat | i < |events| ensures Whole(events, i) { assert events[i] in events; }
  }

  lemma BatchWhole(job: Job, turn: nat, step: nat)
    requires Queued(job)
    ensures AllWhole(Batch(job, turn, step))
  {
    match job
    case Append(events) => NeutralWhole(events);
    case Begin(_) => BeginWhole(job, turn, step);
    case NextStep(_, _) =>
    case Resume(_, _) =>
    case Close(h, closing) => CloseWhole(h, closing);
  }

  lemma BeginWhole(job: Job, turn: nat, step: nat)
    requires job.Begin?
    ensures AllWhole(Batch(job, turn, step))
  {
    var batch := Batch(job, turn, step);
    assert batch[0] == TurnStart(turn) && batch[1] == UserMessage(turn) && batch[2] == StepStart(turn, step);
    assert batch[3] == RequestHeader(Handle(turn, step, job.request), "initial");
  }

  lemma CloseWhole(h: Handle, closing: Closing)
    ensures AllWhole(ClosingBatch(h, closing))
  {
  }

  lemma StepWhole(s: State, a: Action)
    requires Inv(s) && Enabled(s, a) && AllWhole(s.log)
    ensures AllWhole(Apply(s, a).log)
  {
    hide Good, CountsOk, Accepts, AllWhole, Batch, HandleAt, BatchAt;
    if a.DoLand? {
      assert StatusOk(s, s.next);
      BatchIsOfHandle(s);
      BatchWhole(s.tickets[s.next].job, HandleAt(s).turn, HandleAt(s).step);
      WholeConcat(s.log, BatchAt(s));
    }
    if a.DoTool? {
      NeutralWhole([a.event]);
      WholeConcat(s.log, [a.event]);
    }
  }

  lemma {:induction false} RunWhole(s: State, acts: seq<Action>)
    requires Inv(s) && AllWhole(s.log) && ValidRun(s, acts)
    ensures AllWhole(Run(s, acts).log)
    decreases |acts|
  {
    hide Inv, Enabled, Apply, AllWhole;
    if acts != [] {
      StepKeepsInv(s, acts[0]);
      StepWhole(s, acts[0]);
      RunWhole(Apply(s, acts[0]), acts[1..]);
    }
  }

  /**
   On every run the brackets come whole: a turn begins with its user message and a step; a step begins
   behind the start of its turn or behind the completed step before it, and opens with the header, the
   context and the first attempt of one request of that step; a step ends with its turn, for the same
   reason, or gives way to the next; a suspension stands behind the message of its step; a resume opens a
   request of that step again or ends it as aborted.
   */
  lemma BracketsComeWhole(acts: seq<Action>, i: nat)
    requires ValidRun(Init(), acts) && i < |Run(Init(), acts).log|
    ensures Whole(Run(Init(), acts).log, i)
  {
    hide Inv, Whole, Run, ValidRun;
    InitInv();
    assert AllWhole(Init().log);
    RunWhole(Init(), acts);
  }

  // ----- how a response settles its step -----

  /**
   What the end of a provider stream leaves, once its batch landed: without a message id nothing is
   queued; otherwise the message of the response, under its own handle and finish reason, and behind it
   the suspension on exactly the calls and approvals that wait, if any, or the end of the turn, as aborted
   or completed by the finish reason.
   */
  lemma ResponseSettles(log: seq<Event>, h: Handle, id: string, finish: string, waiting: Option<(seq<string>, seq<string>)>)
    ensures SettleJob(h, id, finish, waiting).None? <==> id == ""
    ensures SettleJob(h, id, finish, waiting).Some? && Accepts(log, Batch(SettleJob(h, id, finish, waiting).value, 0, 0)) ==>
      var after := log + Batch(SettleJob(h, id, finish, waiting).value, 0, 0);
      var waits := waiting.Some? && (waiting.value.0 != [] || waiting.value.1 != []);
      && log <= after && |after| > |log| && after[|log|] == AssistantMessage(h, finish)
      && ModeOf(after) == Some(if waits then Paused(h.turn, h.step) else Idle)
      && (waits ==> after[|log| + 1..] == [TurnSuspend(h.turn, h.step, waiting.value.0, waiting.value.1)])
      && (!waits && finish == "abort" ==>
            after[|log| + 1..] == [StepEnd(h.turn, h.step, "aborted"), TurnEnd(h.turn, "aborted")])
      && (!waits && finish != "abort" ==>
            after[|log| + 1..] == [StepEnd(h.turn, h.step, "completed"), TurnEnd(h.turn, "completed")])
  {
    hide ModeOf, Accepts;
    var job := SettleJob(h, id, finish, waiting);
    if job.Some? && Accepts(log, Batch(job.value, 0, 0)) {
      LandedLeaves(log, job.value, 0, 0);
      var batch := Batch(job.value, 0, 0);
      assert (log + batch)[|log| + 1..] == batch[1..];
    }
  }
}

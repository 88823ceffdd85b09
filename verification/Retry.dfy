/** The retry loop, its log and stream. */
module Retry {
  // The retry loop proved against RetryModel, and the grammar of the log it writes.

  import opened Wrappers
  import opened RetryModel

  /** `Math.max(1, Math.floor(input.maxAttempts ?? 3))`. */
  function AttemptBound(maxAttempts: Option<real>): (r: nat)
    ensures r >= 1
  {
    var n := if maxAttempts.Some? then maxAttempts.value.Floor else 3;
    if n < 1 then 1 else n
  }

  function DelayBound(maxDelayMs: Option<real>): nat {
    var n := if maxDelayMs.Some? then maxDelayMs.value.Floor else 5000;
    if n < 0 then 0 else n
  }

  lemma LogStep<T>(rounds: nat -> Round<T>, attempts: nat, maxAttempts: nat, maxDelay: nat)
    ensures Log(rounds, attempts, maxAttempts, maxDelay) ==
      if attempts == 0 then []
      else Log(rounds, attempts - 1, maxAttempts, maxDelay) + Appended(rounds(attempts), attempts, maxAttempts, maxDelay)
  {
  }

  /** `executeInferenceWithRetry`; the world answers the attempts through `rounds`. */
  method ExecuteInferenceWithRetry<T>(rounds: nat -> Round<T>, maxAttempts: Option<real>, maxDelayMs: Option<real>)
    returns (outcome: Outcome<T>, log: seq<Event>, attempt: nat)
    ensures EndsAt(rounds, attempt, AttemptBound(maxAttempts)) && attempt <= AttemptBound(maxAttempts)
    ensures outcome == Ending(rounds(attempt), attempt, AttemptBound(maxAttempts))
    ensures log == Log(rounds, attempt, AttemptBound(maxAttempts), DelayBound(maxDelayMs))
  {
    hide IsRetryable, RetryDelay, AttemptBound, DelayBound, Log;
    var bound, maximum := AttemptBound(maxAttempts), DelayBound(maxDelayMs);
    log, attempt := [], 1;
    LogStep(rounds, 0, bound, maximum);
    while true
      invariant 1 <= attempt <= bound
      invariant forall a :: 1 <= a < attempt ==> GoesOn(rounds(a), a, bound)
      invariant log == Log(rounds, attempt - 1, bound, maximum)
      decreases bound - attempt
    {
      var round := rounds(attempt);
      LogStep(rounds, attempt, bound, maximum);
      if round.reply.Ok? { return Returned(round.reply.value), log, attempt; }
      var error := round.reply.error;
      if round.aborted || attempt >= bound || !IsRetryable(error) {
        return RequestFailed(attempt, round.aborted), log, attempt;
      }
      var delay := RetryDelay(error, attempt, maximum);
      if !round.scheduleOk { return HistoryFailed, log, attempt; }
      log := log + [Failed(attempt), Scheduled(round.id, attempt, attempt + 1, delay)];
      if !round.waitOk {
        if !round.cancelOk { return HistoryFailed, log, attempt; }
        log := log + [Cancelled(round.id, round.abortedInWait)];
        return RequestFailed(attempt, round.abortedInWait), log, attempt;
      }
      if !round.startOk { return HistoryFailed, log, attempt; }
      log := log + [Started(round.id, attempt + 1), Attempt(attempt + 1, round.id)];
      attempt := attempt + 1;
    }
  }

  // ----- delays -----

  /** A delay is never negative and never above the bound, whatever the server asks for. */
  lemma DelayInRange(f: Failure, attempt: nat, maximum: nat)
    ensures 0 <= RetryDelay(f, attempt, maximum) <= maximum
  {
    hide Power2;
  }

  /** The delay the failure asks for: its own number of milliseconds before the header. */
  function Hint(f: Failure): Option<real> {
    if f.retryAfterMs.Some? && Usable(f.retryAfterMs.value) then Some(f.retryAfterMs.value.value)
    else if f.header.Some? && Usable(HeaderDelay(f.header.value)) then Some(HeaderDelay(f.header.value).value)
    else None
  }

  /** A hint is followed to the millisecond unless it exceeds the bound, which then is the delay. */
  lemma HintFollowed(f: Failure, attempt: nat, maximum: nat)
    requires Hint(f).Some?
    ensures RetryDelay(f, attempt, maximum) as real <= Hint(f).value
    ensures RetryDelay(f, attempt, maximum) == maximum || Hint(f).value < RetryDelay(f, attempt, maximum) as real + 1.0
  {
    hide Power2;
  }

  /** Without a usable hint the delay doubles from 250 ms until it meets the bound. */
  lemma DelayDoubles(f: Failure, attempt: nat, maximum: nat)
    requires attempt >= 1
    requires Hint(f).None?
    ensures RetryDelay(f, 1, maximum) == Min(250, maximum)
    ensures RetryDelay(f, attempt + 1, maximum) == Min(2 * RetryDelay(f, attempt, maximum), maximum)
  {
    assert Power2(attempt) == 2 * Power2(attempt - 1);
  }

  function TotalDelay(log: seq<Event>): int {
    if log == [] then 0
    else
      var e := log[|log| - 1];
      TotalDelay(log[..|log| - 1]) + if e.Scheduled? then e.delay else 0
  }

  lemma {:induction false} TotalDelayConcat(a: seq<Event>, b: seq<Event>)
    ensures TotalDelay(a + b) == TotalDelay(a) + TotalDelay(b)
  {
    if b == [] {
      assert a + b == a;
    } else {
      var n := |b| - 1;
      TotalDelayConcat(a, b[..n]);
      assert (a + b)[..|a + b| - 1] == a + b[..n];
      assert (a + b)[|a + b| - 1] == b[n];
    }
  }

  lemma RoundDelay<T>(r: Round<T>, attempt: nat, maxAttempts: nat, maxDelay: nat)
    ensures 0 <= TotalDelay(Appended(r, attempt, maxAttempts, maxDelay)) <= (if attempt < maxAttempts then maxDelay else 0)
  {
    hide RetryDelay, IsRetryable;
    var events := Appended(r, attempt, maxAttempts, maxDelay);
    if events != [] {
      DelayInRange(r.reply.error, attempt, maxDelay);
      var first := Announced(r, attempt, maxDelay);
      TotalDelayConcat(first, events[2..]);
      assert events == first + events[2..];
      assert TotalDelay(first) == RetryDelay(r.reply.error, attempt, maxDelay) by {
        assert first[..1] == [first[0]] && first[..1][..0] == [];
        assert TotalDelay(first[..1]) == 0;
      }
      assert TotalDelay(events[2..]) == 0 by {
        if |events| == 4 {
          assert events[2..][..1] == [events[2]] && events[2..][..1][..0] == [];
          assert TotalDelay(events[2..][..1]) == 0;
        }
      }
    }
  }

  lemma {:induction false} DelaySoFar<T>(rounds: nat -> Round<T>, attempts: nat, maxAttempts: nat, maxDelay: nat)
    requires attempts <= maxAttempts && 1 <= maxAttempts
    ensures 0 <= TotalDelay(Log(rounds, attempts, maxAttempts, maxDelay)) <= Min(attempts, maxAttempts - 1) * maxDelay
  {
    hide Appended, TotalDelay;
    if attempts == 0 {
      NoDelay();
    } else {
      DelaySoFar(rounds, attempts - 1, maxAttempts, maxDelay);
      RoundDelay(rounds(attempts), attempts, maxAttempts, maxDelay);
      TotalDelayConcat(Log(rounds, attempts - 1, maxAttempts, maxDelay), Appended(rounds(attempts), attempts, maxAttempts, maxDelay));
    }
  }

  /** All retries of a request together wait at most `maxDelay` for each attempt but the first. */
  lemma BackoffBounded<T>(rounds: nat -> Round<T>, last: nat, maxAttempts: nat, maxDelay: nat)
    requires 1 <= maxAttempts && EndsAt(rounds, last, maxAttempts)
    ensures last <= maxAttempts
    ensures 0 <= TotalDelay(Log(rounds, last, maxAttempts, maxDelay)) <= (maxAttempts - 1) * maxDelay
  {
    hide Log, TotalDelay, IsRetryable;
    assert !GoesOn(rounds(maxAttempts), maxAttempts, maxAttempts);
    DelaySoFar(rounds, last, maxAttempts, maxDelay);
    ProductMonotone(Min(last, maxAttempts - 1), maxAttempts - 1, maxDelay);
  }

  lemma ProductMonotone(a: int, b: int, c: nat)
    requires a <= b
    ensures a * c <= b * c
  {
  }

  lemma NoDelay()
    ensures TotalDelay([]) == 0
  {
  }

  // ----- the grammar of the log -----

  /** Where a reader of the retry log stands; `attempt` is the attempt in progress. */
  datatype Stage = Trying(attempt: nat) | AttemptFailed(attempt: nat) | BackingOff(id: string, attempt: nat)
                 | Beginning(id: string, attempt: nat) | GivenUp

  function Follow(s: Stage, e: Event): Option<Stage> {
    match e
    case Failed(a) => if s == Trying(a) then Some(AttemptFailed(a)) else None
    case Scheduled(id, previous, next, _) =>
      if s == AttemptFailed(previous) && next == previous + 1 then Some(BackingOff(id, next)) else None
    case Started(id, a) => if s == BackingOff(id, a) then Some(Beginning(id, a)) else None
    case Attempt(a, id) => if s == Beginning(id, a) then Some(Trying(a)) else None
    case Cancelled(id, _) => if s.BackingOff? && s.id == id then Some(GivenUp) else None
  }

  function Read(s: Stage, log: seq<Event>): Option<Stage>
    decreases |log|
  {
    if log == [] then Some(s)
    else if Follow(s, log[0]).None? then None
    else Read(Follow(s, log[0]).value, log[1..])
  }

  lemma {:induction false} ReadConcat(s: Stage, a: seq<Event>, b: seq<Event>)
    ensures Read(s, a + b) == if Read(s, a).None? then None else Read(Read(s, a).value, b)
    decreases |a|
  {
    hide Follow;
    if a == [] {
      assert a + b == b;
    } else {
      assert (a + b)[1..] == a[1..] + b;
      if Follow(s, a[0]).Some? { ReadConcat(Follow(s, a[0]).value, a[1..], b); }
    }
  }

  /** The stage one attempt leaves behind. */
  function StageAfter<T>(r: Round<T>, attempt: nat, maxAttempts: nat): Stage {
    if !Retries(r, attempt, maxAttempts) || !r.scheduleOk then Trying(attempt)
    else if r.waitOk && r.startOk then Trying(attempt + 1)
    else if !r.waitOk && r.cancelOk then GivenUp
    else BackingOff(r.id, attempt + 1)
  }

  lemma RoundReads<T>(r: Round<T>, attempt: nat, maxAttempts: nat, maxDelay: nat)
    ensures Read(Trying(attempt), Appended(r, attempt, maxAttempts, maxDelay)) == Some(StageAfter(r, attempt, maxAttempts))
  {
    hide IsRetryable, RetryDelay;
    var log := Appended(r, attempt, maxAttempts, maxDelay);
    if log != [] {
      var tail := log[2..];
      assert log[1..][1..] == tail;
      assert Read(Trying(attempt), log) == Read(BackingOff(r.id, attempt + 1), tail) by {
        assert Read(AttemptFailed(attempt), log[1..]) == Read(BackingOff(r.id, attempt + 1), tail);
      }
      if |tail| == 2 {
        assert tail[1..][1..] == [];
        assert Read(Beginning(r.id, attempt + 1), tail[1..]) == Some(Trying(attempt + 1));
      } else if |tail| == 1 {
        assert Follow(BackingOff(r.id, attempt + 1), tail[0]) == Some(GivenUp);
        assert Read(BackingOff(r.id, attempt + 1), tail) == Read(GivenUp, tail[1..]);
      }
    }
  }

  lemma {:induction false} LogReads<T>(rounds: nat -> Round<T>, attempts: nat, maxAttempts: nat, maxDelay: nat)
    requires forall a :: 1 <= a < attempts ==> GoesOn(rounds(a), a, maxAttempts)
    ensures Read(Trying(1), Log(rounds, attempts, maxAttempts, maxDelay)) ==
      Some(if attempts == 0 then Trying(1) else StageAfter(rounds(attempts), attempts, maxAttempts))
  {
    hide Appended, IsRetryable, Read;
    if attempts == 0 {
      ReadNothing();
    } else {
      LogReads(rounds, attempts - 1, maxAttempts, maxDelay);
      RoundReads(rounds(attempts), attempts, maxAttempts, maxDelay);
      ReadConcat(Trying(1), Log(rounds, attempts - 1, maxAttempts, maxDelay), Appended(rounds(attempts), attempts, maxAttempts, maxDelay));
    }
  }

  lemma ReadNothing()
    ensures Read(Trying(1), []) == Some(Trying(1))
  {
  }

  /**
   The log of a finished request follows the grammar: attempts in order from 1, each retry one
   failure and one schedule, each schedule answered by its own start or cancellation. A schedule
   stays unanswered exactly when the append of its answer failed.
   */
  lemma RetryLogGrammar<T>(rounds: nat -> Round<T>, last: nat, maxAttempts: nat, maxDelay: nat)
    requires EndsAt(rounds, last, maxAttempts)
    ensures Read(Trying(1), Log(rounds, last, maxAttempts, maxDelay)).Some?
    ensures var stage := Read(Trying(1), Log(rounds, last, maxAttempts, maxDelay)).value;
      var r := rounds(last);
      && (stage == Trying(last) || stage == GivenUp || stage == BackingOff(r.id, last + 1))
      && (stage == GivenUp ==> Ending(r, last, maxAttempts) == RequestFailed(last, r.abortedInWait))
      && (stage.BackingOff? <==> Ending(r, last, maxAttempts) == HistoryFailed && r.scheduleOk)
      && (Ending(r, last, maxAttempts).Returned? ==> stage == Trying(last))
  {
    hide IsRetryable, Read, Log;
    LogReads(rounds, last, maxAttempts, maxDelay);
  }

  /** Reading the grammar position by position: each schedule is followed by its one answer. */
  ghost predicate Answered(log: seq<Event>, i: nat)
    requires i < |log| && log[i].Scheduled?
  {
    i + 1 < |log| && (log[i + 1] == Started(log[i].id, log[i].next) ||
                      (log[i + 1].Cancelled? && log[i + 1].id == log[i].id && i + 2 == |log|))
  }

  lemma ReadAt(s: Stage, log: seq<Event>, i: nat)
    requires Read(s, log).Some? && i < |log|
    ensures Read(s, log[..i]).Some? && Follow(Read(s, log[..i]).value, log[i]).Some?
    ensures Read(s, log[..i + 1]) == Follow(Read(s, log[..i]).value, log[i])
  {
    hide Follow;
    assert log == log[..i] + log[i..];
    ReadConcat(s, log[..i], log[i..]);
    assert log[..i + 1] == log[..i] + [log[i]];
    ReadConcat(s, log[..i], [log[i]]);
    var m := Read(s, log[..i]).value;
    if Follow(m, log[i]).Some? { assert Read(m, [log[i]]) == Read(Follow(m, log[i]).value, [log[i]][1..]); }
  }

  /** Every schedule of a readable log is answered, but for one that ends the log. */
  lemma SchedulesAnswered(log: seq<Event>, i: nat)
    requires Read(Trying(1), log).Some? && i < |log| && log[i].Scheduled?
    ensures Answered(log, i) || (i + 1 == |log| && Read(Trying(1), log).value.BackingOff?)
  {
    hide Read;
    ReadAt(Trying(1), log, i);
    if i + 1 < |log| {
      ReadAt(Trying(1), log, i + 1);
      if i + 2 < |log| { ReadAt(Trying(1), log, i + 2); }
    } else {
      assert log[..i + 1] == log;
    }
  }

  /** Every start or cancellation answers the schedule right before it. */
  lemma AnswersScheduled(log: seq<Event>, i: nat)
    requires Read(Trying(1), log).Some? && i < |log| && (log[i].Started? || log[i].Cancelled?)
    ensures i >= 2 && log[i - 1].Scheduled? && log[i - 1].id == log[i].id
    ensures log[i - 2] == Failed(log[i - 1].previous) && log[i - 1].next == log[i - 1].previous + 1
  {
    hide Read;
    ReadAt(Trying(1), log, i);
    if i > 0 { ReadAt(Trying(1), log, i - 1); }
    if i > 1 { ReadAt(Trying(1), log, i - 2); }
    StartsTrying(log[..0]);
  }

  lemma StartsTrying(log: seq<Event>)
    requires log == []
    ensures Read(Trying(1), log) == Some(Trying(1))
  {
  }

  // ----- the retrying stream -----

  datatype Part = Part(kind: string, body: string, error: Option<Failure>)

  const RETRY_PRELUDE_TYPES: set<string> := {
    "start", "start-step", "response-metadata", "text-start", "reasoning-start",
    "tool-input-start", "tool-input-delta", "tool-input-end"}

  /** One attempt's stream: opening it may fail, its reader may break after the parts. */
  datatype Script = Unopened(error: Failure) | Script(parts: seq<Part>, broken: Option<Failure>)

  /** The failure of an error part that carries none: no status, no code, not retryable. */
  const NO_OUTPUT: Failure := Failure(false, None, None, None, "", None, None)

  /** The first part that is neither prelude nor, before it, an error. */
  function PreludeLength(parts: seq<Part>): (n: nat)
    ensures n <= |parts|
    ensures forall i :: 0 <= i < n ==> parts[i].kind in RETRY_PRELUDE_TYPES
    ensures n < |parts| ==> parts[n].kind !in RETRY_PRELUDE_TYPES
  {
    if parts == [] || parts[0].kind !in RETRY_PRELUDE_TYPES then 0 else 1 + PreludeLength(parts[1..])
  }

  /** The stream shows output of this attempt. */
  predicate Exposes(s: Script) {
    s.Script? && PreludeLength(s.parts) < |s.parts| && s.parts[PreludeLength(s.parts)].kind != "error"
  }

  /** What one attempt passes to the visible stream. */
  function Emitted(s: Script): seq<Part> {
    if s.Unopened? then []
    else if Exposes(s) then s.parts
    else if PreludeLength(s.parts) == |s.parts| && s.broken.None? then s.parts
    else []
  }

  function ReplyOf(s: Script): Result<(), Failure> {
    if s.Unopened? then Err(s.error)
    else if Exposes(s) then (if s.broken.None? then Ok(()) else Err(s.broken.value.(committed := true)))
    else if PreludeLength(s.parts) < |s.parts| then
      var e := s.parts[PreludeLength(s.parts)].error;
      Err(if e.Some? then e.value else NO_OUTPUT)
    else if s.broken.Some? then Err(s.broken.value)
    else Ok(())
  }

  /** The `invoke` of the retrying stream: hold the prelude back until something may be shown. */
  method PumpAttempt(script: Script) returns (emitted: seq<Part>, reply: Result<(), Failure>)
    ensures emitted == Emitted(script) && reply == ReplyOf(script)
  {
    emitted := [];
    if script.Unopened? { return emitted, Err(script.error); }
    var exposed, prelude, i := false, [], 0;
    while i < |script.parts|
      invariant i <= |script.parts|
      invariant exposed ==> Exposes(script) && prelude == [] && emitted == script.parts[..i]
      invariant !exposed ==> i <= PreludeLength(script.parts) && prelude == script.parts[..i] && emitted == []
    {
      var part := script.parts[i];
      if !exposed && part.kind == "error" {
        return emitted, Err(if part.error.Some? then part.error.value else NO_OUTPUT);
      }
      if !exposed && part.kind in RETRY_PRELUDE_TYPES {
        prelude := prelude + [part];
      } else {
        exposed := true;
        emitted := emitted + prelude + [part];
        prelude := [];
      }
      i := i + 1;
    }
    if script.broken.Some? {
      return emitted, Err(if exposed then script.broken.value.(committed := true) else script.broken.value);
    }
    return emitted + prelude, Ok(());
  }

  /** Everything the visible stream received up to an attempt. */
  function Visible(scripts: nat -> Script, attempts: nat): seq<Part> {
    if attempts == 0 then [] else Visible(scripts, attempts - 1) + Emitted(scripts(attempts))
  }

  /** An attempt that showed something is never retried. */
  lemma ExposedIsFinal(s: Script, r: Round<()>, attempt: nat, maxAttempts: nat)
    requires r.reply == ReplyOf(s) && Emitted(s) != []
    ensures !Retries(r, attempt, maxAttempts)
  {
  }

  /**
   The visible stream is a prefix of the stream of the last attempt alone, and all of it when the
   request succeeds; no discarded attempt ever showed anything.
   */
  lemma {:induction false} VisibleIsOneAttempt(scripts: nat -> Script, rounds: nat -> Round<()>, last: nat, maxAttempts: nat)
    requires EndsAt(rounds, last, maxAttempts)
    requires forall a :: 1 <= a <= last ==> rounds(a).reply == ReplyOf(scripts(a))
    ensures forall a :: 1 <= a < last ==> Emitted(scripts(a)) == []
    ensures Visible(scripts, last) == Emitted(scripts(last))
    ensures scripts(last).Unopened? ==> Visible(scripts, last) == []
    ensures scripts(last).Script? ==> Visible(scripts, last) <= scripts(last).parts
    ensures Ending(rounds(last), last, maxAttempts).Returned? ==>
      scripts(last).Script? && Visible(scripts, last) == scripts(last).parts
  {
    forall a | 1 <= a < last ensures Emitted(scripts(a)) == [] {
      assert GoesOn(rounds(a), a, maxAttempts);
      if Emitted(scripts(a)) != [] { ExposedIsFinal(scripts(a), rounds(a), a, maxAttempts); }
    }
    NothingShown(scripts, last - 1);
  }

  lemma {:induction false} NothingShown(scripts: nat -> Script, attempts: nat)
    requires forall a :: 1 <= a <= attempts ==> Emitted(scripts(a)) == []
    ensures Visible(scripts, attempts) == []
  {
    hide Emitted;
    if attempts > 0 { NothingShown(scripts, attempts - 1); }
  }
}

/** Why a request was retried, and why it ended. */
module RetryCauses {
  // The retry loop and its stream in terms of what the world did: which failures are retried, why the
  // last attempt was the last, which delays were announced, and what an attempt showed.

  import opened Wrappers
  import opened RetryModel
  import opened Retry

  // ----- which failures are retried -----

  predicate TransientStatus(status: real) {
    status in [408.0, 409.0, 425.0, 429.0] || status >= 500.0
  }

  /** A status in the first of its three places, or without any a code of the connection. */
  ghost predicate Transient(f: Failure) {
    || (exists s :: f.statusCode == Some(s) && TransientStatus(s))
    || (f.statusCode.None? && exists s :: f.status == Some(s) && TransientStatus(s))
    || (f.statusCode.None? && f.status.None? && exists s :: f.responseStatus == Some(s) && TransientStatus(s))
    || (f.statusCode.None? && f.status.None? && f.responseStatus.None?
        && f.code in ["ECONNRESET", "ECONNREFUSED", "EPIPE", "ETIMEDOUT", "UND_ERR_CONNECT_TIMEOUT"])
  }

  lemma RetryableIsTransient(f: Failure)
    ensures IsRetryable(f) <==> !f.committed && Transient(f)
  {
    forall s ensures TransientStatus(s) <==>
      s == 408.0 || s == 409.0 || s == 425.0 || s == 429.0 || s >= 500.0
    {
    }
  }

  /** The attempt failed with nothing shown, transiently, while nobody aborted. */
  ghost predicate Mendable<T>(r: Round<T>) {
    r.reply.Err? && !r.aborted && !r.reply.error.committed && Transient(r.reply.error)
  }

  /**
   Each attempt before the last failed transiently with nothing shown, was scheduled, waited for and
   started again. The last one is the last for exactly one of these reasons, and the outcome names it:
   it succeeded; it may not be retried; or its retry could not be logged, waited for or started.
   */
  lemma EndsForAReason<T>(rounds: nat -> Round<T>, last: nat, maxAttempts: nat)
    requires 1 <= maxAttempts && EndsAt(rounds, last, maxAttempts)
    ensures last <= maxAttempts
    ensures forall a :: 1 <= a < last ==>
      Mendable(rounds(a)) && rounds(a).scheduleOk && rounds(a).waitOk && rounds(a).startOk
    ensures var r, outcome := rounds(last), Ending(rounds(last), last, maxAttempts);
      && (forall v :: outcome == Returned(v) <==> r.reply == Ok(v))
      && (r.reply.Err? && (last == maxAttempts || !Mendable(r)) ==> outcome == RequestFailed(last, r.aborted))
      && (last < maxAttempts && Mendable(r) ==> !(r.scheduleOk && r.waitOk && r.startOk))
      && (last < maxAttempts && Mendable(r) && r.scheduleOk && !r.waitOk && r.cancelOk ==>
            outcome == RequestFailed(last, r.abortedInWait))
      && (outcome == HistoryFailed <==>
            last < maxAttempts && Mendable(r) && (!r.scheduleOk || !(if r.waitOk then r.startOk else r.cancelOk)))
  {
    hide IsRetryable, Transient;
    assert !GoesOn(rounds(maxAttempts), maxAttempts, maxAttempts);
    forall a | 1 <= a <= last ensures Retries(rounds(a), a, maxAttempts) <==> Mendable(rounds(a)) && a < maxAttempts {
      if rounds(a).reply.Err? { RetryableIsTransient(rounds(a).reply.error); }
    }
    forall a | 1 <= a < last ensures GoesOn(rounds(a), a, maxAttempts) {}
  }

  // ----- what the log announces -----

  /** A logged retry carries the id and the delay drawn for the failure of its attempt, or why its wait ended. */
  ghost predicate Announces<T>(rounds: nat -> Round<T>, e: Event, maxDelay: nat) {
    match e
    case Failed(a) => rounds(a).reply.Err?
    case Scheduled(id, previous, next, delay) =>
      && rounds(previous).reply.Err? && id == rounds(previous).id && next == previous + 1
      && delay == RetryDelay(rounds(previous).reply.error, previous, maxDelay)
    case Started(id, a) => a >= 1 && id == rounds(a - 1).id && rounds(a - 1).waitOk
    case Attempt(a, id) => a >= 1 && id == rounds(a - 1).id && rounds(a - 1).waitOk
    case Cancelled(id, byUser) =>
      exists a: nat :: !rounds(a).waitOk && id == rounds(a).id && byUser == rounds(a).abortedInWait
  }

  lemma RoundAnnounces<T>(rounds: nat -> Round<T>, attempt: nat, maxAttempts: nat, maxDelay: nat)
    ensures forall e :: e in Appended(rounds(attempt), attempt, maxAttempts, maxDelay) ==> Announces(rounds, e, maxDelay)
  {
    hide IsRetryable, RetryDelay;
  }

  /** Every event of the retry log says what happened in its attempt. */
  lemma {:induction false} LogAnnounces<T>(rounds: nat -> Round<T>, attempts: nat, maxAttempts: nat, maxDelay: nat)
    ensures forall e :: e in Log(rounds, attempts, maxAttempts, maxDelay) ==> Announces(rounds, e, maxDelay)
  {
    hide Announces, Appended;
    if attempts > 0 {
      LogAnnounces(rounds, attempts - 1, maxAttempts, maxDelay);
      RoundAnnounces(rounds, attempts, maxAttempts, maxDelay);
    }
  }

  // ----- what an attempt shows -----

  /** The part is the first that is no prelude. */
  ghost predicate FirstReal(parts: seq<Part>, i: nat) {
    && i < |parts| && parts[i].kind !in RETRY_PRELUDE_TYPES
    && forall j :: 0 <= j < i ==> parts[j].kind in RETRY_PRELUDE_TYPES
  }

  lemma FirstRealIs(parts: seq<Part>, i: nat)
    requires FirstReal(parts, i)
    ensures i == PreludeLength(parts)
  {
    var n := PreludeLength(parts);
    assert n < |parts|;
  }

  /**
   An attempt whose first real part is no error shows all its parts, and a break after that is a failure
   that must not be retried; one whose first real part is an error shows nothing and fails with it; one
   that ends in the prelude shows it only if nothing broke.
   */
  lemma AttemptShows(s: Script)
    ensures s.Unopened? ==> Emitted(s) == [] && ReplyOf(s) == Err(s.error)
    ensures s.Script? ==> forall i: nat :: FirstReal(s.parts, i) && s.parts[i].kind != "error" ==>
      && Emitted(s) == s.parts
      && (s.broken.None? ==> ReplyOf(s) == Ok(()))
      && (s.broken.Some? ==> ReplyOf(s) == Err(s.broken.value.(committed := true)))
    ensures s.Script? ==> forall i: nat :: FirstReal(s.parts, i) && s.parts[i].kind == "error" ==>
      && Emitted(s) == [] && ReplyOf(s).Err?
      && (s.parts[i].error.Some? ==> ReplyOf(s).error == s.parts[i].error.value)
    ensures s.Script? && (forall p :: p in s.parts ==> p.kind in RETRY_PRELUDE_TYPES) ==>
      && (s.broken.None? ==> Emitted(s) == s.parts && ReplyOf(s) == Ok(()))
      && (s.broken.Some? ==> Emitted(s) == [] && ReplyOf(s) == Err(s.broken.value))
  {
    if s.Script? {
      var n := PreludeLength(s.parts);
      forall i: nat | FirstReal(s.parts, i) ensures i == n { FirstRealIs(s.parts, i); }
      if n < |s.parts| { assert s.parts[n] in s.parts; }
    }
  }
}

/** Failures, delays, the retry log. */
module RetryModel {
  // Inference requests with bounded, durably logged retries: failures, delays and the retry log.

  import opened Wrappers

  /** A JavaScript number, with exact reals for the finite ones. */
  datatype Number = NaN | NegativeInfinity | PositiveInfinity | Finite(value: real)

  /** `retry-after`: the header read as seconds and as the distance of a date from now. */
  datatype RetryAfter = RetryAfter(seconds: Number, fromNow: Number)

  datatype Failure = Failure(committed: bool, statusCode: Option<real>, status: Option<real>, responseStatus: Option<real>,
                             code: string, retryAfterMs: Option<Number>, header: Option<RetryAfter>)

  const RETRYABLE_CODES: set<string> := {"ECONNRESET", "ECONNREFUSED", "EPIPE", "ETIMEDOUT", "UND_ERR_CONNECT_TIMEOUT"}

  function StatusOf(f: Failure): Option<real> {
    if f.statusCode.Some? then f.statusCode else if f.status.Some? then f.status else f.responseStatus
  }

  predicate IsRetryable(f: Failure) {
    if f.committed then false
    else if StatusOf(f).Some? then
      var status := StatusOf(f).value;
      status == 408.0 || status == 409.0 || status == 425.0 || status == 429.0 || status >= 500.0
    else f.code in RETRYABLE_CODES
  }

  function Min(a: int, b: int): int {
    if a < b then a else b
  }

  function Power2(n: nat): nat {
    if n == 0 then 1 else 2 * Power2(n - 1)
  }

  predicate Usable(n: Number) {
    n.Finite? && n.value >= 0.0
  }

  /** The number of milliseconds a header asks for. */
  function HeaderDelay(h: RetryAfter): Number {
    if h.seconds.Finite? then Finite(h.seconds.value * 1000.0) else h.fromNow
  }

  /** `retryDelay`; `attempt` counts from 1. */
  function RetryDelay(f: Failure, attempt: nat, maximum: nat): int {
    if f.retryAfterMs.Some? && Usable(f.retryAfterMs.value) then Min(f.retryAfterMs.value.value.Floor, maximum)
    else if f.header.Some? && Usable(HeaderDelay(f.header.value)) then
      Min(HeaderDelay(f.header.value).value.Floor, maximum)
    else Min(250 * Power2(if attempt == 0 then 0 else attempt - 1), maximum)
  }

  datatype Event =
    | Failed(attempt: nat)
    | Scheduled(id: string, previous: nat, next: nat, delay: int)
    | Started(id: string, attempt: nat)
    | Attempt(attempt: nat, id: string)
    | Cancelled(id: string, byUser: bool)

  /**
   What the world does in one attempt: the reply, the abort signal when the reply failed, the id
   drawn for a retry, and whether each append and the wait succeed.
   */
  datatype Round<T> = Round(reply: Result<T, Failure>, aborted: bool, id: string, scheduleOk: bool,
                            waitOk: bool, abortedInWait: bool, cancelOk: bool, startOk: bool)

  datatype Outcome<T> =
    | Returned(value: T)
    | RequestFailed(attempt: nat, cancelled: bool)
    | HistoryFailed

  /** The attempt failed in a way the loop answers with a retry. */
  predicate Retries<T>(r: Round<T>, attempt: nat, maxAttempts: nat) {
    r.reply.Err? && !r.aborted && attempt < maxAttempts && IsRetryable(r.reply.error)
  }

  /** The loop comes round again. */
  predicate GoesOn<T>(r: Round<T>, attempt: nat, maxAttempts: nat) {
    Retries(r, attempt, maxAttempts) && r.scheduleOk && r.waitOk && r.startOk
  }

  function Announced<T>(r: Round<T>, attempt: nat, maxDelay: nat): seq<Event>
    requires r.reply.Err?
  {
    [Failed(attempt), Scheduled(r.id, attempt, attempt + 1, RetryDelay(r.reply.error, attempt, maxDelay))]
  }

  /** The events the loop appends in one attempt. */
  function Appended<T>(r: Round<T>, attempt: nat, maxAttempts: nat, maxDelay: nat): seq<Event> {
    if !Retries(r, attempt, maxAttempts) || !r.scheduleOk then []
    else
      var answer :=
        if !r.waitOk then (if r.cancelOk then [Cancelled(r.id, r.abortedInWait)] else [])
        else if r.startOk then [Started(r.id, attempt + 1), Attempt(attempt + 1, r.id)]
        else [];
      Announced(r, attempt, maxDelay) + answer
  }

  /** How the loop ends in an attempt that does not go on. */
  function Ending<T>(r: Round<T>, attempt: nat, maxAttempts: nat): Outcome<T> {
    if r.reply.Ok? then Returned(r.reply.value)
    else if !Retries(r, attempt, maxAttempts) then RequestFailed(attempt, r.aborted)
    else if !r.scheduleOk then HistoryFailed
    else if !r.waitOk && r.cancelOk then RequestFailed(attempt, r.abortedInWait)
    else HistoryFailed
  }

  /** What the first `attempts` attempts append. */
  function Log<T>(rounds: nat -> Round<T>, attempts: nat, maxAttempts: nat, maxDelay: nat): seq<Event> {
    if attempts == 0 then []
    else Log(rounds, attempts - 1, maxAttempts, maxDelay) + Appended(rounds(attempts), attempts, maxAttempts, maxDelay)
  }

  /** `last` is the attempt in which the loop ends. */
  ghost predicate EndsAt<T>(rounds: nat -> Round<T>, last: nat, maxAttempts: nat) {
    && 1 <= last && !GoesOn(rounds(last), last, maxAttempts)
    && forall a :: 1 <= a < last ==> GoesOn(rounds(a), a, maxAttempts)
  }
}

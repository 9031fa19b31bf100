/**
 * `process_with_retry`: call an operation up to `max_retries` times, sleeping
 * `initial_delay * 2^attempt` seconds after each rate-limited failure, and turn failures
 * into HTTP errors (500 at once for any other failure, 429 once the attempts run out).
 *
 * The operation is given as `op`, where `op(i)` is the outcome of its `i`-th call (counting
 * from 0), so an operation whose behaviour changes from call to call is covered.  Sleeping
 * is modelled by recording the requested delay.
 */
module Retry {
  import opened RateLimit
  import opened Options

  /** One call of the operation: it returns a value, or raises an exception with `str(e) == msg`. */
  datatype Outcome<+T> = Ok(value: T) | Err(msg: string)

  /** How the wrapper ends: it returns the operation's value, raises an HTTP error, or
      falls off the end of the function and returns `None`. */
  datatype RetryResult<+T> = Returned(value: T) | Raised(error: HttpException) | ReturnedNone

  /** A run of the wrapper: its result, how many times it called the operation, and the
      delays it slept, in order. */
  datatype Trace<+T> = Trace(result: RetryResult<T>, calls: nat, delays: seq<int>)

  /** The keyword defaults `max_retries=3` and `initial_delay=4` (seconds). */
  const DefaultMaxRetries: int := 3
  const DefaultInitialDelay: int := 4

  function Pow2(n: nat): (p: nat)
    ensures p >= 1
  {
    if n == 0 then 1 else 2 * Pow2(n - 1)
  }

  /** The delays slept after the first `n` attempts: `initialDelay * 2^attempt` for each,
      so the first is `initialDelay` and each later one is double the one before. */
  function Backoff(initialDelay: int, n: nat): (b: seq<int>)
    ensures |b| == n
    ensures n > 0 ==> b[0] == initialDelay
    ensures forall i :: 0 < i < n ==> b[i] == 2 * b[i - 1]
  {
    seq(n, i requires 0 <= i < n => initialDelay * Pow2(i))
  }

  function Sum(s: seq<int>): int
  {
    if s == [] then 0 else Sum(s[..|s| - 1]) + s[|s| - 1]
  }

  /** Call `i` failed with a rate-limit error. */
  predicate RateLimitedAt<T>(op: nat -> Outcome<T>, i: nat)
  {
    op(i).Err? && IsRateLimit(op(i).msg)
  }

  /** Calls `0 .. k-1` all failed with rate-limit errors. */
  predicate AllRateLimited<T>(op: nat -> Outcome<T>, k: nat)
  {
    forall i: nat :: i < k ==> RateLimitedAt(op, i)
  }

  /** The first of the calls `0 .. n-1` that is not a rate-limit failure, or `n` if there is none. */
  function FirstNonRateLimited<T>(op: nat -> Outcome<T>, n: nat): (k: nat)
    ensures k <= n
    ensures AllRateLimited(op, k)
    ensures k < n ==> !RateLimitedAt(op, k)
  {
    if n == 0 then 0
    else
      var k := FirstNonRateLimited(op, n - 1);
      if k < n - 1 then k
      else if RateLimitedAt(op, n - 1) then n
      else n - 1
  }

  /** The three facts that define `FirstNonRateLimited` determine it: no other index has them. */
  lemma FirstNonRateLimitedUnique<T>(op: nat -> Outcome<T>, n: nat, k: nat)
    requires k <= n && AllRateLimited(op, k)
    requires k < n ==> !RateLimitedAt(op, k)
    ensures FirstNonRateLimited(op, n) == k
  {
  }

  /** How a call that is not rate-limited ends the wrapper: its value is returned, or its
      exception becomes a 500 carrying `str(e)`. */
  function Settle<T>(o: Outcome<T>): RetryResult<T>
  {
    match o
    case Ok(v) => Returned(v)
    case Err(msg) => Raised(HttpException(500, msg))
  }

  /**
   * The run of the wrapper, in closed form.  No attempts at all return `None`.  Otherwise, if
   * some call before the last permitted one is not rate-limited, the first such call decides
   * the result, with one sleep for each rate-limited call before it; if every permitted call
   * is rate-limited, every one of them is followed by a sleep and the result is a 429.
   */
  function Retried<T>(op: nat -> Outcome<T>, maxRetries: int, initialDelay: int): (t: Trace<T>)
    ensures t.result.ReturnedNone? <==> maxRetries <= 0
    ensures maxRetries <= 0 ==> t.calls == 0 && t.delays == []
    ensures maxRetries > 0 ==> 1 <= t.calls <= maxRetries
    ensures t.delays == Backoff(initialDelay, |t.delays|)
    ensures t.calls > 0 ==> AllRateLimited(op, t.calls - 1)
    ensures t.result.Raised? ==> t.result.error.statusCode in {429, 500}
    ensures t.result.Raised? && t.result.error.statusCode == 429 <==>
              maxRetries > 0 && AllRateLimited(op, maxRetries)
    ensures t.result.Raised? && t.result.error.statusCode == 429 ==>
              t.result.error.detail == RateLimitDetail && t.calls == maxRetries && |t.delays| == t.calls
    ensures t.result.Raised? && t.result.error.statusCode == 500 ==>
              op(t.calls - 1) == Err(t.result.error.detail) && !IsRateLimit(t.result.error.detail)
    ensures t.result.Returned? ==> op(t.calls - 1) == Ok(t.result.value)
    ensures !(t.result.Raised? && t.result.error.statusCode == 429) && t.calls > 0 ==>
              |t.delays| == t.calls - 1
  {
    if maxRetries <= 0 then Trace(ReturnedNone, 0, [])
    else
      var k := FirstNonRateLimited(op, maxRetries);
      if k < maxRetries then Trace(Settle(op(k)), k + 1, Backoff(initialDelay, k))
      else Trace(Raised(HttpException(429, RateLimitDetail)), maxRetries, Backoff(initialDelay, maxRetries))
  }

  lemma BackoffSnoc(initialDelay: int, n: nat)
    ensures Backoff(initialDelay, n) + [initialDelay * Pow2(n)] == Backoff(initialDelay, n + 1)
  {
  }

  /**
   * The wrapper itself, step by step as the source runs it.  `calls` counts the calls of the
   * operation and `delays` records each sleep.  The loop keeps `last_error` a rate-limit
   * error, so the final 500 branch cannot be reached.
   */
  method ProcessWithRetry<T>(op: nat -> Outcome<T>, maxRetries: int, initialDelay: int)
    returns (res: RetryResult<T>, calls: nat, delays: seq<int>)
    ensures Trace(res, calls, delays) == Retried(op, maxRetries, initialDelay)
  {
    var lastError: Option<string> := None;
    res, calls, delays := ReturnedNone, 0, [];
    var attempt: nat := 0;
    while attempt < maxRetries
      invariant attempt == 0 || attempt <= maxRetries
      invariant calls == attempt
      invariant delays == Backoff(initialDelay, attempt)
      invariant AllRateLimited(op, attempt)
      invariant lastError.None? <==> attempt == 0
      invariant lastError.Some? ==> IsRateLimit(lastError.value)
    {
      var outcome := op(attempt);
      calls := calls + 1;
      match outcome {
        case Ok(v) =>
          FirstNonRateLimitedUnique(op, maxRetries, attempt);
          res := Returned(v);
          return;
        case Err(msg) =>
          lastError := Some(msg);
          if IsRateLimit(msg) {
            var delay := initialDelay * Pow2(attempt);
            BackoffSnoc(initialDelay, attempt);
            delays := delays + [delay];
            attempt := attempt + 1;
          } else {
            FirstNonRateLimitedUnique(op, maxRetries, attempt);
            res := Raised(HttpException(500, msg));
            return;
          }
      }
    }
    if lastError.Some? {
      FirstNonRateLimitedUnique(op, maxRetries, maxRetries);
      if IsRateLimit(lastError.value) {
        res := Raised(HttpException(429, RateLimitDetail));
      } else {
        // line 100 of the source: every recorded error is a rate-limit error
        assert false;
      }
    }
  }

  /** Fails rate-limited `k` times, then succeeds: the value is returned after `k + 1` calls
      and the sleeps `initialDelay * 2^0 .. initialDelay * 2^(k-1)`. */
  lemma SucceedsAfterRateLimits<T>(op: nat -> Outcome<T>, maxRetries: int, initialDelay: int, k: nat)
    requires k < maxRetries && AllRateLimited(op, k) && op(k).Ok?
    ensures Retried(op, maxRetries, initialDelay) ==
              Trace(Returned(op(k).value), k + 1, Backoff(initialDelay, k))
  {
    FirstNonRateLimitedUnique(op, maxRetries, k);
  }

  /** A failure that is not a rate limit ends the run at once as a 500 with `str(e)`: no sleep
      for that attempt and no further call. */
  lemma StopsOnOtherFailure<T>(op: nat -> Outcome<T>, maxRetries: int, initialDelay: int, k: nat)
    requires k < maxRetries && AllRateLimited(op, k)
    requires op(k).Err? && !IsRateLimit(op(k).msg)
    ensures Retried(op, maxRetries, initialDelay) ==
              Trace(Raised(HttpException(500, op(k).msg)), k + 1, Backoff(initialDelay, k))
  {
    FirstNonRateLimitedUnique(op, maxRetries, k);
  }

  /** Every permitted call rate-limited: exactly `maxRetries` calls, a sleep after each (the
      last one included), then a 429 with the fixed text. */
  lemma ExhaustedOnRateLimits<T>(op: nat -> Outcome<T>, maxRetries: int, initialDelay: int)
    requires maxRetries > 0 && AllRateLimited(op, maxRetries)
    ensures Retried(op, maxRetries, initialDelay) ==
              Trace(Raised(HttpException(429, RateLimitDetail)), maxRetries, Backoff(initialDelay, maxRetries))
  {
    FirstNonRateLimitedUnique(op, maxRetries, maxRetries);
  }

  lemma SumSnoc(s: seq<int>, x: int)
    ensures Sum(s + [x]) == Sum(s) + x
  {
    assert (s + [x])[..|s|] == s;
  }

  /** The total time slept over `n` backed-off attempts is `initialDelay * (2^n - 1)`. */
  lemma {:induction false} BackoffTotal(initialDelay: int, n: nat)
    ensures Sum(Backoff(initialDelay, n)) == initialDelay * (Pow2(n) - 1)
  {
    if n > 0 {
      BackoffTotal(initialDelay, n - 1);
      BackoffSnoc(initialDelay, n - 1);
      SumSnoc(Backoff(initialDelay, n - 1), initialDelay * Pow2(n - 1));
      calc {
        Sum(Backoff(initialDelay, n));
        initialDelay * (Pow2(n - 1) - 1) + initialDelay * Pow2(n - 1);
        initialDelay * (2 * Pow2(n - 1) - 1);
      }
    }
  }

  /** With the defaults the wrapper always ends by returning or raising, never with `None`,
      and sleeps at most 4, 8 and 16 seconds, in that order. */
  lemma DefaultSchedule<T>(op: nat -> Outcome<T>)
    ensures !Retried(op, DefaultMaxRetries, DefaultInitialDelay).result.ReturnedNone?
    ensures Retried(op, DefaultMaxRetries, DefaultInitialDelay).delays <= [4, 8, 16]
  {
    var t := Retried(op, DefaultMaxRetries, DefaultInitialDelay);
    var full := Backoff(DefaultInitialDelay, 3);
    assert full == [4, 8, 16] by {
      assert Pow2(1) == 2 && Pow2(2) == 4;
    }
    assert t.delays == full[..|t.delays|];
  }
}

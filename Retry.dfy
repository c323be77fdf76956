/** `retryWithBackoff`, `isRetryableError` and `RetryWithCircuitBreaker`
    (server/utils/retry.js).

    The function being retried is an oracle `fn`: `fn(k)` is what its k-th call
    (0-based) resolves or rejects with.  The `setTimeout` waits are not performed;
    each wait, together with the `onRetry(attempt, error, delay)` call that precedes
    it when a callback is supplied, is recorded as a `Notice`. */
module Retry {
  import opened Common
  import ErrorHandler

  /** The parts of a thrown error the retry logic looks at: `error.code`,
      `error.message` and `error.response.status` (absent when there is no response). */
  datatype ApiError = ApiError(code: string, message: string, status: Option<int>)

  /** The numeric options of `retryWithBackoff`; the retry condition is passed separately. */
  datatype RetryOptions = RetryOptions(maxRetries: nat, baseDelay: real, maxDelay: real, backoffFactor: real)

  /** The destructuring defaults: 3 retries, 1 s base delay, 30 s cap, factor 2. */
  const DefaultOptions := RetryOptions(3, 1000.0, 30000.0, 2.0)

  /** One retry: the 1-based number of the attempt that failed, its error and the
      delay waited before the next attempt. */
  datatype Notice = Notice(attempt: nat, error: ApiError, delay: real)

  /** What a call of `retryWithBackoff` amounts to: the value it resolves with or the
      error it throws, how many times `fn` ran, and the retries in order. */
  datatype Outcome<T> = Outcome(result: Result<T, ApiError>, calls: nat, notices: seq<Notice>)

  // ------------------------------------------------------------------ delay

  /** `Math.min(baseDelay * Math.pow(backoffFactor, attempt), maxDelay)`. */
  function Delay(o: RetryOptions, attempt: nat): (d: real)
    ensures d <= o.maxDelay && d <= o.baseDelay * Pow(o.backoffFactor, attempt)
    ensures d == o.maxDelay || d == o.baseDelay * Pow(o.backoffFactor, attempt)
  {
    MinReal(o.baseDelay * Pow(o.backoffFactor, attempt), o.maxDelay)
  }

  lemma {:induction false} PowMonotone(b: real, n: nat)
    requires b >= 1.0
    ensures 1.0 <= Pow(b, n) <= Pow(b, n + 1)
    decreases n
  {
    if n > 0 {
      PowMonotone(b, n - 1);
    }
  }

  /** With a non-negative base delay and a factor of at least 1, the delays never shrink
      from one retry to the next, and none exceeds `maxDelay`. */
  lemma DelayNonDecreasing(o: RetryOptions, attempt: nat)
    requires o.baseDelay >= 0.0 && o.backoffFactor >= 1.0
    ensures Delay(o, attempt) <= Delay(o, attempt + 1) <= o.maxDelay
  {
    PowMonotone(o.backoffFactor, attempt);
    var p := Pow(o.backoffFactor, attempt);
    assert o.baseDelay * p <= o.baseDelay * Pow(o.backoffFactor, attempt + 1);
  }

  // ---------------------------------------------------------- the retry loop

  /** The loop of `retryWithBackoff` from `attempt` on, with the retries recorded so far
      in `notices`.  An attempt that succeeds ends the loop with its value; a failure
      ends it when the retry condition rejects the error or it was the last attempt,
      and otherwise records a retry with the capped exponential delay. */
  function Attempts<T>(o: RetryOptions, retryable: ApiError -> bool, fn: nat -> Result<T, ApiError>,
                       attempt: nat, notices: seq<Notice>): Outcome<T>
    requires attempt <= o.maxRetries
    decreases o.maxRetries - attempt
  {
    match fn(attempt)
    case Ok(v) => Outcome(Ok(v), attempt + 1, notices)
    case Err(e) =>
      if !retryable(e) || attempt == o.maxRetries then Outcome(Err(e), attempt + 1, notices)
      else Attempts(o, retryable, fn, attempt + 1, notices + [Notice(attempt + 1, e, Delay(o, attempt))])
  }

  /** `retryWithBackoff(fn, options)` with `retryCondition` given as `retryable`. */
  function RetryOutcome<T>(o: RetryOptions, retryable: ApiError -> bool, fn: nat -> Result<T, ApiError>): Outcome<T>
  {
    Attempts(o, retryable, fn, 0, [])
  }

  /** Every attempt before the last one failed with an error the condition accepted,
      and was followed by exactly one recorded retry carrying its 1-based number, its
      error and the delay for that attempt. */
  ghost predicate RetriedBefore<T>(o: RetryOptions, retryable: ApiError -> bool, fn: nat -> Result<T, ApiError>,
                                   from: nat, upto: nat, notices: seq<Notice>, offset: nat)
  {
    offset + (upto - from) <= |notices| &&
    forall k | from <= k < upto ::
      fn(k).Err? && retryable(fn(k).error) && notices[offset + k - from] == Notice(k + 1, fn(k).error, Delay(o, k))
  }

  /** What the loop produces from `attempt` on: `fn` runs at most up to attempt
      `maxRetries`; the last call's outcome is the result; a thrown error was either
      rejected by the condition or came from the final attempt; and every earlier call
      failed with a retryable error and was recorded once, after the earlier retries. */
  lemma {:induction false} AttemptsShape<T>(o: RetryOptions, retryable: ApiError -> bool, fn: nat -> Result<T, ApiError>,
                                            attempt: nat, notices: seq<Notice>)
    requires attempt <= o.maxRetries
    ensures var r := Attempts(o, retryable, fn, attempt, notices);
            attempt < r.calls <= o.maxRetries + 1
            && r.result == fn(r.calls - 1)
            && (r.result.Err? ==> !retryable(r.result.error) || r.calls == o.maxRetries + 1)
            && |r.notices| == |notices| + (r.calls - 1 - attempt)
            && r.notices[..|notices|] == notices
            && RetriedBefore(o, retryable, fn, attempt, r.calls - 1, r.notices, |notices|)
    decreases o.maxRetries - attempt
  {
    var r := Attempts(o, retryable, fn, attempt, notices);
    match fn(attempt)
    case Ok(v) =>
    case Err(e) =>
      if !retryable(e) || attempt == o.maxRetries {
      } else {
        var n := Notice(attempt + 1, e, Delay(o, attempt));
        var notices' := notices + [n];
        AttemptsShape(o, retryable, fn, attempt + 1, notices');
        assert r == Attempts(o, retryable, fn, attempt + 1, notices');
        assert r.notices[..|notices'|] == notices';
        assert r.notices[..|notices|] == notices'[..|notices|] == notices;
        assert r.notices[|notices|] == notices'[|notices|] == n;
        forall k | attempt <= k < r.calls - 1
          ensures fn(k).Err? && retryable(fn(k).error)
          ensures r.notices[|notices| + k - attempt] == Notice(k + 1, fn(k).error, Delay(o, k))
        {
          if k > attempt {
            assert |notices'| + k - (attempt + 1) == |notices| + k - attempt;
          }
        }
      }
  }

  /** The whole characterisation of `retryWithBackoff`: at most `maxRetries + 1` calls,
      the last call decides the result, and one notice (one `onRetry` call and one wait)
      per failed attempt before it. */
  lemma RetryCharacterised<T>(o: RetryOptions, retryable: ApiError -> bool, fn: nat -> Result<T, ApiError>)
    ensures var r := RetryOutcome(o, retryable, fn);
            1 <= r.calls <= o.maxRetries + 1
            && r.result == fn(r.calls - 1)
            && (r.result.Err? ==> !retryable(r.result.error) || r.calls == o.maxRetries + 1)
            && |r.notices| == r.calls - 1
            && forall k | 0 <= k < r.calls - 1 ::
                 fn(k).Err? && retryable(fn(k).error) && r.notices[k] == Notice(k + 1, fn(k).error, Delay(o, k))
  {
    var r := RetryOutcome(o, retryable, fn);
    AttemptsShape(o, retryable, fn, 0, []);
    forall k | 0 <= k < r.calls - 1
      ensures fn(k).Err? && retryable(fn(k).error) && r.notices[k] == Notice(k + 1, fn(k).error, Delay(o, k))
    {
      assert 0 + k - 0 == k;
    }
  }

  /** The first successful call's value is returned, after exactly that many calls,
      provided every earlier failure was retryable. */
  lemma FirstSuccessReturned<T>(o: RetryOptions, retryable: ApiError -> bool, fn: nat -> Result<T, ApiError>, k: nat)
    requires k <= o.maxRetries && fn(k).Ok?
    requires forall j | 0 <= j < k :: fn(j).Err? && retryable(fn(j).error)
    ensures RetryOutcome(o, retryable, fn).result == fn(k)
    ensures RetryOutcome(o, retryable, fn).calls == k + 1
  {
    RetryCharacterised(o, retryable, fn);
  }

  /** An error the retry condition rejects is thrown straight after its attempt:
      no further call, no delay and no `onRetry` for it. */
  lemma NonRetryableStopsAtOnce<T>(o: RetryOptions, retryable: ApiError -> bool, fn: nat -> Result<T, ApiError>, k: nat)
    requires k <= o.maxRetries && fn(k).Err? && !retryable(fn(k).error)
    requires forall j | 0 <= j < k :: fn(j).Err? && retryable(fn(j).error)
    ensures RetryOutcome(o, retryable, fn).result == fn(k)
    ensures RetryOutcome(o, retryable, fn).calls == k + 1
    ensures |RetryOutcome(o, retryable, fn).notices| == k
  {
    RetryCharacterised(o, retryable, fn);
  }

  /** When every attempt fails with a retryable error, `fn` runs `maxRetries + 1` times,
      there are `maxRetries` retries, and the error thrown is the final attempt's. */
  lemma ExhaustedThrowsLastError<T>(o: RetryOptions, retryable: ApiError -> bool, fn: nat -> Result<T, ApiError>)
    requires forall j | 0 <= j <= o.maxRetries :: fn(j).Err? && retryable(fn(j).error)
    ensures RetryOutcome(o, retryable, fn).result == fn(o.maxRetries)
    ensures RetryOutcome(o, retryable, fn).calls == o.maxRetries + 1
    ensures |RetryOutcome(o, retryable, fn).notices| == o.maxRetries
  {
    RetryCharacterised(o, retryable, fn);
    var r := RetryOutcome(o, retryable, fn);
    assert fn(r.calls - 1).Err? && retryable(fn(r.calls - 1).error);
  }

  /** `retryWithBackoff`: the attempt loop, returning what it resolves or throws, the
      number of calls of `fn`, and the retries. */
  method RetryWithBackoff<T>(o: RetryOptions, retryable: ApiError -> bool, fn: nat -> Result<T, ApiError>)
    returns (result: Result<T, ApiError>, calls: nat, notices: seq<Notice>)
    ensures Outcome(result, calls, notices) == RetryOutcome(o, retryable, fn)
  {
    notices := [];
    var attempt: nat := 0;
    while attempt <= o.maxRetries
      invariant attempt <= o.maxRetries
      invariant Attempts(o, retryable, fn, attempt, notices) == RetryOutcome(o, retryable, fn)
      decreases o.maxRetries - attempt
    {
      var outcome := fn(attempt);
      if outcome.Ok? {
        return outcome, attempt + 1, notices;
      }
      var error := outcome.error;
      if !retryable(error) || attempt == o.maxRetries {
        return Err(error), attempt + 1, notices;
      }
      var delay := Delay(o, attempt);
      notices := notices + [Notice(attempt + 1, error, delay)];
      attempt := attempt + 1;
    }
    // the loop always returns from inside, so the trailing `throw lastError` is dead
    assert false;
  }

  // -------------------------------------------------------- isRetryableError

  /** `isRetryableError`: network error codes, a message mentioning a timeout or the
      network, a 5xx response, or a 429 response. */
  predicate IsRetryableError(e: ApiError)
  {
    if e.code == "ECONNRESET" || e.code == "ETIMEDOUT" || e.code == "ENOTFOUND"
       || Contains(e.message, "timeout") || Contains(e.message, "network") then true
    else if e.status.Some? && e.status.value >= 500 then true
    else if e.status.Some? && e.status.value == 429 then true
    else false
  }

  /** A response status alone decides retryability exactly for 5xx and 429; any
      other response status (a 404, a 400) is retried only for its code or message. */
  lemma RetryableStatuses(e: ApiError)
    requires e.status.Some?
    requires !(e.code == "ECONNRESET" || e.code == "ETIMEDOUT" || e.code == "ENOTFOUND")
    requires !Contains(e.message, "timeout") && !Contains(e.message, "network")
    ensures IsRetryableError(e) <==> e.status.value >= 500 || e.status.value == 429
  {
  }

  /** Under `isRetryableError` the network error codes are always retried, whatever
      the message and response. */
  lemma NetworkCodesRetryable(code: string, message: string, status: Option<int>)
    requires code in {"ECONNRESET", "ETIMEDOUT", "ENOTFOUND"}
    ensures IsRetryableError(ApiError(code, message, status))
  {
  }

  // ------------------------------------------------- RetryWithCircuitBreaker

  /** `new RetryWithCircuitBreaker(breaker, retryOptions)`: `maxRetries` 3 and `baseDelay`
      1000 unless overridden, the other options at `retryWithBackoff`'s defaults. */
  function BreakerRetryOptions(maxRetries: Option<nat>, baseDelay: Option<real>,
                               maxDelay: Option<real>, backoffFactor: Option<real>): (o: RetryOptions)
    ensures maxRetries.None? ==> o.maxRetries == 3
    ensures baseDelay.None? ==> o.baseDelay == 1000.0
    ensures maxRetries.Some? ==> o.maxRetries == maxRetries.value
    ensures baseDelay.Some? ==> o.baseDelay == baseDelay.value
    ensures maxDelay.None? && backoffFactor.None? ==> o.maxDelay == DefaultOptions.maxDelay && o.backoffFactor == DefaultOptions.backoffFactor
  {
    RetryOptions(
      if maxRetries.Some? then maxRetries.value else 3,
      if baseDelay.Some? then baseDelay.value else 1000.0,
      if maxDelay.Some? then maxDelay.value else DefaultOptions.maxDelay,
      if backoffFactor.Some? then backoffFactor.value else DefaultOptions.backoffFactor)
  }

  class RetryWithCircuitBreaker {
    const circuitBreaker: ErrorHandler.CircuitBreaker
    const retryOptions: RetryOptions
    const retryable: ApiError -> bool

    constructor (circuitBreaker: ErrorHandler.CircuitBreaker, retryOptions: RetryOptions, retryable: ApiError -> bool)
      ensures this.circuitBreaker == circuitBreaker
      ensures this.retryOptions == retryOptions && this.retryable == retryable
    {
      this.circuitBreaker := circuitBreaker;
      this.retryOptions := retryOptions;
      this.retryable := retryable;
    }

    /** `execute(fn, fallbackFn)`: the whole retry loop is one action of the breaker, so
        an open breaker runs `fn` not at all, and the breaker records one success or one
        failure per `execute`, however many attempts the loop made.  `calls` is the
        number of times `fn` ran. */
    method Execute<T>(now: int, fn: nat -> Result<T, ApiError>, fallback: Option<T>)
      returns (result: Result<T, string>, calls: nat)
      requires circuitBreaker.Valid()
      modifies circuitBreaker
      ensures circuitBreaker.Valid()
      ensures var r := RetryOutcome(retryOptions, retryable, fn);
              var s := ErrorHandler.Run(old(circuitBreaker.Snapshot()), now, AsAction(r.result), fallback);
              result == s.result && circuitBreaker.Snapshot() == s.after
              && calls == (if s.invoked then r.calls else 0)
    {
      var value, n, notices := RetryWithBackoff(retryOptions, retryable, fn);
      var invoked;
      result, invoked := circuitBreaker.Execute(now, AsAction(value), fallback);
      calls := if invoked then n else 0;
    }
  }

  /** The retry loop's outcome as the breaker sees it: a rejection carries its message. */
  function AsAction<T>(r: Result<T, ApiError>): (a: Result<T, string>)
    ensures a.Ok? <==> r.Ok?
    ensures r.Ok? ==> a.value == r.value
    ensures r.Err? ==> a.error == r.error.message
  {
    match r
    case Ok(v) => Ok(v)
    case Err(e) => Err(e.message)
  }

  /** Under the breaker, a closed breaker whose retry loop gives up after `k` calls
      counts that as a single failure. */
  lemma RetriesCountOnceAgainstBreaker<T>(b: ErrorHandler.Breaker, now: int, o: RetryOptions,
                                          retryable: ApiError -> bool, fn: nat -> Result<T, ApiError>, fallback: Option<T>)
    requires b.state == ErrorHandler.Closed
    requires RetryOutcome(o, retryable, fn).result.Err?
    ensures ErrorHandler.Run(b, now, AsAction(RetryOutcome(o, retryable, fn).result), fallback).after.failureCount
            == b.failureCount + 1
  {
  }
}

/** Express error handling with graceful degradation, the `gracefulResponse`
    helper, and the circuit breaker that guards calls to external services. */
module ErrorHandler {
  import opened Common

  // ------------------------------------------------------------ errorHandler

  /** What the handler reads from a thrown error. `message` and `status` are
      `None` when undefined; an empty message is falsy like an undefined one. */
  datatype ErrorInfo = ErrorInfo(
    name: string,
    code: Option<int>,
    message: Option<string>,
    status: Option<int>,
    validationMessages: seq<string>)

  /** The JSON body `{ success: false, error, degraded? }` and the status it is sent with. */
  datatype ErrorResponse = ErrorResponse(status: int, message: string, degraded: bool)

  const DefaultStatus := 500
  const DefaultMessage := "Internal Server Error"

  predicate MessageMentions(err: ErrorInfo, phrase: string)
  {
    err.message.Some? && err.message.value != "" && Contains(err.message.value, phrase)
  }

  /** An external API failed: the handler answers in degraded mode. */
  predicate ExternalFailure(err: ErrorInfo)
  {
    MessageMentions(err, "API error") || MessageMentions(err, "timeout")
  }

  /** The `{ message, status, degraded }` object the chain of checks leaves behind:
      each matching check replaces the object, so the last match wins. */
  datatype Draft = Draft(message: Option<string>, status: Option<int>, degraded: bool)

  function Classify(err: ErrorInfo): Draft
  {
    var d0 := Draft(err.message, err.status, false);
    var d1 := if err.name == "CastError" then Draft(Some("Resource not found"), Some(404), false) else d0;
    var d2 := if err.code == Some(11000) then Draft(Some("Duplicate field value entered"), Some(400), false) else d1;
    var d3 := if err.name == "ValidationError" then Draft(Some(Join(err.validationMessages, ", ")), Some(400), false) else d2;
    var d4 := if err.name == "JsonWebTokenError" then Draft(Some("Invalid token"), Some(401), false) else d3;
    var d5 := if err.name == "TokenExpiredError" then Draft(Some("Token expired"), Some(401), false) else d4;
    var d6 := if MessageMentions(err, "rate limit") then Draft(Some("Too many requests, please try again later"), Some(429), false) else d5;
    if ExternalFailure(err) then Draft(Some("Service temporarily unavailable, using cached data"), Some(503), true) else d6
  }

  /** The response the handler sends: `status || 500` and `message || 'Internal Server Error'`. */
  function Respond(err: ErrorInfo): (r: ErrorResponse)
    ensures r.status != 0 && r.message != ""
    ensures r.degraded <==> ExternalFailure(err)
    ensures ExternalFailure(err) ==> r == ErrorResponse(503, "Service temporarily unavailable, using cached data", true)
    ensures !ExternalFailure(err) && MessageMentions(err, "rate limit") ==>
              r == ErrorResponse(429, "Too many requests, please try again later", false)
  {
    var d := Classify(err);
    ErrorResponse(
      if d.status.None? || d.status.value == 0 then DefaultStatus else d.status.value,
      if d.message.None? || d.message.value == "" then DefaultMessage else d.message.value,
      d.degraded)
  }

  /** An error none of the checks recognise keeps its own status and message, or
      falls back to 500 and the generic message. */
  lemma UnrecognisedErrorKeepsItsOwn(err: ErrorInfo)
    requires err.name !in {"CastError", "ValidationError", "JsonWebTokenError", "TokenExpiredError"}
    requires err.code != Some(11000)
    requires !ExternalFailure(err) && !MessageMentions(err, "rate limit")
    ensures Respond(err).status == if err.status.Some? && err.status.value != 0 then err.status.value else 500
    ensures Respond(err).message == if err.message.Some? && err.message.value != "" then err.message.value else "Internal Server Error"
    ensures !Respond(err).degraded
  {
  }

  /** The token checks win over the database checks: an expired token is always a 401. */
  lemma ExpiredTokenIsUnauthorised(err: ErrorInfo)
    requires err.name == "TokenExpiredError"
    requires !ExternalFailure(err) && !MessageMentions(err, "rate limit")
    ensures Respond(err) == ErrorResponse(401, "Token expired", false)
  {
  }

  /** A validation error with no field messages joins to "", which the default
      replaces: the client sees status 400 with the generic message. */
  lemma EmptyValidationError(err: ErrorInfo)
    requires err.name == "ValidationError" && err.validationMessages == []
    requires !ExternalFailure(err) && !MessageMentions(err, "rate limit")
    ensures Respond(err) == ErrorResponse(400, "Internal Server Error", false)
  {
  }

  // ------------------------------------------------------- gracefulResponse

  datatype Graceful<T> = Graceful(status: int, success: bool, data: Option<T>, message: string, degraded: bool)

  /** `res.gracefulResponse(data, fallbackData, { status, message })`; `None` is a falsy argument. */
  function GracefulResponse<T>(data: Option<T>, fallback: Option<T>, status: int := 200, message: string := "Success"): (r: Graceful<T>)
    ensures r.success <==> data.Some? || fallback.Some?
    ensures r.degraded <==> data.None?
    ensures data.Some? ==> r.data == data && r.status == status && r.message == message
    ensures data.None? && fallback.Some? ==> r.data == fallback && r.status == 206
    ensures !r.success ==> r.status == 503 && r.data.None?
  {
    if data.Some? then Graceful(status, true, data, message, false)
    else if fallback.Some? then Graceful(206, true, fallback, "Using cached/fallback data", true)
    else Graceful(503, false, None, "Service temporarily unavailable", true)
  }

  // --------------------------------------------------------- CircuitBreaker

  datatype BreakerState = Closed | Open | HalfOpen

  const OpenMessage := "Circuit breaker is OPEN"

  /** The fields of a circuit breaker. `lastFailureTime` is `null` until the first failure. */
  datatype Breaker = Breaker(
    failureThreshold: nat,
    recoveryTimeout: int,
    failureCount: nat,
    lastFailureTime: Option<int>,
    state: BreakerState)

  /** States a breaker can reach: it is open or probing only after enough failures. */
  predicate Consistent(b: Breaker)
  {
    (b.state != Closed ==> b.failureCount >= b.failureThreshold && b.lastFailureTime.Some?)
    && (b.failureCount > 0 ==> b.lastFailureTime.Some?)
  }

  function InitialBreaker(failureThreshold: nat := 5, recoveryTimeout: int := 60000): Breaker
  {
    Breaker(failureThreshold, recoveryTimeout, 0, None, Closed)
  }

  /** `Date.now() - this.lastFailureTime`, where `null` counts as 0. */
  function SinceLastFailure(b: Breaker, now: int): int
  {
    now - (if b.lastFailureTime.Some? then b.lastFailureTime.value else 0)
  }

  /** The outcome of one `execute` call: its result, whether the guarded action
      ran, and the breaker afterwards. */
  datatype Step<T> = Step(result: Result<T, string>, invoked: bool, after: Breaker)

  function OnSuccess(b: Breaker): Breaker
  {
    b.(failureCount := 0, state := Closed)
  }

  function OnFailure(b: Breaker, now: int): Breaker
  {
    var count := b.failureCount + 1;
    b.(failureCount := count, lastFailureTime := Some(now),
       state := if count >= b.failureThreshold then Open else b.state)
  }

  /** `execute(fn, fallbackFn)` at time `now`, where `outcome` is what `fn()` would
      produce and `fallback` is the value `fallbackFn()` returns, if one is given. */
  function Run<T>(b: Breaker, now: int, outcome: Result<T, string>, fallback: Option<T>): (s: Step<T>)
    ensures !s.invoked <==> b.state == Open && SinceLastFailure(b, now) <= b.recoveryTimeout
    ensures !s.invoked ==> s.after == b
    ensures s.invoked && outcome.Ok? ==> s.result == outcome && s.after.state == Closed && s.after.failureCount == 0
    ensures s.invoked && outcome.Err? ==> s.after.failureCount == b.failureCount + 1 && s.after.lastFailureTime == Some(now)
    ensures s.result.Ok? && (!s.invoked || outcome.Err?) ==> fallback.Some? && s.result.value == fallback.value && s.after.state == Open
    ensures !s.invoked ==> s.result == (if fallback.Some? then Ok(fallback.value) else Err(OpenMessage))
    ensures s.invoked && outcome.Err? ==>
              s.result == (if fallback.Some? && s.after.state == Open then Ok(fallback.value) else Err(outcome.error))
    ensures s.invoked && outcome.Err? ==>
              s.after.state == (if b.failureCount + 1 >= b.failureThreshold then Open
                                else if b.state == Open then HalfOpen else b.state)
    ensures s.invoked && outcome.Ok? ==> s.after.lastFailureTime == b.lastFailureTime
    ensures s.after.failureThreshold == b.failureThreshold && s.after.recoveryTimeout == b.recoveryTimeout
  {
    if b.state == Open && SinceLastFailure(b, now) <= b.recoveryTimeout then
      Step(if fallback.Some? then Ok(fallback.value) else Err(OpenMessage), false, b)
    else
      var probing := if b.state == Open then b.(state := HalfOpen) else b;
      match outcome
      case Ok(v) => Step(Ok(v), true, OnSuccess(probing))
      case Err(e) =>
        var failed := OnFailure(probing, now);
        Step(if fallback.Some? && failed.state == Open then Ok(fallback.value) else Err(e), true, failed)
  }

  lemma ExecuteKeepsConsistent<T>(b: Breaker, now: int, outcome: Result<T, string>, fallback: Option<T>)
    requires Consistent(b)
    ensures Consistent(Run(b, now, outcome, fallback).after)
  {
  }

  /** Once a breaker has opened, a failed probe after the recovery timeout opens it again. */
  lemma FailedProbeReopens<T>(b: Breaker, now: int, e: string, fallback: Option<T>)
    requires Consistent(b) && b.state == Open
    requires SinceLastFailure(b, now) > b.recoveryTimeout
    ensures var s := Run(b, now, Err(e), fallback);
            s.invoked && s.after.state == Open && s.after.lastFailureTime == Some(now)
  {
  }

  /** The breaker's state after a run of failed calls at the given times. */
  function AfterFailures(b: Breaker, times: seq<int>): Breaker
    decreases |times|
  {
    if times == [] then b
    else AfterFailures(Run<()>(b, times[0], Err("failure"), None).after, times[1..])
  }

  /** A closed breaker opens on exactly the failure that reaches the threshold:
      after `failureThreshold - failureCount` consecutive failures it is open,
      and every one of those calls reached the service. */
  lemma {:induction false} ConsecutiveFailuresOpen(b: Breaker, times: seq<int>)
    requires b.state == Closed && b.failureCount < b.failureThreshold
    requires |times| == b.failureThreshold - b.failureCount
    ensures AfterFailures(b, times).state == Open
    ensures AfterFailures(b, times).failureCount == b.failureThreshold
    decreases |times|
  {
    var s := Run<()>(b, times[0], Err("failure"), None);
    assert s.invoked;
    if |times| > 1 {
      ConsecutiveFailuresOpen(s.after, times[1..]);
    }
  }

  /** Fewer failures than the threshold leave a closed breaker closed. */
  lemma {:induction false} FewFailuresStayClosed(b: Breaker, times: seq<int>)
    requires b.state == Closed
    requires b.failureCount + |times| < b.failureThreshold
    ensures AfterFailures(b, times).state == Closed
    ensures AfterFailures(b, times).failureCount == b.failureCount + |times|
    decreases |times|
  {
    if times != [] {
      FewFailuresStayClosed(Run<()>(b, times[0], Err("failure"), None).after, times[1..]);
    }
  }

  class CircuitBreaker {
    var failureThreshold: nat
    var recoveryTimeout: int
    var failureCount: nat
    var lastFailureTime: Option<int>
    var state: BreakerState

    function Snapshot(): Breaker
      reads this
    {
      Breaker(failureThreshold, recoveryTimeout, failureCount, lastFailureTime, state)
    }

    ghost predicate Valid()
      reads this
    {
      Consistent(Snapshot())
    }

    constructor (failureThreshold: nat := 5, recoveryTimeout: int := 60000)
      ensures Valid()
      ensures Snapshot() == InitialBreaker(failureThreshold, recoveryTimeout)
    {
      this.failureThreshold := failureThreshold;
      this.recoveryTimeout := recoveryTimeout;
      failureCount := 0;
      lastFailureTime := None;
      state := Closed;
    }

    /** Runs the guarded action (whose outcome is `outcome`) unless the breaker is
        open; `invoked` says whether the action ran. */
    method Execute<T>(now: int, outcome: Result<T, string>, fallback: Option<T>) returns (result: Result<T, string>, invoked: bool)
      requires Valid()
      modifies this
      ensures Valid()
      ensures var s := Run(old(Snapshot()), now, outcome, fallback);
              result == s.result && invoked == s.invoked && Snapshot() == s.after
    {
      ExecuteKeepsConsistent(Snapshot(), now, outcome, fallback);
      if state == Open {
        if now - (if lastFailureTime.Some? then lastFailureTime.value else 0) > recoveryTimeout {
          state := HalfOpen;
        } else {
          if fallback.Some? {
            return Ok(fallback.value), false;
          }
          return Err(OpenMessage), false;
        }
      }
      invoked := true;
      match outcome {
        case Ok(v) =>
          OnSuccessStep();
          result := Ok(v);
        case Err(e) =>
          OnFailureStep(now);
          if fallback.Some? && state == Open {
            result := Ok(fallback.value);
          } else {
            result := Err(e);
          }
      }
    }

    method OnSuccessStep()
      modifies this
      ensures Snapshot() == OnSuccess(old(Snapshot()))
    {
      failureCount := 0;
      state := Closed;
    }

    method OnFailureStep(now: int)
      modifies this
      ensures Snapshot() == OnFailure(old(Snapshot()), now)
    {
      failureCount := failureCount + 1;
      lastFailureTime := Some(now);
      if failureCount >= failureThreshold {
        state := Open;
      }
    }
  }
}

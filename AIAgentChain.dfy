/** The deterministic parts of the AI agent chain (server/modules/aiAgentChain.js): the
    per-provider sliding-window rate limiter, the basic JSON validation, the choice of
    the highest-confidence strategy, and the error wrapping of `executeChain`.

    The three agents are oracles: the market report and the strategy list are passed in
    as what the model returned, and the trade agent as a function of the strategy it is
    given. */
module AIAgentChain {
  import opened Common
  import Sorting

  // ---------------------------------------------------------- rate limiting

  const WindowMs: int := 60000

  /** Ten requests a minute for Gemini, five for any other provider. */
  function MaxRequests(provider: string): (n: nat)
    ensures n == (if provider == "gemini" then 10 else 5)
    ensures n >= 5
  {
    if provider == "gemini" then 10 else 5
  }

  /** `requests.filter(time => now - time < windowMs)`. */
  function Recent(requests: seq<int>, now: int): (r: seq<int>)
    ensures |r| <= |requests|
    ensures forall t :: t in r <==> t in requests && now - t < WindowMs
    decreases |requests|
  {
    if requests == [] then []
    else
      var init := Recent(requests[..|requests| - 1], now);
      var last := requests[|requests| - 1];
      assert requests == requests[..|requests| - 1] + [last];
      if now - last < WindowMs then init + [last] else init
  }

  /** `Math.min(...xs)`. */
  function MinOf(xs: seq<int>): (m: int)
    requires xs != []
    ensures m in xs && forall x :: x in xs ==> m <= x
  {
    if |xs| == 1 then xs[0]
    else
      var rest := MinOf(xs[1..]);
      assert forall x :: x in xs ==> x == xs[0] || x in xs[1..];
      if xs[0] <= rest then xs[0] else rest
  }

  /** The error thrown for a provider at its limit: the wait until the oldest recent
      request leaves the window, rounded up to whole seconds. */
  function RateLimitMessage(provider: string, recent: seq<int>, now: int): string
    requires recent != []
  {
    var waitTime := WindowMs - (now - MinOf(recent));
    "Rate limit exceeded for " + provider + ". Wait " + IntToString((waitTime + 999) / 1000) + " seconds."
  }

  /** The outcome of one `checkRateLimit`: whether it passed, and the provider's stored
      request times afterwards. */
  datatype Check = Check(allowed: bool, stored: seq<int>)

  /** One check against a provider's stored times: it passes when fewer than `max`
      of them are recent, and then the recent ones plus `now` are stored; a rejected
      call stores nothing. */
  function RateCheck(stored: seq<int>, max: nat, now: int): (c: Check)
    ensures c.allowed <==> |Recent(stored, now)| < max
    ensures c.allowed ==> c.stored == Recent(stored, now) + [now] && |c.stored| <= max
    ensures !c.allowed ==> c.stored == stored
    ensures c.allowed ==> forall t :: t in c.stored ==> now - t < WindowMs
  {
    var recent := Recent(stored, now);
    if |recent| >= max then Check(false, stored) else Check(true, recent + [now])
  }

  /** Filtering twice at the same time filters once. */
  lemma {:induction false} RecentIdempotent(s: seq<int>, now: int)
    ensures Recent(Recent(s, now), now) == Recent(s, now)
    decreases |s|
  {
    if s != [] {
      var init := s[..|s| - 1];
      var last := s[|s| - 1];
      RecentIdempotent(init, now);
      var r := Recent(init, now);
      if now - last < WindowMs {
        assert (r + [last])[..|r + [last]| - 1] == r;
      }
    }
  }

  /** A second check at the same time keeps the first check's list and adds `now` once more. */
  lemma RecheckAtSameTime(s: seq<int>, now: int)
    ensures Recent(Recent(s, now) + [now], now) + [now] == Recent(s, now) + [now, now]
  {
    var r := Recent(s, now);
    assert (r + [now])[..|r + [now]| - 1] == r;
    RecentIdempotent(s, now);
  }

  /** Number of stored times at or after `lo`. */
  function CountFrom(s: seq<int>, lo: int): (n: nat)
    ensures n <= |s|
  {
    if s == [] then 0
    else CountFrom(s[..|s| - 1], lo) + (if s[|s| - 1] >= lo then 1 else 0)
  }

  /** Filtering at a time less than a window after `lo` keeps every time at or after `lo`. */
  lemma {:induction false} RecentKeepsLate(s: seq<int>, now: int, lo: int)
    requires now - lo < WindowMs
    ensures CountFrom(Recent(s, now), lo) == CountFrom(s, lo)
    decreases |s|
  {
    if s != [] {
      var init := s[..|s| - 1];
      var last := s[|s| - 1];
      RecentKeepsLate(init, now, lo);
      var r := Recent(init, now);
      if now - last < WindowMs {
        assert (r + [last])[..|r + [last]| - 1] == r;
      }
    }
  }

  /** `times` is a burst of calls no more than a window apart, all at or after `lo`. */
  predicate Burst(times: seq<int>, lo: int)
  {
    forall i :: 0 <= i < |times| ==> lo <= times[i] && times[i] - lo < WindowMs
  }

  /** Successive checks at the given times: how many passed and the stored times after. */
  function Checks(stored: seq<int>, max: nat, times: seq<int>): (nat, seq<int>)
    decreases |times|
  {
    if times == [] then (0, stored)
    else
      var prev := Checks(stored, max, times[..|times| - 1]);
      var c := RateCheck(prev.1, max, times[|times| - 1]);
      (prev.0 + (if c.allowed then 1 else 0), c.stored)
  }

  lemma {:induction false} ChecksCounted(stored: seq<int>, max: nat, times: seq<int>, lo: int)
    requires Burst(times, lo)
    ensures Checks(stored, max, times).0 <= max
    ensures Checks(stored, max, times).0 <= CountFrom(Checks(stored, max, times).1, lo)
    decreases |times|
  {
    if times != [] {
      var init := times[..|times| - 1];
      var now := times[|times| - 1];
      assert Burst(init, lo);
      ChecksCounted(stored, max, init, lo);
      var prev := Checks(stored, max, init);
      RecentKeepsLate(prev.1, now, lo);
      var recent := Recent(prev.1, now);
      if |recent| < max {
        assert (recent + [now])[..|recent + [now]| - 1] == recent;
      }
    }
  }

  /** The sliding window: however many calls arrive within one minute of each other,
      at most `max` of them pass. */
  lemma WindowAdmitsAtMostMax(stored: seq<int>, max: nat, times: seq<int>)
    requires times != [] && Burst(times, times[0])
    ensures Checks(stored, max, times).0 <= max
  {
    ChecksCounted(stored, max, times, times[0]);
  }

  // ---------------------------------------------------------- validateJSON

  /** A JSON value as `validateJSON` sees it. */
  datatype Json =
    | JNull
    | JBool(b: bool)
    | JNumber(n: real)
    | JString(s: string)
    | JArray(items: seq<Json>)
    | JObject(fields: map<string, Json>)

  /** The parts of a schema `validateJSON` reads: `type` and `required`. */
  datatype Schema = Schema(kind: Option<string>, required: seq<string>)

  /** `field in data`: own keys of an object, `length` and the indices of an array; the
      `in` operator throws a TypeError on null and on primitives. */
  function HasField(data: Json, field: string): Result<bool, string>
  {
    match data
    case JObject(fields) => Ok(field in fields)
    case JArray(items) => Ok(field == "length" || exists i | 0 <= i < |items| :: NatToString(i) == field)
    case _ => Err("Cannot use 'in' operator to search for '" + field + "'")
  }

  /** The required-field loop: the first field `in` rejects decides the error. */
  function CheckRequired(data: Json, required: seq<string>): Result<bool, string>
  {
    if required == [] then Ok(true)
    else match HasField(data, required[0])
      case Err(e) => Err(e)
      case Ok(present) =>
        if !present then Err("Missing required field: " + required[0])
        else CheckRequired(data, required[1..])
  }

  /** `typeof data === 'object'`: objects, arrays and null. */
  predicate IsObjectType(data: Json)
  {
    data.JObject? || data.JArray? || data.JNull?
  }

  /** `validateJSON(data, schema)`: the required fields in order, then the type. */
  function Validate(data: Json, schema: Schema): Result<bool, string>
  {
    match CheckRequired(data, schema.required)
    case Err(e) => Err(e)
    case Ok(_) =>
      if schema.kind == Some("array") && !data.JArray? then Err("Expected array")
      else if schema.kind == Some("object") && !IsObjectType(data) then Err("Expected object")
      else Ok(true)
  }

  /** For an object, the first missing required field is reported, whatever the
      schema's type and whatever comes after it. */
  lemma {:induction false} FirstMissingFieldReported(fields: map<string, Json>, schema: Schema, i: nat)
    requires i < |schema.required| && schema.required[i] !in fields
    requires forall j :: 0 <= j < i ==> schema.required[j] in fields
    ensures Validate(JObject(fields), schema) == Err("Missing required field: " + schema.required[i])
  {
    CheckRequiredFirstMissing(fields, schema.required, i);
  }

  lemma {:induction false} CheckRequiredFirstMissing(fields: map<string, Json>, required: seq<string>, i: nat)
    requires i < |required| && required[i] !in fields
    requires forall j :: 0 <= j < i ==> required[j] in fields
    ensures CheckRequired(JObject(fields), required) == Err("Missing required field: " + required[i])
    decreases i
  {
    if i > 0 {
      CheckRequiredFirstMissing(fields, required[1..], i - 1);
    }
  }

  lemma {:induction false} CheckRequiredAllPresent(fields: map<string, Json>, required: seq<string>)
    requires forall j :: 0 <= j < |required| ==> required[j] in fields
    ensures CheckRequired(JObject(fields), required) == Ok(true)
    decreases |required|
  {
    if required != [] {
      CheckRequiredAllPresent(fields, required[1..]);
    }
  }

  /** An object passes exactly when it has every required field and the schema does
      not ask for an array. */
  lemma ObjectValidIff(fields: map<string, Json>, schema: Schema)
    ensures Validate(JObject(fields), schema) == Ok(true) <==>
              (forall j :: 0 <= j < |schema.required| ==> schema.required[j] in fields)
              && schema.kind != Some("array")
  {
    if forall j :: 0 <= j < |schema.required| ==> schema.required[j] in fields {
      CheckRequiredAllPresent(fields, schema.required);
    } else {
      var i := FirstAbsent(fields, schema.required);
      CheckRequiredFirstMissing(fields, schema.required, i);
    }
  }

  /** The index of the first required field an object lacks. */
  lemma FirstAbsent(fields: map<string, Json>, required: seq<string>) returns (i: nat)
    requires exists j :: 0 <= j < |required| && required[j] !in fields
    ensures i < |required| && required[i] !in fields
    ensures forall j :: 0 <= j < i ==> required[j] in fields
  {
    i := 0;
    while required[i] in fields
      invariant i < |required|
      invariant forall j :: 0 <= j < i ==> required[j] in fields
      decreases |required| - i
    {
      i := i + 1;
    }
  }

  /** `validateJSON` as written: the loop over `schema.required`, then the type checks. */
  method ValidateJSON(data: Json, schema: Schema) returns (r: Result<bool, string>)
    ensures r == Validate(data, schema)
  {
    var i := 0;
    while i < |schema.required|
      invariant i <= |schema.required|
      invariant CheckRequired(data, schema.required) == CheckRequired(data, schema.required[i..])
    {
      var field := schema.required[i];
      var present := HasField(data, field);
      assert schema.required[i..][1..] == schema.required[i + 1..];
      if present.Err? {
        return Err(present.error);
      }
      if !present.value {
        return Err("Missing required field: " + field);
      }
      i := i + 1;
    }
    if schema.kind == Some("array") && !data.JArray? {
      return Err("Expected array");
    }
    if schema.kind == Some("object") && !IsObjectType(data) {
      return Err("Expected object");
    }
    return Ok(true);
  }

  // ------------------------------------------------------------ executeChain

  /** A strategy recommendation; only its confidence takes part in the selection. */
  datatype Strategy = Strategy(confidence: real, rationale: string)

  function NegConfidence(s: Strategy): real
  {
    -s.confidence
  }

  /** `recommendations.sort((a, b) => b.confidence_score - a.confidence_score)`: the
      stable sort by descending confidence. */
  function ByConfidence(recommendations: seq<Strategy>): (r: seq<Strategy>)
    ensures multiset(r) == multiset(recommendations)
    ensures forall i, j :: 0 <= i < j < |r| ==> r[i].confidence >= r[j].confidence
  {
    var r := Sorting.SortBy(recommendations, NegConfidence);
    assert forall i, j :: 0 <= i < j < |r| ==> NegConfidence(r[i]) <= NegConfidence(r[j]);
    r
  }

  /** `[0]` of the sorted list: a strategy of maximal confidence, or `undefined` for an
      empty list. */
  function Highest(recommendations: seq<Strategy>): (h: Option<Strategy>)
    ensures h.None? <==> recommendations == []
    ensures h.Some? ==> h.value in recommendations
    ensures h.Some? ==> forall s :: s in recommendations ==> s.confidence <= h.value.confidence
  {
    var sorted := ByConfidence(recommendations);
    if sorted == [] then None
    else
      Sorting.SameMembers(sorted, recommendations);
      assert forall s :: s in sorted ==> s == sorted[0] || exists j :: 0 < j < |sorted| && sorted[j] == s;
      Some(sorted[0])
  }

  const ChainFailurePrefix := "AI Agent Chain execution failed: "

  /** `new Error(`AI Agent Chain execution failed: ${error.message}`)`. */
  function Wrap(message: string): (r: string)
    ensures StartsWith(r, ChainFailurePrefix) && r[|ChainFailurePrefix|..] == message
  {
    ChainFailurePrefix + message
  }

  /** The in-place sort followed by `[0]`. */
  method SelectHighest(recommendations: seq<Strategy>) returns (sorted: seq<Strategy>, selected: Option<Strategy>)
    ensures sorted == ByConfidence(recommendations) && selected == Highest(recommendations)
  {
    sorted := ByConfidence(recommendations);
    selected := if sorted == [] then None else Some(sorted[0]);
  }

  /** `this.rateLimiter.get(provider) || []` over a given limiter map. */
  function StoredIn(limiter: map<string, seq<int>>, provider: string): seq<int>
  {
    if provider in limiter then limiter[provider] else []
  }

  /** What a successful `executeChain` returns. */
  datatype ChainResult<R, X> = ChainResult(report: R, recommendations: seq<Strategy>, selected: Option<Strategy>, trade: X)

  /** One agent step on a limiter: the provider's rate check, then the agent's
      `answer`; the rate-limit error when the check fails. Returns the step's result
      and the limiter afterwards. */
  function AgentStep<T>(limiter: map<string, seq<int>>, provider: string, now: int, answer: Result<T, string>)
    : (s: (Result<T, string>, map<string, seq<int>>))
    ensures var c := RateCheck(StoredIn(limiter, provider), MaxRequests(provider), now);
            && (s.0.Ok? <==> c.allowed && answer.Ok?)
            && (c.allowed ==> s.0 == answer && s.1 == limiter[provider := c.stored])
            && (!c.allowed ==> s.1 == limiter)
  {
    var stored := StoredIn(limiter, provider);
    var c := RateCheck(stored, MaxRequests(provider), now);
    if !c.allowed then (Err(RateLimitMessage(provider, Recent(stored, now), now)), limiter)
    else (answer, limiter[provider := c.stored])
  }

  /** What `executeChain` leaves: its result and the rate limiter afterwards. */
  datatype ChainRun<R, X> = ChainRun(result: Result<ChainResult<R, X>, string>, limiter: map<string, seq<int>>)

  /** `executeChain` on a limiter: the market-analysis and strategy agents behind the
      Gemini check, the selection of the most confident strategy, the implementation
      agent behind the Cohere check; the first failure is rethrown with the chain's
      prefix, and every check that passed stays recorded. */
  function Chain<R, X>(limiter: map<string, seq<int>>, now: int, report: Result<R, string>,
                       strategies: Result<seq<Strategy>, string>, implement: Option<Strategy> -> Result<X, string>)
    : (c: ChainRun<R, X>)
    ensures c.result.Err? ==> StartsWith(c.result.error, ChainFailurePrefix)
    ensures c.result.Ok? ==> report.Ok? && strategies.Ok? && c.result.value.report == report.value
    ensures c.result.Ok? ==> c.result.value.recommendations == ByConfidence(strategies.value)
                             && c.result.value.selected == Highest(strategies.value)
                             && implement(c.result.value.selected).Ok?
                             && c.result.value.trade == implement(c.result.value.selected).value
    ensures c.limiter.Keys <= limiter.Keys + {"gemini", "cohere"}
  {
    var (reply, l1) := AgentStep(limiter, "gemini", now, report);
    if reply.Err? then ChainRun(Err(Wrap(reply.error)), l1)
    else
      var (recommendations, l2) := AgentStep(l1, "gemini", now, strategies);
      if recommendations.Err? then ChainRun(Err(Wrap(recommendations.error)), l2)
      else
        var selected := Highest(recommendations.value);
        var (trade, l3) := AgentStep(l2, "cohere", now, implement(selected));
        if trade.Err? then ChainRun(Err(Wrap(trade.error)), l3)
        else ChainRun(Ok(ChainResult(report.value, ByConfidence(recommendations.value), selected, trade.value)), l3)
  }

  /** Each way out of the chain: which check or agent failed, the message rethrown,
      and the limiter it leaves (every check that passed stays recorded). */
  lemma ChainPaths<R, X>(limiter: map<string, seq<int>>, now: int, report: Result<R, string>,
                         strategies: Result<seq<Strategy>, string>, implement: Option<Strategy> -> Result<X, string>)
    ensures var c := Chain(limiter, now, report, strategies, implement);
            var gemini, cohere := StoredIn(limiter, "gemini"), StoredIn(limiter, "cohere");
            var first := RateCheck(gemini, MaxRequests("gemini"), now);
            var second := RateCheck(first.stored, MaxRequests("gemini"), now);
            var third := RateCheck(cohere, MaxRequests("cohere"), now);
            if !first.allowed then
              c.limiter == limiter && c.result == Err(Wrap(RateLimitMessage("gemini", Recent(gemini, now), now)))
            else if report.Err? then
              c.limiter == limiter["gemini" := first.stored] && c.result == Err(Wrap(report.error))
            else if !second.allowed then
              c.limiter == limiter["gemini" := first.stored]
              && c.result == Err(Wrap(RateLimitMessage("gemini", Recent(first.stored, now), now)))
            else if strategies.Err? then
              c.limiter == limiter["gemini" := second.stored] && c.result == Err(Wrap(strategies.error))
            else if !third.allowed then
              c.limiter == limiter["gemini" := second.stored]
              && c.result == Err(Wrap(RateLimitMessage("cohere", Recent(cohere, now), now)))
            else
              c.limiter == limiter["gemini" := second.stored]["cohere" := third.stored]
              && (implement(Highest(strategies.value)).Err? ==> c.result == Err(Wrap(implement(Highest(strategies.value)).error)))
  {
    var c := Chain(limiter, now, report, strategies, implement);
    var gemini := StoredIn(limiter, "gemini");
    var first := RateCheck(gemini, MaxRequests("gemini"), now);
    var s1 := AgentStep(limiter, "gemini", now, report);
    if !first.allowed || report.Err? {
      assert c == ChainRun(Err(Wrap(s1.0.error)), s1.1);
    } else {
      var l1 := limiter["gemini" := first.stored];
      assert s1 == (report, l1);
      assert StoredIn(l1, "gemini") == first.stored;
      var second := RateCheck(first.stored, MaxRequests("gemini"), now);
      var s2 := AgentStep(l1, "gemini", now, strategies);
      if !second.allowed || strategies.Err? {
        assert c == ChainRun(Err(Wrap(s2.0.error)), s2.1);
      } else {
        var l2 := limiter["gemini" := second.stored];
        assert l1["gemini" := second.stored] == l2;
        assert s2 == (strategies, l2);
        assert StoredIn(l2, "cohere") == StoredIn(limiter, "cohere");
        var s3 := AgentStep(l2, "cohere", now, implement(Highest(strategies.value)));
        assert c.limiter == s3.1;
        assert s3.0.Err? ==> c.result == Err(Wrap(s3.0.error));
      }
    }
  }

  /** The chain succeeds exactly when both Gemini checks and the Cohere check pass and
      every agent answers; then Gemini holds its recent times plus `now` twice and
      Cohere its recent times plus `now`. */
  lemma ChainSucceeds<R, X>(limiter: map<string, seq<int>>, now: int, report: Result<R, string>,
                            strategies: Result<seq<Strategy>, string>, implement: Option<Strategy> -> Result<X, string>)
    ensures var c := Chain(limiter, now, report, strategies, implement);
            var first := RateCheck(StoredIn(limiter, "gemini"), MaxRequests("gemini"), now);
            var second := RateCheck(first.stored, MaxRequests("gemini"), now);
            var third := RateCheck(StoredIn(limiter, "cohere"), MaxRequests("cohere"), now);
            && (c.result.Ok? <==> first.allowed && report.Ok? && second.allowed && strategies.Ok? && third.allowed
                                  && implement(Highest(strategies.value)).Ok?)
            && (c.result.Ok? ==> c.limiter == limiter["gemini" := Recent(StoredIn(limiter, "gemini"), now) + [now, now]]
                                                     ["cohere" := Recent(StoredIn(limiter, "cohere"), now) + [now]])
  {
    ChainPaths(limiter, now, report, strategies, implement);
    RecheckAtSameTime(StoredIn(limiter, "gemini"), now);
  }

  class AIAgentChain {
    const geminiApiKey: Option<string>
    const cohereApiKey: Option<string>
    /** Request times per provider. */
    var rateLimiter: map<string, seq<int>>

    /** Every provider's stored list is within its limit. */
    ghost predicate Valid()
      reads this
    {
      forall p | p in rateLimiter :: |rateLimiter[p]| <= MaxRequests(p)
    }

    constructor (geminiApiKey: Option<string>, cohereApiKey: Option<string>)
      ensures Valid() && rateLimiter == map[]
      ensures this.geminiApiKey == geminiApiKey && this.cohereApiKey == cohereApiKey
    {
      this.geminiApiKey := geminiApiKey;
      this.cohereApiKey := cohereApiKey;
      rateLimiter := map[];
    }

    function Stored(provider: string): seq<int>
      reads this
    {
      StoredIn(rateLimiter, provider)
    }

    /** `checkRateLimit(provider)` at time `now`: passes or throws the rate-limit error,
        changing only this provider's list, and only when it passes. */
    method CheckRateLimit(provider: string, now: int) returns (r: Result<(), string>)
      requires Valid()
      modifies this
      ensures Valid()
      ensures var c := RateCheck(old(Stored(provider)), MaxRequests(provider), now);
              (r.Ok? <==> c.allowed)
              && (c.allowed ==> rateLimiter == old(rateLimiter)[provider := c.stored])
              && (!c.allowed ==> rateLimiter == old(rateLimiter)
                                 && r == Err(RateLimitMessage(provider, Recent(old(Stored(provider)), now), now)))
    {
      var maxRequests := if provider == "gemini" then 10 else 5;
      if provider !in rateLimiter {
        rateLimiter := rateLimiter[provider := []];
      }
      var requests := rateLimiter[provider];
      var recentRequests := Recent(requests, now);
      if |recentRequests| >= maxRequests {
        return Err(RateLimitMessage(provider, recentRequests, now));
      }
      recentRequests := recentRequests + [now];
      rateLimiter := rateLimiter[provider := recentRequests];
      r := Ok(());
    }

    /** One agent step (`marketAnalysisAgent`, `strategyReasoningAgent`, `logicImplementationAgent`):
        the provider's rate check, then the agent's `answer`. Fails with the rate-limit message
        or the agent's error; a rejected check leaves the limiter as it was. */
    method CallAgent<T>(provider: string, now: int, answer: Result<T, string>) returns (r: Result<T, string>)
      requires Valid()
      modifies this
      ensures Valid()
      ensures var c := RateCheck(StoredIn(old(rateLimiter), provider), MaxRequests(provider), now);
              && (r.Ok? <==> c.allowed && answer.Ok?)
              && (r.Ok? ==> r == answer)
              && (r.Err? ==> r.error == if c.allowed then answer.error
                                        else RateLimitMessage(provider, Recent(StoredIn(old(rateLimiter), provider), now), now))
              && rateLimiter == (if c.allowed then old(rateLimiter)[provider := c.stored] else old(rateLimiter))
      ensures (r, rateLimiter) == AgentStep(old(rateLimiter), provider, now, answer)
    {
      var check := CheckRateLimit(provider, now);
      if check.Err? { return Err(check.error); }
      r := answer;
    }

    /** `isConfigured()`: both clients have a non-empty API key. */
    function IsConfigured(): (r: bool)
      reads this
      ensures r <==> geminiApiKey.Some? && geminiApiKey.value != "" && cohereApiKey.Some? && cohereApiKey.value != ""
    {
      (geminiApiKey.Some? && geminiApiKey.value != "") && (cohereApiKey.Some? && cohereApiKey.value != "")
    }

    /** `executeChain(marketContext, accountBalance)`: the market agent, the strategy agent
        and the trade agent in turn, each behind its provider's rate limit; the strategies
        are sorted by descending confidence and the first is handed to the trade agent.
        Any failure is rethrown with the chain's prefix. */
    method ExecuteChain<R, X>(now: int, report: Result<R, string>, strategies: Result<seq<Strategy>, string>,
                              implement: Option<Strategy> -> Result<X, string>)
      returns (r: Result<ChainResult<R, X>, string>)
      requires Valid()
      modifies this
      ensures Valid()
      ensures r == Chain(old(rateLimiter), now, report, strategies, implement).result
              && rateLimiter == Chain(old(rateLimiter), now, report, strategies, implement).limiter
      ensures r.Err? ==> StartsWith(r.error, ChainFailurePrefix)
      ensures r.Ok? ==> report.Ok? && strategies.Ok? && r.value.report == report.value
      ensures r.Ok? ==> r.value.recommendations == ByConfidence(strategies.value)
                        && r.value.selected == Highest(strategies.value)
                        && implement(r.value.selected).Ok? && r.value.trade == implement(r.value.selected).value
      ensures rateLimiter.Keys <= old(rateLimiter).Keys + {"gemini", "cohere"}
      ensures var first := RateCheck(StoredIn(old(rateLimiter), "gemini"), MaxRequests("gemini"), now);
              var second := RateCheck(first.stored, MaxRequests("gemini"), now);
              var third := RateCheck(StoredIn(old(rateLimiter), "cohere"), MaxRequests("cohere"), now);
              && (r.Ok? <==> first.allowed && report.Ok? && second.allowed && strategies.Ok? && third.allowed
                             && implement(Highest(strategies.value)).Ok?)
      ensures r.Ok? ==> rateLimiter == old(rateLimiter)["gemini" := Recent(StoredIn(old(rateLimiter), "gemini"), now) + [now, now]]
                                                       ["cohere" := Recent(StoredIn(old(rateLimiter), "cohere"), now) + [now]]
      ensures var gemini, cohere := StoredIn(old(rateLimiter), "gemini"), StoredIn(old(rateLimiter), "cohere");
              var first := RateCheck(gemini, MaxRequests("gemini"), now);
              var second := RateCheck(first.stored, MaxRequests("gemini"), now);
              var third := RateCheck(cohere, MaxRequests("cohere"), now);
              if !first.allowed then
                rateLimiter == old(rateLimiter) && r == Err(Wrap(RateLimitMessage("gemini", Recent(gemini, now), now)))
              else if report.Err? then
                rateLimiter == old(rateLimiter)["gemini" := first.stored] && r == Err(Wrap(report.error))
              else if !second.allowed then
                rateLimiter == old(rateLimiter)["gemini" := first.stored]
                && r == Err(Wrap(RateLimitMessage("gemini", Recent(first.stored, now), now)))
              else if strategies.Err? then
                rateLimiter == old(rateLimiter)["gemini" := second.stored] && r == Err(Wrap(strategies.error))
              else if !third.allowed then
                rateLimiter == old(rateLimiter)["gemini" := second.stored]
                && r == Err(Wrap(RateLimitMessage("cohere", Recent(cohere, now), now)))
              else
                rateLimiter == old(rateLimiter)["gemini" := second.stored]["cohere" := third.stored]
                && (implement(Highest(strategies.value)).Err? ==> r == Err(Wrap(implement(Highest(strategies.value)).error)))
    {
      ghost var start := rateLimiter;
      var reply := CallAgent("gemini", now, report);
      if reply.Err? {
        r := Err(Wrap(reply.error));
      } else {
        var recommendations := CallAgent("gemini", now, strategies);
        if recommendations.Err? {
          r := Err(Wrap(recommendations.error));
        } else {
          var sorted, selected := SelectHighest(recommendations.value);
          var trade := CallAgent("cohere", now, implement(selected));
          if trade.Err? {
            r := Err(Wrap(trade.error));
          } else {
            r := Ok(ChainResult(report.value, sorted, selected, trade.value));
          }
        }
      }
      assert r == Chain(start, now, report, strategies, implement).result;
      ChainPaths(start, now, report, strategies, implement);
      ChainSucceeds(start, now, report, strategies, implement);
    }
  }
}

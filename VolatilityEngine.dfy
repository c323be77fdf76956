/** Historical volatility from log returns, Black-Scholes pricing, Newton-Raphson
    implied volatility and the average implied volatility of an options chain.
    The transcendental functions come in as a `Math` value; only the laws the
    proofs need are assumed of it, through `Lawful`, `ErfOdd` and `ErfBounded`. */
module VolatilityEngine {
  import opened Common

  /** `logRatio(a, b)` is `Math.log(a / b)`. */
  datatype Math = Math(logRatio: (real, real) -> real, exp: real -> real, erf: real -> real, sqrt: real -> real)

  ghost predicate Lawful(m: Math)
  {
    (forall x: real :: x >= 0.0 ==> m.sqrt(x) >= 0.0 && (x > 0.0 ==> m.sqrt(x) > 0.0))
    && m.sqrt(0.0) == 0.0
    && (forall x: real :: m.exp(x) > 0.0)
    && (forall a: real :: a != 0.0 ==> m.logRatio(a, a) == 0.0)
  }

  /** `erf` is odd: the normal CDF's symmetry, its value at 0 and put-call parity rely on it. */
  ghost predicate ErfOdd(m: Math)
  {
    forall x: real, y: real {:trigger m.erf(x), m.erf(y)} :: x + y == 0.0 ==> m.erf(x) + m.erf(y) == 0.0
  }

  const HvWindow: nat := 20
  const TradingDays: real := 252.0
  const PI: real := 3.141592653589793
  const InitialSigma: real := 0.2
  const MinSigma: real := 0.01
  const VegaFloor: real := 0.00000001
  const DefaultTolerance: real := 0.000001
  const DefaultMaxIterations: nat := 100
  const RiskFreeRate: real := 0.05
  const MaxReasonableIV: real := 500.0

  // ---------------------------------------------------- historical volatility

  /** `Math.log(prices[i] / prices[i - 1])` for every i >= 1. */
  function LogReturns(m: Math, prices: seq<real>): (r: seq<real>)
    ensures |r| == if prices == [] then 0 else |prices| - 1
    ensures forall i :: 0 <= i < |r| ==> r[i] == m.logRatio(prices[i + 1], prices[i])
  {
    if |prices| <= 1 then []
    else LogReturns(m, prices[..|prices| - 1]) + [m.logRatio(prices[|prices| - 1], prices[|prices| - 2])]
  }

  function SquaredDeviations(xs: seq<real>, mean: real): (r: seq<real>)
    ensures |r| == |xs|
    ensures forall i :: 0 <= i < |xs| ==> r[i] == (xs[i] - mean) * (xs[i] - mean)
  {
    seq(|xs|, i requires 0 <= i < |xs| => (xs[i] - mean) * (xs[i] - mean))
  }

  /** mathjs `variance(xs, 'uncorrected')`: the mean squared deviation. */
  function PopulationVariance(xs: seq<real>): real
    requires xs != []
  {
    Mean(SquaredDeviations(xs, Mean(xs)))
  }

  lemma VarianceNonNegative(xs: seq<real>)
    requires xs != []
    ensures PopulationVariance(xs) >= 0.0
  {
    var d := SquaredDeviations(xs, Mean(xs));
    SumNonNegative(d);
  }

  /** Annualised standard deviation of daily log returns, in percent (252 trading days). */
  function AnnualisedVolatility(m: Math, rets: seq<real>): real
    requires rets != []
  {
    m.sqrt(PopulationVariance(rets)) * m.sqrt(TradingDays) * 100.0
  }

  lemma AnnualisedVolatilityNonNegative(m: Math, rets: seq<real>)
    requires rets != []
    requires Lawful(m)
    ensures AnnualisedVolatility(m, rets) >= 0.0
  {
    VarianceNonNegative(rets);
    var a, b := m.sqrt(PopulationVariance(rets)), m.sqrt(TradingDays);
    assert a >= 0.0 && b > 0.0;
    assert a * b >= 0.0;
  }

  /** Annualised volatility, in percent, of the last `window` log returns. */
  function HistoricalVolatility(m: Math, prices: seq<real>, window: nat): real
    requires window >= 1 && |prices| >= window + 1
  {
    AnnualisedVolatility(m, LastN(LogReturns(m, prices), window))
  }

  lemma {:induction false} SumOfConstant(xs: seq<real>, c: real)
    requires forall i :: 0 <= i < |xs| ==> xs[i] == c
    ensures Sum(xs) == |xs| as real * c
    decreases |xs|
  {
    if xs != [] { SumOfConstant(xs[..|xs| - 1], c); }
  }

  lemma MeanOfZeros(xs: seq<real>)
    requires xs != []
    requires forall i :: 0 <= i < |xs| ==> xs[i] == 0.0
    ensures Mean(xs) == 0.0
  {
    SumOfConstant(xs, 0.0);
  }

  lemma VarianceOfZeros(xs: seq<real>)
    requires xs != []
    requires forall i :: 0 <= i < |xs| ==> xs[i] == 0.0
    ensures PopulationVariance(xs) == 0.0
  {
    MeanOfZeros(xs);
    var d := SquaredDeviations(xs, 0.0);
    forall i | 0 <= i < |d| ensures d[i] == 0.0 {
      assert xs[i] == 0.0;
    }
    MeanOfZeros(d);
  }

  /** A price series that never moves has only zero log returns. */
  lemma ConstantPricesHaveZeroReturns(m: Math, prices: seq<real>)
    requires Lawful(m)
    requires prices != [] && prices[0] != 0.0 && forall i :: 0 <= i < |prices| ==> prices[i] == prices[0]
    ensures forall i :: 0 <= i < |LogReturns(m, prices)| ==> LogReturns(m, prices)[i] == 0.0
  {
    var rets := LogReturns(m, prices);
    forall i | 0 <= i < |rets| ensures rets[i] == 0.0 {
      assert rets[i] == m.logRatio(prices[i + 1], prices[i]);
      assert prices[i + 1] == prices[i] == prices[0];
    }
  }

  lemma AnnualisedVolatilityOfZeros(m: Math, rets: seq<real>)
    requires Lawful(m)
    requires rets != [] && forall i :: 0 <= i < |rets| ==> rets[i] == 0.0
    ensures AnnualisedVolatility(m, rets) == 0.0
  {
    VarianceOfZeros(rets);
    assert m.sqrt(PopulationVariance(rets)) == 0.0;
  }

  /** A price series that never moves has zero historical volatility. */
  lemma ConstantPricesHaveZeroVolatility(m: Math, prices: seq<real>, window: nat)
    requires window >= 1 && |prices| >= window + 1
    requires Lawful(m)
    requires prices[0] != 0.0 && forall i :: 0 <= i < |prices| ==> prices[i] == prices[0]
    ensures HistoricalVolatility(m, prices, window) == 0.0
  {
    var rets := LogReturns(m, prices);
    ConstantPricesHaveZeroReturns(m, prices);
    var recent := LastN(rets, window);
    assert forall i :: 0 <= i < |recent| ==> recent[i] == rets[|rets| - |recent| + i];
    AnnualisedVolatilityOfZeros(m, recent);
  }

  /** The log-return loop of `calculateHistoricalVolatility`. */
  method CalculateLogReturns(m: Math, prices: seq<real>) returns (logReturns: seq<real>)
    ensures logReturns == LogReturns(m, prices)
  {
    logReturns := [];
    if prices == [] {
      return;
    }
    var i := 1;
    while i < |prices|
      invariant 1 <= i <= |prices|
      invariant logReturns == LogReturns(m, prices[..i])
    {
      assert prices[..i + 1][..i] == prices[..i];
      logReturns := logReturns + [m.logRatio(prices[i], prices[i - 1])];
      i := i + 1;
    }
    assert prices[..i] == prices;
  }

  /** `calculateHistoricalVolatility(prices, window)`. */
  method CalculateHistoricalVolatility(m: Math, prices: seq<real>, window: nat := HvWindow) returns (r: Result<real, string>)
    requires window >= 1
    requires Lawful(m)
    ensures r.Err? <==> |prices| < window + 1
    ensures r.Err? ==> r.error == "Insufficient data for historical volatility calculation"
    ensures r.Ok? ==> r.value == HistoricalVolatility(m, prices, window) && r.value >= 0.0
  {
    if |prices| < window + 1 {
      return Err("Insufficient data for historical volatility calculation");
    }
    var logReturns := CalculateLogReturns(m, prices);
    var recentReturns := SliceFrom(logReturns, -(window as int));
    assert recentReturns == LastN(logReturns, window);
    AnnualisedVolatilityNonNegative(m, recentReturns);
    r := Ok(AnnualisedVolatility(m, recentReturns));
  }

  // ----------------------------------------------------------- Black-Scholes

  /** `erf` takes values in [-1, 1]. */
  ghost predicate ErfBounded(m: Math)
  {
    forall x: real :: -1.0 <= m.erf(x) <= 1.0
  }

  /** The standard normal distribution function through `erf`. */
  function NormCdf(m: Math, x: real): (c: real)
    requires Lawful(m)
    ensures ErfBounded(m) ==> 0.0 <= c <= 1.0
    ensures ErfOdd(m) && x == 0.0 ==> c == 0.5
  {
    assert ErfOdd(m) && x == 0.0 ==> m.erf(0.0 / m.sqrt(2.0)) + m.erf(0.0 / m.sqrt(2.0)) == 0.0;
    0.5 * (1.0 + m.erf(x / m.sqrt(2.0)))
  }

  lemma NormCdfSymmetric(m: Math, x: real)
    requires Lawful(m) && ErfOdd(m)
    ensures NormCdf(m, x) + NormCdf(m, -x) == 1.0
  {
    var s := m.sqrt(2.0);
    assert s > 0.0;
    var a, b := x / s, -x / s;
    assert a + b == 0.0;
    assert m.erf(a) + m.erf(b) == 0.0;
  }

  /** `d1`; at the money with a non-negative rate it is positive, since the log
      term vanishes. */
  function D1(m: Math, S: real, K: real, T: real, r: real, sigma: real): (d1: real)
    requires Lawful(m) && T > 0.0 && sigma > 0.0
    ensures S == K && S != 0.0 && r >= 0.0 ==> d1 > 0.0
  {
    var root := m.sqrt(T);
    assert root > 0.0;
    assert sigma * root > 0.0;
    PositiveDrift(r, sigma, T);
    (m.logRatio(S, K) + (r + sigma * sigma / 2.0) * T) / (sigma * root)
  }

  /** With a non-negative rate the drift term `(r + sigma^2 / 2) * T` is positive. */
  lemma PositiveDrift(r: real, sigma: real, T: real)
    requires sigma > 0.0 && T > 0.0
    ensures r >= 0.0 ==> (r + sigma * sigma / 2.0) * T > 0.0
  {
    if r >= 0.0 {
      // stated for two factors: the solver does not relate squares reliably
      DriftOfProduct(r, sigma, sigma, T);
    }
  }

  lemma DriftOfProduct(r: real, a: real, b: real, T: real)
    requires r >= 0.0 && a > 0.0 && b > 0.0 && T > 0.0
    ensures (r + a * b / 2.0) * T > 0.0
  {
    assert a * b > 0.0;
    assert r + a * b / 2.0 > 0.0;
  }

  /** `d2` lies below `d1` by `sigma * sqrt(T)`, which is positive. */
  function D2(m: Math, S: real, K: real, T: real, r: real, sigma: real): (d2: real)
    requires Lawful(m) && T > 0.0 && sigma > 0.0
    ensures d2 < D1(m, S, K, T, r, sigma)
  {
    assert sigma * m.sqrt(T) > 0.0;
    D1(m, S, K, T, r, sigma) - sigma * m.sqrt(T)
  }

  /** The Black–Scholes call: 0 without time or volatility; for non-negative spot
      and strike it is never worth more than the spot. */
  function BlackScholesCall(m: Math, S: real, K: real, T: real, r: real, sigma: real): (price: real)
    requires Lawful(m)
    ensures T <= 0.0 || sigma <= 0.0 ==> price == 0.0
    ensures ErfBounded(m) && S >= 0.0 && K >= 0.0 ==> price <= S
  {
    if T <= 0.0 || sigma <= 0.0 then 0.0
    else
      var d1, d2 := D1(m, S, K, T, r, sigma), D2(m, S, K, T, r, sigma);
      CallBelowSpot(m, S, K * m.exp(-r * T), NormCdf(m, d1), NormCdf(m, d2));
      S * NormCdf(m, d1) - K * m.exp(-r * T) * NormCdf(m, d2)
  }

  /** The Black–Scholes put: 0 without time or volatility; for non-negative spot
      and strike it is never worth more than the discounted strike. */
  function BlackScholesPut(m: Math, S: real, K: real, T: real, r: real, sigma: real): (price: real)
    requires Lawful(m)
    ensures T <= 0.0 || sigma <= 0.0 ==> price == 0.0
    ensures ErfBounded(m) && S >= 0.0 && K >= 0.0 ==> price <= K * m.exp(-r * T)
  {
    if T <= 0.0 || sigma <= 0.0 then 0.0
    else
      var d1, d2 := D1(m, S, K, T, r, sigma), D2(m, S, K, T, r, sigma);
      CallBelowSpot(m, K * m.exp(-r * T), S, NormCdf(m, -d2), NormCdf(m, -d1));
      K * m.exp(-r * T) * NormCdf(m, -d2) - S * NormCdf(m, -d1)
  }

  /** `a * p - b * q <= a` for probabilities `p`, `q` and non-negative `a`, `b`. */
  lemma CallBelowSpot(m: Math, a: real, b: real, p: real, q: real)
    ensures a >= 0.0 && b >= 0.0 && 0.0 <= p <= 1.0 && 0.0 <= q <= 1.0 ==> a * p - b * q <= a
  {
    if a >= 0.0 && b >= 0.0 && 0.0 <= p <= 1.0 && 0.0 <= q <= 1.0 {
      assert a * p <= a * 1.0;
      assert b * q >= 0.0;
    }
  }

  /** Put-call parity: C - P = S - K e^(-rT) whenever the model prices at all. */
  lemma PutCallParity(m: Math, S: real, K: real, T: real, r: real, sigma: real)
    requires Lawful(m) && ErfOdd(m) && T > 0.0 && sigma > 0.0
    ensures BlackScholesCall(m, S, K, T, r, sigma) - BlackScholesPut(m, S, K, T, r, sigma) == S - K * m.exp(-r * T)
  {
    var d1, d2 := D1(m, S, K, T, r, sigma), D2(m, S, K, T, r, sigma);
    NormCdfSymmetric(m, d1);
    NormCdfSymmetric(m, d2);
    var e := K * m.exp(-r * T);
    ParityAlgebra(S, e, NormCdf(m, d1), NormCdf(m, -d1), NormCdf(m, d2), NormCdf(m, -d2));
  }

  lemma ParityAlgebra(S: real, e: real, n1: real, n1m: real, n2: real, n2m: real)
    requires n1 + n1m == 1.0 && n2 + n2m == 1.0
    ensures (S * n1 - e * n2) - (e * n2m - S * n1m) == S - e
  {
    assert S * n1 + S * n1m == S * (n1 + n1m);
    assert e * n2 + e * n2m == e * (n2 + n2m);
  }

  /** Vega; the call/put flag of the source does not change it. */
  function Vega(m: Math, S: real, K: real, T: real, r: real, sigma: real): (v: real)
    requires Lawful(m)
    ensures T <= 0.0 || sigma <= 0.0 ==> v == 0.0
    ensures S >= 0.0 ==> v >= 0.0
  {
    if T <= 0.0 || sigma <= 0.0 then 0.0
    else
      var d1 := D1(m, S, K, T, r, sigma);
      assert m.sqrt(2.0 * PI) > 0.0;
      S * m.sqrt(T) * m.exp(-0.5 * d1 * d1) / m.sqrt(2.0 * PI)
  }

  lemma VegaPositive(m: Math, S: real, K: real, T: real, r: real, sigma: real)
    requires Lawful(m) && T > 0.0 && sigma > 0.0 && S > 0.0
    ensures Vega(m, S, K, T, r, sigma) > 0.0
  {
    var d1 := D1(m, S, K, T, r, sigma);
    assert m.sqrt(T) > 0.0 && m.exp(-0.5 * d1 * d1) > 0.0 && m.sqrt(2.0 * PI) > 0.0;
    assert S * m.sqrt(T) > 0.0;
    assert S * m.sqrt(T) * m.exp(-0.5 * d1 * d1) > 0.0;
  }

  // ------------------------------------------------------- implied volatility

  /** The contract being inverted. */
  datatype Contract = Contract(S: real, K: real, T: real, r: real, isCall: bool)

  function ModelPrice(m: Math, c: Contract, sigma: real): real
    requires Lawful(m)
  {
    if c.isCall then BlackScholesCall(m, c.S, c.K, c.T, c.r, sigma) else BlackScholesPut(m, c.S, c.K, c.T, c.r, sigma)
  }

  /** The Newton step, kept positive: a step to zero or below restarts at 1%. */
  function NextSigma(m: Math, c: Contract, marketPrice: real, sigma: real): real
    requires Lawful(m)
    requires Abs(Vega(m, c.S, c.K, c.T, c.r, sigma)) >= VegaFloor
  {
    var next := sigma - (ModelPrice(m, c, sigma) - marketPrice) / Vega(m, c.S, c.K, c.T, c.r, sigma);
    if next <= 0.0 then MinSigma else next
  }

  /** Newton-Raphson from `sigma` at step `iteration`, in percent: stops when vega is
      too small, when the price is within tolerance, or after `maxIterations` steps. */
  function Newton(m: Math, c: Contract, marketPrice: real, sigma: real, iteration: nat, tolerance: real, maxIterations: nat): real
    requires Lawful(m)
    decreases maxIterations - iteration
  {
    if iteration >= maxIterations then sigma * 100.0
    else if Abs(Vega(m, c.S, c.K, c.T, c.r, sigma)) < VegaFloor then sigma * 100.0
    else if Abs(ModelPrice(m, c, sigma) - marketPrice) < tolerance then sigma * 100.0
    else Newton(m, c, marketPrice, NextSigma(m, c, marketPrice, sigma), iteration + 1, tolerance, maxIterations)
  }

  /** Implied volatility in percent; 0 when the option has expired. */
  function ImpliedVolatility(m: Math, marketPrice: real, c: Contract, tolerance: real, maxIterations: nat): real
    requires Lawful(m)
  {
    if c.T <= 0.0 then 0.0 else Newton(m, c, marketPrice, InitialSigma, 0, tolerance, maxIterations)
  }

  /** Every volatility the iteration visits is positive, so its answer is too. */
  lemma {:induction false} NewtonPositive(m: Math, c: Contract, marketPrice: real, sigma: real, iteration: nat, tolerance: real, maxIterations: nat)
    requires Lawful(m) && sigma > 0.0
    ensures Newton(m, c, marketPrice, sigma, iteration, tolerance, maxIterations) > 0.0
    decreases maxIterations - iteration
  {
    if iteration < maxIterations
       && Abs(Vega(m, c.S, c.K, c.T, c.r, sigma)) >= VegaFloor
       && Abs(ModelPrice(m, c, sigma) - marketPrice) >= tolerance {
      NewtonPositive(m, c, marketPrice, NextSigma(m, c, marketPrice, sigma), iteration + 1, tolerance, maxIterations);
    }
  }

  /** The implied volatility is positive exactly when the option has not expired. */
  lemma ImpliedVolatilitySign(m: Math, marketPrice: real, c: Contract, tolerance: real, maxIterations: nat)
    requires Lawful(m)
    ensures ImpliedVolatility(m, marketPrice, c, tolerance, maxIterations) > 0.0 <==> c.T > 0.0
    ensures c.T <= 0.0 ==> ImpliedVolatility(m, marketPrice, c, tolerance, maxIterations) == 0.0
  {
    if c.T > 0.0 {
      NewtonPositive(m, c, marketPrice, InitialSigma, 0, tolerance, maxIterations);
    }
  }

  /** `calculateImpliedVolatility(marketPrice, S, K, T, r, isCall, tolerance, maxIterations)`. */
  method CalculateImpliedVolatility(m: Math, marketPrice: real, c: Contract,
                                    tolerance: real := DefaultTolerance, maxIterations: nat := DefaultMaxIterations)
    returns (iv: real)
    requires Lawful(m)
    ensures iv == ImpliedVolatility(m, marketPrice, c, tolerance, maxIterations)
    ensures iv > 0.0 <==> c.T > 0.0
  {
    ImpliedVolatilitySign(m, marketPrice, c, tolerance, maxIterations);
    if c.T <= 0.0 {
      return 0.0;
    }
    var sigma := InitialSigma;
    var iteration: nat := 0;
    while iteration < maxIterations
      invariant iteration <= maxIterations || iteration == 0
      invariant Newton(m, c, marketPrice, sigma, iteration, tolerance, maxIterations)
                == Newton(m, c, marketPrice, InitialSigma, 0, tolerance, maxIterations)
      decreases maxIterations - iteration
    {
      var price := ModelPrice(m, c, sigma);
      var vega := Vega(m, c.S, c.K, c.T, c.r, sigma);
      if Abs(vega) < VegaFloor {
        break;
      }
      var diff := price - marketPrice;
      if Abs(diff) < tolerance {
        return sigma * 100.0;
      }
      sigma := sigma - diff / vega;
      if sigma <= 0.0 {
        sigma := MinSigma;
      }
      iteration := iteration + 1;
    }
    iv := sigma * 100.0;
  }

  // --------------------------------------------------------- average IV

  /** The `expiration` property of an option: a number of days, or anything
      else (such as a date string), which divided by 365 is NaN. */
  datatype Expiry = Days(days: real) | NotANumber

  datatype OptionQuote = OptionQuote(price: real, strike: real, expiration: Expiry, optionType: string)

  /** The implied volatility of one quote, or `None` where it is NaN. */
  function QuoteIV(m: Math, o: OptionQuote, spot: real, riskFreeRate: real): Option<real>
    requires Lawful(m)
  {
    match o.expiration
    case NotANumber => None
    case Days(d) =>
      Some(ImpliedVolatility(m, o.price, Contract(spot, o.strike, d / 365.0, riskFreeRate, o.optionType == "call"),
                             DefaultTolerance, DefaultMaxIterations))
  }

  predicate Reasonable(iv: Option<real>)
  {
    iv.Some? && 0.0 < iv.value < MaxReasonableIV
  }

  /** The implied volatilities the average is taken over, in option order. */
  function AcceptedIVs(m: Math, options: seq<OptionQuote>, spot: real, riskFreeRate: real): (ivs: seq<real>)
    requires Lawful(m)
    ensures forall i :: 0 <= i < |ivs| ==> 0.0 < ivs[i] < MaxReasonableIV
    ensures ivs == [] <==> forall i :: 0 <= i < |options| ==> !Reasonable(QuoteIV(m, options[i], spot, riskFreeRate))
  {
    if options == [] then []
    else
      var iv := QuoteIV(m, options[0], spot, riskFreeRate);
      var rest := AcceptedIVs(m, options[1..], spot, riskFreeRate);
      assert forall i :: 1 <= i < |options| ==> options[i] == options[1..][i - 1];
      if Reasonable(iv) then [iv.value] + rest else rest
  }

  /** The contribution of one option to `AcceptedIVs`. */
  function Accepted(iv: Option<real>): (r: seq<real>)
    ensures |r| <= 1
    ensures r != [] <==> Reasonable(iv)
  {
    if Reasonable(iv) then [iv.value] else []
  }

  /** One step of `AcceptedIVs`, from position `k`. */
  lemma AcceptedIVsStep(m: Math, options: seq<OptionQuote>, k: nat, spot: real, riskFreeRate: real)
    requires Lawful(m) && k < |options|
    ensures AcceptedIVs(m, options[k..], spot, riskFreeRate)
            == Accepted(QuoteIV(m, options[k], spot, riskFreeRate)) + AcceptedIVs(m, options[k + 1..], spot, riskFreeRate)
  {
    assert options[k..][1..] == options[k + 1..];
  }

  /** `AcceptedIVsStep` behind the volatilities collected before position `k`. */
  lemma CollectStep(m: Math, options: seq<OptionQuote>, k: nat, ivs: seq<real>, spot: real, riskFreeRate: real)
    requires Lawful(m) && k < |options|
    ensures ivs + AcceptedIVs(m, options[k..], spot, riskFreeRate)
            == (ivs + Accepted(QuoteIV(m, options[k], spot, riskFreeRate))) + AcceptedIVs(m, options[k + 1..], spot, riskFreeRate)
  {
    AcceptedIVsStep(m, options, k, spot, riskFreeRate);
  }

  /** The implied volatility the loop of `calculateAverageIV` computes for one option. */
  method QuoteImpliedVolatility(m: Math, option: OptionQuote, spot: real, riskFreeRate: real) returns (iv: Option<real>)
    requires Lawful(m)
    ensures iv == QuoteIV(m, option, spot, riskFreeRate)
  {
    match option.expiration {
      case NotANumber =>
        // T is NaN, so is every price the iteration computes; the NaN answer fails `iv > 0`.
        iv := None;
      case Days(d) =>
        var v := CalculateImpliedVolatility(m, option.price, Contract(spot, option.strike, d / 365.0, riskFreeRate, option.optionType == "call"));
        iv := Some(v);
    }
  }

  /** The loop of `calculateAverageIV`: the reasonable implied volatilities, in option order. */
  method CollectIVs(m: Math, options: seq<OptionQuote>, spot: real, riskFreeRate: real) returns (ivs: seq<real>)
    requires Lawful(m)
    ensures ivs == AcceptedIVs(m, options, spot, riskFreeRate)
  {
    ivs := [];
    var k := 0;
    while k < |options|
      invariant 0 <= k <= |options|
      invariant ivs + AcceptedIVs(m, options[k..], spot, riskFreeRate) == AcceptedIVs(m, options, spot, riskFreeRate)
    {
      var iv := QuoteImpliedVolatility(m, options[k], spot, riskFreeRate);
      CollectStep(m, options, k, ivs, spot, riskFreeRate);
      if iv.Some? && 0.0 < iv.value < MaxReasonableIV {
        ivs := ivs + [iv.value];
      }
      k := k + 1;
    }
    assert options[k..] == [];
  }

  /** `calculateAverageIV(options, spotPrice, riskFreeRate)`: `null` when no option
      gives a reasonable implied volatility, their mean otherwise. */
  method CalculateAverageIV(m: Math, options: seq<OptionQuote>, spot: real, riskFreeRate: real := RiskFreeRate)
    returns (avg: Option<real>)
    requires Lawful(m)
    ensures avg.None? <==> forall i :: 0 <= i < |options| ==> !Reasonable(QuoteIV(m, options[i], spot, riskFreeRate))
    ensures avg.Some? ==> avg.value == Mean(AcceptedIVs(m, options, spot, riskFreeRate))
    ensures avg.Some? ==> 0.0 < avg.value < MaxReasonableIV
  {
    var ivs := CollectIVs(m, options, spot, riskFreeRate);
    if ivs == [] {
      return None;
    }
    MeanStrictBounds(ivs, 0.0, MaxReasonableIV);
    avg := Some(Mean(ivs));
  }
}

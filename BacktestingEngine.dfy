/** The historical replay of server/modules/backtestingEngine.js: the scalar technical
    indicators it hands the agent chain, the look-back window of each replayed point,
    the replay loop driving a simulation engine, and the equity curve and trade
    analysis built from the simulated trade history.

    Price history, the agent chain and the market sentiment come from outside and are
    parameters; the timer that paces the replay is not modelled. */
module BacktestingEngine {
  import opened Common
  import opened MarketTypes
  import VolatilityEngine
  import Sim = SimulationEngine

  // ------------------------------------------------------------------- SMA

  /** `calculateSMA(prices, period)`: the mean of the last `period` prices, or null
      when there are fewer. */
  function Sma(prices: seq<real>, period: nat): (r: Option<real>)
    requires period >= 1
    ensures r.None? <==> |prices| < period
    ensures r.Some? ==> r.value * period as real == Sum(LastN(prices, period))
  {
    if |prices| < period then None
    else Some(Sum(LastN(prices, period)) / period as real)
  }

  lemma {:induction false} MeanBetween(xs: seq<real>, lo: real, hi: real)
    requires xs != []
    requires forall i :: 0 <= i < |xs| ==> lo <= xs[i] <= hi
    ensures lo <= Sum(xs) / |xs| as real <= hi
  {
    SumBounds(xs, lo, hi);
  }

  /** The SMA lies between the least and the greatest of the prices it averages. */
  lemma SmaBetween(prices: seq<real>, period: nat, lo: real, hi: real)
    requires period >= 1 && |prices| >= period
    requires forall i :: |prices| - period <= i < |prices| ==> lo <= prices[i] <= hi
    ensures lo <= Sma(prices, period).value <= hi
  {
    var w := LastN(prices, period);
    assert forall i :: 0 <= i < |w| ==> w[i] == prices[|prices| - period + i];
    MeanBetween(w, lo, hi);
  }

  // ------------------------------------------------------------------- RSI

  function Gain(change: real): (g: real)
    ensures g >= 0.0
  {
    if change > 0.0 then change else 0.0
  }

  function Loss(change: real): (l: real)
    ensures l >= 0.0
  {
    if change < 0.0 then -change else 0.0
  }

  /** The gain of every step `prices[i] - prices[i - 1]`. */
  function Gains(prices: seq<real>): (g: seq<real>)
    ensures |g| == if prices == [] then 0 else |prices| - 1
    ensures forall i :: 0 <= i < |g| ==> g[i] >= 0.0
  {
    if |prices| <= 1 then []
    else Gains(prices[..|prices| - 1]) + [Gain(prices[|prices| - 1] - prices[|prices| - 2])]
  }

  /** The size of the fall of every step. */
  function Losses(prices: seq<real>): (l: seq<real>)
    ensures |l| == if prices == [] then 0 else |prices| - 1
    ensures forall i :: 0 <= i < |l| ==> l[i] >= 0.0
  {
    if |prices| <= 1 then []
    else Losses(prices[..|prices| - 1]) + [Loss(prices[|prices| - 1] - prices[|prices| - 2])]
  }

  /** Entry `j` of `Gains` and `Losses` belongs to the step from `prices[j]` to `prices[j + 1]`. */
  lemma {:induction false} StepAt(prices: seq<real>, j: nat)
    requires j + 1 < |prices|
    ensures Gains(prices)[j] == Gain(prices[j + 1] - prices[j])
    ensures Losses(prices)[j] == Loss(prices[j + 1] - prices[j])
    decreases |prices|
  {
    var front := prices[..|prices| - 1];
    if j + 2 < |prices| {
      StepAt(front, j);
      assert front[j + 1] == prices[j + 1] && front[j] == prices[j];
    }
  }

  /** The mean of the last `period` entries of a list of non-negative numbers. */
  function WindowAverage(xs: seq<real>, period: nat): (r: real)
    requires period >= 1
    requires forall i :: 0 <= i < |xs| ==> xs[i] >= 0.0
    ensures r >= 0.0
    ensures r == 0.0 <==> Sum(LastN(xs, period)) == 0.0
  {
    NonNegativeWindow(xs, period);
    Sum(LastN(xs, period)) / period as real
  }

  /** `100 - 100 / (1 + avgGain / avgLoss)`, or 100 when the average loss is 0. */
  function RsiOfAverages(avgGain: real, avgLoss: real): (r: real)
    requires avgGain >= 0.0 && avgLoss >= 0.0
    ensures 0.0 <= r <= 100.0
    ensures r == 100.0 <==> avgLoss == 0.0
    ensures avgGain == 0.0 && avgLoss > 0.0 ==> r == 0.0
  {
    if avgLoss == 0.0 then 100.0
    else
      var rs := avgGain / avgLoss;
      assert rs >= 0.0;
      assert 0.0 < 100.0 / (1.0 + rs) <= 100.0;
      100.0 - 100.0 / (1.0 + rs)
  }

  /** `calculateRSI(prices, period)` from the average gain and the average loss of the
      last `period` steps; null with fewer than `period + 1` prices. */
  function Rsi(prices: seq<real>, period: nat): (r: Option<real>)
    requires period >= 1
    ensures r.None? <==> |prices| < period + 1
  {
    if |prices| < period + 1 then None
    else Some(RsiOfAverages(WindowAverage(Gains(prices), period), WindowAverage(Losses(prices), period)))
  }

  lemma NonNegativeWindow(xs: seq<real>, n: nat)
    requires forall i :: 0 <= i < |xs| ==> xs[i] >= 0.0
    ensures Sum(LastN(xs, n)) >= 0.0
  {
    var w := LastN(xs, n);
    assert forall i :: 0 <= i < |w| ==> w[i] == xs[|xs| - |w| + i];
    SumNonNegative(w);
  }

  /** The RSI is an index in [0, 100], and it is 100 exactly when no step in the window
      was a fall. */
  lemma RsiRange(prices: seq<real>, period: nat)
    requires period >= 1 && |prices| >= period + 1
    ensures 0.0 <= Rsi(prices, period).value <= 100.0
    ensures Rsi(prices, period).value == 100.0 <==> Sum(LastN(Losses(prices), period)) == 0.0
  {
  }

  lemma {:induction false} SumOfZeros(xs: seq<real>)
    requires forall i :: 0 <= i < |xs| ==> xs[i] == 0.0
    ensures Sum(xs) == 0.0
    decreases |xs|
  {
    if xs != [] {
      SumOfZeros(xs[..|xs| - 1]);
    }
  }

  lemma {:induction false} SumOfPositives(xs: seq<real>)
    requires xs != []
    requires forall i :: 0 <= i < |xs| ==> xs[i] > 0.0
    ensures Sum(xs) > 0.0
    decreases |xs|
  {
    if |xs| > 1 {
      SumOfPositives(xs[..|xs| - 1]);
    }
  }

  /** The last `period` steps of `Gains` and `Losses` are the steps ending at the last
      `period` prices. */
  lemma WindowSteps(prices: seq<real>, period: nat, i: nat)
    requires period >= 1 && |prices| >= period + 1 && i < period
    ensures var j := |prices| - 1 - period + i;
            LastN(Gains(prices), period)[i] == Gain(prices[j + 1] - prices[j])
            && LastN(Losses(prices), period)[i] == Loss(prices[j + 1] - prices[j])
  {
    var j := |prices| - 1 - period + i;
    LastNAt(Gains(prices), period, i, j);
    LastNAt(Losses(prices), period, i, j);
    StepAt(prices, j);
  }

  /** A price that fell at every step of the window has an RSI of 0. */
  lemma RsiOfFallingPrices(prices: seq<real>, period: nat)
    requires period >= 1 && |prices| >= period + 1
    requires forall i :: |prices| - period - 1 <= i < |prices| - 1 ==> prices[i + 1] < prices[i]
    ensures Rsi(prices, period) == Some(0.0)
  {
    var gains := LastN(Gains(prices), period);
    var losses := LastN(Losses(prices), period);
    forall i | 0 <= i < period
      ensures gains[i] == 0.0 && losses[i] > 0.0
    {
      WindowSteps(prices, period, i);
      var j := |prices| - 1 - period + i;
      assert prices[j + 1] < prices[j];
    }
    SumOfZeros(gains);
    SumOfPositives(losses);
  }

  /** A price that never fell in the window has an RSI of 100. */
  lemma RsiOfRisingPrices(prices: seq<real>, period: nat)
    requires period >= 1 && |prices| >= period + 1
    requires forall i :: |prices| - period - 1 <= i < |prices| - 1 ==> prices[i] <= prices[i + 1]
    ensures Rsi(prices, period) == Some(100.0)
  {
    var losses := LastN(Losses(prices), period);
    forall i | 0 <= i < period
      ensures losses[i] == 0.0
    {
      WindowSteps(prices, period, i);
      var j := |prices| - 1 - period + i;
      assert prices[j] <= prices[j + 1];
    }
    SumOfZeros(losses);
  }

  /** One more price adds the step into it to the end of `Gains` and `Losses`. */
  lemma StepsExtend(prices: seq<real>, i: nat)
    requires 1 <= i < |prices|
    ensures Gains(prices[..i + 1]) == Gains(prices[..i]) + [Gain(prices[i] - prices[i - 1])]
    ensures Losses(prices[..i + 1]) == Losses(prices[..i]) + [Loss(prices[i] - prices[i - 1])]
  {
    assert prices[..i + 1][..i] == prices[..i];
  }

  /** `calculateRSI(prices, period)`: one pass collecting each step's gain and loss. */
  method CalculateRsi(prices: seq<real>, period: nat) returns (r: Option<real>)
    requires period >= 1
    ensures r == Rsi(prices, period)
  {
    if |prices| < period + 1 {
      return None;
    }
    var gains: seq<real> := [];
    var losses: seq<real> := [];
    for i := 1 to |prices|
      invariant gains == Gains(prices[..i]) && losses == Losses(prices[..i])
    {
      var change := prices[i] - prices[i - 1];
      StepsExtend(prices, i);
      gains := gains + [if change > 0.0 then change else 0.0];
      losses := losses + [if change < 0.0 then Abs(change) else 0.0];
    }
    assert prices[..|prices|] == prices;
    r := Some(RsiOfAverages(WindowAverage(gains, period), WindowAverage(losses, period)));
  }

  // ------------------------------------------------------------------- EMA

  /** `2 / (period + 1)`. */
  function Multiplier(period: nat): (k: real)
    requires period >= 1
    ensures 0.0 < k <= 1.0
  {
    2.0 / (period as real + 1.0)
  }

  /** One smoothing step: `(price - ema) * multiplier + ema`. */
  function EmaStep(ema: real, price: real, period: nat): real
    requires period >= 1
  {
    (price - ema) * Multiplier(period) + ema
  }

  /** The EMA after smoothing `xs` in order, starting from `seed`. */
  function EmaFold(seed: real, xs: seq<real>, period: nat): real
    requires period >= 1
  {
    if xs == [] then seed else EmaStep(EmaFold(seed, xs[..|xs| - 1], period), xs[|xs| - 1], period)
  }

  /** `calculateEMA(prices, period)`: seeded with the mean of the first `period` prices,
      then smoothed over the rest; null when there are fewer than `period` prices. */
  function Ema(prices: seq<real>, period: nat): (r: Option<real>)
    requires period >= 1
    ensures r.None? <==> |prices| < period
  {
    if |prices| < period then None
    else Some(EmaFold(Sum(prices[..period]) / period as real, prices[period..], period))
  }

  /** A smoothing step moves the EMA towards the price, never past it. */
  lemma EmaStepBetween(ema: real, price: real, period: nat, lo: real, hi: real)
    requires period >= 1 && lo <= ema <= hi && lo <= price <= hi
    ensures lo <= EmaStep(ema, price, period) <= hi
  {
    var k := Multiplier(period);
    assert EmaStep(ema, price, period) == price * k + ema * (1.0 - k);
    ProductNonNegative(price - lo, k);
    ProductNonNegative(ema - lo, 1.0 - k);
    ProductNonNegative(hi - price, k);
    ProductNonNegative(hi - ema, 1.0 - k);
  }

  lemma ProductNonNegative(a: real, b: real)
    requires a >= 0.0 && b >= 0.0
    ensures a * b >= 0.0
  {
  }

  lemma {:induction false} EmaFoldBetween(seed: real, xs: seq<real>, period: nat, lo: real, hi: real)
    requires period >= 1 && lo <= seed <= hi
    requires forall i :: 0 <= i < |xs| ==> lo <= xs[i] <= hi
    ensures lo <= EmaFold(seed, xs, period) <= hi
    decreases |xs|
  {
    if xs != [] {
      EmaFoldBetween(seed, xs[..|xs| - 1], period, lo, hi);
      EmaStepBetween(EmaFold(seed, xs[..|xs| - 1], period), xs[|xs| - 1], period, lo, hi);
    }
  }

  /** The EMA stays within the range of the prices it smooths. */
  lemma EmaBetween(prices: seq<real>, period: nat, lo: real, hi: real)
    requires period >= 1 && |prices| >= period
    requires forall i :: 0 <= i < |prices| ==> lo <= prices[i] <= hi
    ensures lo <= Ema(prices, period).value <= hi
  {
    MeanBetween(prices[..period], lo, hi);
    EmaFoldBetween(Sum(prices[..period]) / period as real, prices[period..], period, lo, hi);
  }

  /** `calculateEMA(prices, period)`. */
  method CalculateEma(prices: seq<real>, period: nat) returns (r: Option<real>)
    requires period >= 1
    ensures r == Ema(prices, period)
  {
    if |prices| < period {
      return None;
    }
    var multiplier := Multiplier(period);
    var seed := Sum(prices[..period]) / period as real;
    var ema := seed;
    for i := period to |prices|
      invariant ema == EmaFold(seed, prices[period..i], period)
    {
      assert prices[period..i + 1][..i - period] == prices[period..i];
      assert prices[period..i + 1][i - period] == prices[i];
      assert EmaFold(seed, prices[period..i + 1], period) == EmaStep(ema, prices[i], period);
      assert EmaStep(ema, prices[i], period) == (prices[i] - ema) * multiplier + ema;
      ema := (prices[i] - ema) * multiplier + ema;
    }
    assert prices[period..|prices|] == prices[period..];
    r := Some(ema);
  }

  // ------------------------------------------------------------------ MACD

  datatype Macd = Macd(macd: real, signal: real, histogram: real)

  const ZeroMacd := Macd(0.0, 0.0, 0.0)

  /** `value || 0` on a number that may be null. */
  function OrZero(x: Option<real>): real
  {
    if x.Some? && x.value != 0.0 then x.value else 0.0
  }

  /** `calculateMACD(prices)`: zeros for fewer than 26 prices; otherwise EMA12 - EMA26.
      The signal line is the 9-period EMA of the one-element list `[macd]`, which is
      null, so the signal is always 0 and the histogram equals the MACD line. */
  function MacdOf(prices: seq<real>): (r: Macd)
    ensures |prices| < 26 ==> r == ZeroMacd
    ensures r.signal == 0.0 && r.histogram == r.macd
  {
    if |prices| < 26 then ZeroMacd
    else
      var macd := Ema(prices, 12).value - Ema(prices, 26).value;
      var signal := OrZero(Ema([macd], 9));
      Macd(macd, signal, macd - signal)
  }

  /** Constant prices have a zero MACD. */
  lemma MacdOfConstantPrices(prices: seq<real>, c: real)
    requires forall i :: 0 <= i < |prices| ==> prices[i] == c
    ensures MacdOf(prices) == ZeroMacd
  {
    if |prices| >= 26 {
      EmaBetween(prices, 12, c, c);
      EmaBetween(prices, 26, c, c);
    }
  }

  /** `calculateMACD(prices)`. */
  method CalculateMacd(prices: seq<real>) returns (r: Macd)
    ensures r == MacdOf(prices)
  {
    if |prices| < 26 {
      return ZeroMacd;
    }
    var ema12 := CalculateEma(prices, 12);
    var ema26 := CalculateEma(prices, 26);
    var macd := ema12.value - ema26.value;
    var signalEma := CalculateEma([macd], 9);
    var signal := OrZero(signalEma);
    r := Macd(macd, signal, macd - signal);
  }

  // ------------------------------------------------------- createMarketContext

  function UpperChar(c: char): (r: char)
    ensures 'a' <= c <= 'z' ==> r as int == c as int - 32
    ensures !('a' <= c <= 'z') ==> r == c
  {
    if 'a' <= c <= 'z' then (c as int - 32) as char else c
  }

  /** `String.prototype.toUpperCase` on ASCII letters. */
  function ToUpper(s: string): (r: string)
    ensures |r| == |s|
    ensures forall i :: 0 <= i < |s| ==> r[i] == UpperChar(s[i])
  {
    if s == [] then [] else [UpperChar(s[0])] + ToUpper(s[1..])
  }

  /** Prices of at most this many points, ending at the current one, feed the context. */
  const LookbackPeriod: nat := 21
  /** Sentiment is fetched only at indices divisible by this. */
  const SentimentEvery: nat := 24
  /** The sentiment used when none is fetched. */
  const FallbackScores := Scores(0.33, 0.33, 0.34, 0.0)

  /** `data.slice(max(0, index - lookback + 1), index + 1)` with `lookback = min(21, index + 1)`:
      the last (at most) 21 prices up to and including `index`. */
  function LookbackWindow(data: seq<real>, index: nat): (w: seq<real>)
    requires index < |data|
    ensures |w| == if index + 1 < LookbackPeriod then index + 1 else LookbackPeriod
    ensures w == data[index + 1 - |w|..index + 1]
  {
    var lookback := if LookbackPeriod < index + 1 then LookbackPeriod else index + 1;
    var start := Max(0, index - lookback + 1);
    data[start..index + 1]
  }

  datatype Indicators = Indicators(sma20: Option<real>, sma50: Option<real>, rsi: Option<real>, macd: Macd)

  /** The market context handed to the agent chain (order book and recent trades are
      always empty here and are not represented). */
  datatype Context = Context(symbol: string, price: real, historicalVolatility: real,
                             sentiment: Scores, articleCount: nat, indicators: Indicators)

  function IndicatorsOf(prices: seq<real>): Indicators
  {
    Indicators(Sma(prices, 20), Sma(prices, 50), Rsi(prices, 14), MacdOf(prices))
  }

  /** `createMarketContext(asset, data, index)`.  `sentimentAt(asset, index)` is what
      `getMarketSentiment()` answers when it is called for that point, `None` when it
      throws; it is only asked at indices divisible by 24. */
  function ContextAt(m: VolatilityEngine.Math, asset: string, data: seq<real>, index: nat,
                     sentimentAt: (string, nat) -> Option<Sentiment>): (c: Context)
    requires index < |data|
    ensures c.symbol == ToUpper(asset) && c.price == data[index]
    ensures c.indicators == IndicatorsOf(LookbackWindow(data, index))
  {
    var prices := LookbackWindow(data, index);
    var hv := if |prices| >= LookbackPeriod
              then VolatilityEngine.HistoricalVolatility(m, prices, VolatilityEngine.HvWindow) else 0.0;
    var fetched := if index % SentimentEvery == 0 then sentimentAt(asset, index) else None;
    var scores := if fetched.Some? then fetched.value.overall else FallbackScores;
    var count := if fetched.Some? then fetched.value.articleCount else 0;
    Context(ToUpper(asset), data[index], hv, scores, count, IndicatorsOf(prices))
  }

  /** What the 21-point window implies: the 50-period SMA and the MACD never have enough
      data, the 20-period SMA and the 14-period RSI appear once enough points have passed,
      volatility is 0 before the 21st point, and between fetches the fallback sentiment
      with no articles is used. */
  lemma ContextWindowFacts(m: VolatilityEngine.Math, asset: string, data: seq<real>, index: nat,
                           sentimentAt: (string, nat) -> Option<Sentiment>)
    requires index < |data|
    ensures var c := ContextAt(m, asset, data, index, sentimentAt);
            c.indicators.sma50.None? && c.indicators.macd == ZeroMacd
            && (c.indicators.sma20.Some? <==> index >= 19)
            && (c.indicators.rsi.Some? <==> index >= 14)
            && (index < 20 ==> c.historicalVolatility == 0.0)
            && (index % SentimentEvery != 0 ==> c.sentiment == FallbackScores && c.articleCount == 0)
  {
  }

  /** The context's volatility is never negative. */
  lemma ContextVolatilityNonNegative(m: VolatilityEngine.Math, asset: string, data: seq<real>, index: nat,
                                     sentimentAt: (string, nat) -> Option<Sentiment>)
    requires index < |data| && VolatilityEngine.Lawful(m)
    ensures ContextAt(m, asset, data, index, sentimentAt).historicalVolatility >= 0.0
  {
    var prices := LookbackWindow(data, index);
    if |prices| >= LookbackPeriod {
      var rets := LastN(VolatilityEngine.LogReturns(m, prices), VolatilityEngine.HvWindow);
      VolatilityEngine.AnnualisedVolatilityNonNegative(m, rets);
    }
  }

  /** `createMarketContext(asset, data, index)`, computing the indicators with the
      engine's own loops. */
  method CreateMarketContext(m: VolatilityEngine.Math, asset: string, data: seq<real>, index: nat,
                             sentimentAt: (string, nat) -> Option<Sentiment>) returns (c: Context)
    requires index < |data| && VolatilityEngine.Lawful(m)
    ensures c == ContextAt(m, asset, data, index, sentimentAt)
  {
    var lookback := if LookbackPeriod < index + 1 then LookbackPeriod else index + 1;
    var prices := data[Max(0, index - lookback + 1)..index + 1];
    assert prices == LookbackWindow(data, index);
    var hv := LookbackVolatility(m, prices);
    var scores, count := PointSentiment(asset, index, sentimentAt);
    var indicators := CalculateIndicators(prices);
    c := Context(ToUpper(asset), data[index], hv, scores, count, indicators);
  }

  /** The sentiment of a point: `getMarketSentiment()`'s overall scores and article
      count at every 24th index when it answers, the fallback with no articles
      otherwise. */
  method PointSentiment(asset: string, index: nat, sentimentAt: (string, nat) -> Option<Sentiment>)
    returns (scores: Scores, count: nat)
    ensures var fetched := if index % SentimentEvery == 0 then sentimentAt(asset, index) else None;
            scores == (if fetched.Some? then fetched.value.overall else FallbackScores)
            && count == (if fetched.Some? then fetched.value.articleCount else 0)
  {
    scores, count := FallbackScores, 0;
    if index % SentimentEvery == 0 {
      var fetched := sentimentAt(asset, index);
      if fetched.Some? {
        scores, count := fetched.value.overall, fetched.value.articleCount;
      }
    }
  }

  /** The context's volatility: the engine's historical volatility once the window holds
      21 prices, 0 before. */
  method LookbackVolatility(m: VolatilityEngine.Math, prices: seq<real>) returns (hv: real)
    requires VolatilityEngine.Lawful(m)
    ensures hv == if |prices| >= LookbackPeriod then VolatilityEngine.HistoricalVolatility(m, prices, VolatilityEngine.HvWindow) else 0.0
  {
    hv := 0.0;
    if |prices| >= LookbackPeriod {
      var computed := VolatilityEngine.CalculateHistoricalVolatility(m, prices);
      hv := computed.value;
    }
  }

  /** The `technicalIndicators` object of `createMarketContext`. */
  method CalculateIndicators(prices: seq<real>) returns (r: Indicators)
    ensures r == IndicatorsOf(prices)
  {
    var sma20 := Sma(prices, 20);
    var sma50 := Sma(prices, 50);
    var rsi := CalculateRsi(prices, 14);
    var macd := CalculateMacd(prices);
    r := Indicators(sma20, sma50, rsi, macd);
  }

  // ------------------------------------------------------------------ replay

  /** The simulated state a backtest drives: the simulation's portfolio and its price map. */
  datatype SimState = SimState(portfolio: Sim.Portfolio, marketData: map<string, real>)

  /** The agent chain as the backtest sees it: the trade it recommends for a context and
      an account status, or `None` (chain not configured, no executable trade, or an
      error that the backtest catches). */
  type Chain = (Context, Sim.PortfolioStatus) -> Option<Sim.TradeRequest>

  /** A started simulation. */
  function Start(c: Sim.Config): (s: SimState)
    ensures s.portfolio.isActive && s.portfolio.tradeHistory == [] && s.portfolio.balance == c.initialBalance
  {
    SimState(Sim.InitialPortfolio(c).(isActive := true), map[])
  }

  /** One data point after the chain answered: a recommended trade is executed; when
      execution succeeds the point's price is recorded under the position's key and that
      position is revalued.  A refused trade leaves everything as it was. */
  function PointStep(c: Sim.Config, s: SimState, trade: Option<Sim.TradeRequest>, price: real): (r: SimState)
    requires c.initialBalance != 0.0 && Sim.Consistent(s.portfolio)
    ensures Sim.Consistent(r.portfolio)
  {
    if trade.None? then s
    else
      var e := Sim.EnterTrade(c, s.portfolio, trade.value);
      if e.Err? then s
      else
        var key := Sim.PositionKey(trade.value.tradeType, trade.value.strike);
        var md := s.marketData[key := price];
        Sim.EnterTradeConsistent(c, s.portfolio, trade.value);
        Sim.UpdatePositionPnLConsistent(e.value.0, md, key);
        SimState(Sim.UpdatePositionPnL(e.value.0, md, key), md)
  }

  /** The context `createMarketContext` builds at each point of one asset's series; it
      depends on the series and the sentiment answers, never on the simulation. */
  function Contexts(m: VolatilityEngine.Math, asset: string, data: seq<real>,
                    sentimentAt: (string, nat) -> Option<Sentiment>): (cs: seq<Context>)
    ensures |cs| == |data|
  {
    seq(|data|, i requires 0 <= i < |data| => ContextAt(m, asset, data, i, sentimentAt))
  }

  /** The first `n` points of one asset's series, in order, each handed to the chain with
      its context and the portfolio status at that moment. */
  function ReplayAsset(c: Sim.Config, s0: SimState, contexts: seq<Context>, n: nat, chain: Chain): (r: SimState)
    requires c.initialBalance != 0.0 && Sim.Consistent(s0.portfolio) && n <= |contexts|
    ensures Sim.Consistent(r.portfolio)
  {
    if n == 0 then s0
    else
      var s := ReplayAsset(c, s0, contexts, n - 1, chain);
      var trade := chain(contexts[n - 1], Sim.Status(s.portfolio));
      PointStep(c, s, trade, contexts[n - 1].price)
  }

  /** The contexts of every asset's series, in the order of the series. */
  function SeriesContexts(m: VolatilityEngine.Math, series: seq<(string, seq<real>)>,
                          sentimentAt: (string, nat) -> Option<Sentiment>): (css: seq<seq<Context>>)
    ensures |css| == |series|
  {
    seq(|series|, k requires 0 <= k < |series| => Contexts(m, series[k].0, series[k].1, sentimentAt))
  }

  /** The first `k` assets' series, one after another. */
  function ReplayAll(c: Sim.Config, s0: SimState, contexts: seq<seq<Context>>, k: nat, chain: Chain): (r: SimState)
    requires c.initialBalance != 0.0 && Sim.Consistent(s0.portfolio) && k <= |contexts|
    ensures Sim.Consistent(r.portfolio)
  {
    if k == 0 then s0
    else
      var s := ReplayAll(c, s0, contexts, k - 1, chain);
      ReplayAsset(c, s, contexts[k - 1], |contexts[k - 1]|, chain)
  }

  /** A point never closes a position and never lets the balance go negative. */
  lemma PointStepOpensOnly(c: Sim.Config, s: SimState, trade: Option<Sim.TradeRequest>, price: real)
    requires c.initialBalance != 0.0 && Sim.Consistent(s.portfolio)
    ensures var r := PointStep(c, s, trade, price);
            Sim.CountExits(r.portfolio.tradeHistory) == Sim.CountExits(s.portfolio.tradeHistory)
            && (s.portfolio.balance >= 0.0 ==> r.portfolio.balance >= 0.0)
  {
    if trade.Some? && Sim.EnterTrade(c, s.portfolio, trade.value).Ok? {
      var t := trade.value;
      Sim.EntryEffect(c, s.portfolio, t);
      var q := Sim.EnterTrade(c, s.portfolio, t).value.0;
      var key := Sim.PositionKey(t.tradeType, t.strike);
      Sim.CountsAppend(s.portfolio.tradeHistory,
                       Sim.Entry(key, t.tradeType, t.quantity, t.strike as real, Sim.EntryFees(c, t), q.balance));
    }
  }

  lemma {:induction false} ReplayAssetOpensOnly(c: Sim.Config, s0: SimState, contexts: seq<Context>, n: nat, chain: Chain)
    requires c.initialBalance != 0.0 && Sim.Consistent(s0.portfolio) && n <= |contexts|
    ensures var r := ReplayAsset(c, s0, contexts, n, chain);
            Sim.CountExits(r.portfolio.tradeHistory) == Sim.CountExits(s0.portfolio.tradeHistory)
            && (s0.portfolio.balance >= 0.0 ==> r.portfolio.balance >= 0.0)
  {
    if n > 0 {
      ReplayAssetOpensOnly(c, s0, contexts, n - 1, chain);
      var s := ReplayAsset(c, s0, contexts, n - 1, chain);
      PointStepOpensOnly(c, s, chain(contexts[n - 1], Sim.Status(s.portfolio)), contexts[n - 1].price);
    }
  }

  /** Replaying any number of series only opens positions: no exit is recorded and the
      balance stays non-negative. */
  lemma {:induction false} ReplayAllOpensOnly(c: Sim.Config, s0: SimState, contexts: seq<seq<Context>>, k: nat,
                                              chain: Chain)
    requires c.initialBalance != 0.0 && Sim.Consistent(s0.portfolio) && k <= |contexts|
    ensures var r := ReplayAll(c, s0, contexts, k, chain);
            Sim.CountExits(r.portfolio.tradeHistory) == Sim.CountExits(s0.portfolio.tradeHistory)
            && (s0.portfolio.balance >= 0.0 ==> r.portfolio.balance >= 0.0)
  {
    if k > 0 {
      ReplayAllOpensOnly(c, s0, contexts, k - 1, chain);
      var s := ReplayAll(c, s0, contexts, k - 1, chain);
      ReplayAssetOpensOnly(c, s, contexts[k - 1], |contexts[k - 1]|, chain);
    }
  }

  /** `historicalData.reduce((sum, asset) => sum + asset.data.length, 0)`. */
  function TotalPoints(series: seq<(string, seq<real>)>): nat
  {
    if series == [] then 0 else TotalPoints(series[..|series| - 1]) + |series[|series| - 1].1|
  }

  /** The points of a prefix of the assets never exceed the total. */
  lemma {:induction false} TotalPointsPrefix(series: seq<(string, seq<real>)>, k: nat)
    requires k <= |series|
    ensures TotalPoints(series[..k]) <= TotalPoints(series)
    ensures k < |series| ==> TotalPoints(series[..k]) + |series[k].1| <= TotalPoints(series)
    decreases |series| - k
  {
    if k < |series| {
      TotalPointsPrefix(series, k + 1);
      assert series[..k + 1][..k] == series[..k];
      if k + 1 == |series| {
        assert series[..k + 1] == series;
      }
    } else {
      assert series[..k] == series;
    }
  }

  /** One more asset adds its points to the prefix's total. */
  lemma TotalPointsStep(series: seq<(string, seq<real>)>, k: nat)
    requires k < |series|
    ensures TotalPoints(series[..k + 1]) == TotalPoints(series[..k]) + |series[k].1|
  {
    assert series[..k + 1][..k] == series[..k];
  }

  /** `10 + (processedPoints / totalDataPoints) * 80`: while the points are replayed,
      progress stays between 10 and 90. */
  function Progress(processed: nat, total: nat): (r: real)
    requires processed <= total && total > 0
    ensures 10.0 <= r <= 90.0
  {
    var fraction := processed as real / total as real;
    Sim.FractionAtMostOne(processed as real, total as real);
    QuotientSign(processed as real, total as real);
    10.0 + fraction * 80.0
  }

  /** The progress reported after a point: `Progress(processed, total)`, which stays
      between 10 and 90. */
  method ProgressAt(processed: nat, total: nat) returns (r: real)
    requires processed <= total && total > 0
    ensures 10.0 <= r <= 90.0
  {
    r := Progress(processed, total);
  }

  /** Progress starts at 10, reaches 90 with the last point, and never moves back. */
  lemma ProgressEnds(a: nat, b: nat, total: nat)
    requires a <= b <= total && total > 0
    ensures Progress(0, total) == 10.0 && Progress(total, total) == 90.0
    ensures Progress(a, total) <= Progress(b, total)
  {
    var t := total as real;
    assert t / t == 1.0;
    QuotientMonotone(a as real, b as real, t);
  }

  /** Dividing by a positive number keeps the order. */
  lemma QuotientMonotone(x: real, y: real, t: real)
    requires x <= y && t > 0.0
    ensures x / t <= y / t
  {
    QuotientSign(y - x, t);
    assert (y - x) / t == y / t - x / t;
  }

  // ------------------------------------------------------------ equity curve

  /** `calculateEquityCurve()`: the initial balance followed by the balance recorded with
      each trade, in order. */
  function EquityCurve(initial: real, h: seq<Sim.TradeRecord>): (curve: seq<real>)
    ensures |curve| == |h| + 1 && curve[0] == initial
  {
    if h == [] then [initial] else EquityCurve(initial, h[..|h| - 1]) + [h[|h| - 1].balance]
  }

  /** Every point after the first is the balance after the corresponding trade. */
  lemma {:induction false} EquityCurvePoints(initial: real, h: seq<Sim.TradeRecord>)
    ensures forall i :: 0 <= i < |h| ==> EquityCurve(initial, h)[i + 1] == h[i].balance
    decreases |h|
  {
    if h != [] {
      EquityCurvePoints(initial, h[..|h| - 1]);
    }
  }

  /** Entering a trade adds one point to the equity curve: the balance after the trade. */
  lemma EntryExtendsEquityCurve(c: Sim.Config, p: Sim.Portfolio, t: Sim.TradeRequest, initial: real)
    requires c.initialBalance != 0.0 && Sim.DistinctKeys(p.positions)
    requires Sim.EnterTrade(c, p, t).Ok?
    ensures var q := Sim.EnterTrade(c, p, t).value.0;
            EquityCurve(initial, q.tradeHistory) == EquityCurve(initial, p.tradeHistory) + [q.balance]
  {
    Sim.EntryEffect(c, p, t);
    var q := Sim.EnterTrade(c, p, t).value.0;
    assert q.tradeHistory[..|q.tradeHistory| - 1] == p.tradeHistory;
  }

  // ---------------------------------------------------------- analyzeTrades

  /** `analyzeTrades()`; the profit factor is `None` where the source answers Infinity. */
  datatype TradeAnalysis = TradeAnalysis(
    totalTrades: nat, winningTrades: nat, losingTrades: nat, winRate: real,
    avgWin: real, avgLoss: real, largestWin: real, largestLoss: real, profitFactor: Option<real>)

  /** The net P&L of every exit, in order. */
  function ExitPnLs(h: seq<Sim.TradeRecord>): (r: seq<real>)
    ensures |r| == Sim.CountExits(h)
  {
    if h == [] then []
    else ExitPnLs(h[..|h| - 1]) + (if h[|h| - 1].Exit? then [h[|h| - 1].netPnL] else [])
  }

  function PositivePnLs(xs: seq<real>): (r: seq<real>)
    ensures |r| <= |xs|
    ensures forall i :: 0 <= i < |r| ==> r[i] > 0.0
  {
    if xs == [] then [] else PositivePnLs(xs[..|xs| - 1]) + (if xs[|xs| - 1] > 0.0 then [xs[|xs| - 1]] else [])
  }

  function NegativePnLs(xs: seq<real>): (r: seq<real>)
    ensures |r| <= |xs|
    ensures forall i :: 0 <= i < |r| ==> r[i] < 0.0
  {
    if xs == [] then [] else NegativePnLs(xs[..|xs| - 1]) + (if xs[|xs| - 1] < 0.0 then [xs[|xs| - 1]] else [])
  }

  /** `Math.max(...xs)`. */
  function SeqMax(xs: seq<real>): (r: real)
    requires xs != []
    ensures forall i :: 0 <= i < |xs| ==> xs[i] <= r
  {
    if |xs| == 1 then xs[0]
    else
      var rest := SeqMax(xs[..|xs| - 1]);
      assert forall i :: 0 <= i < |xs| - 1 ==> xs[..|xs| - 1][i] == xs[i];
      MaxReal(rest, xs[|xs| - 1])
  }

  /** `Math.min(...xs)`. */
  function SeqMin(xs: seq<real>): (r: real)
    requires xs != []
    ensures forall i :: 0 <= i < |xs| ==> r <= xs[i]
  {
    if |xs| == 1 then xs[0]
    else
      var rest := SeqMin(xs[..|xs| - 1]);
      assert forall i :: 0 <= i < |xs| - 1 ==> xs[..|xs| - 1][i] == xs[i];
      MinReal(rest, xs[|xs| - 1])
  }

  lemma {:induction false} SumOfNegatives(xs: seq<real>)
    requires forall i :: 0 <= i < |xs| ==> xs[i] < 0.0
    ensures xs != [] ==> Sum(xs) < 0.0
    decreases |xs|
  {
    if |xs| > 1 {
      SumOfNegatives(xs[..|xs| - 1]);
    }
  }

  /** The analysis of a non-empty list of exit P&Ls. */
  function AnalysisOf(pnls: seq<real>): (a: TradeAnalysis)
    requires pnls != []
    ensures a.totalTrades == |pnls| && a.winningTrades == |PositivePnLs(pnls)|
    ensures a.winningTrades + a.losingTrades <= a.totalTrades
    ensures a.profitFactor.None? <==> a.losingTrades == 0
  {
    var profits := PositivePnLs(pnls);
    var losses := NegativePnLs(pnls);
    PnLCounts(pnls);
    SumOfNegatives(losses);
    TradeAnalysis(
      |pnls|, |profits|, |losses|, |profits| as real / |pnls| as real,
      if profits != [] then Sum(profits) / |profits| as real else 0.0,
      if losses != [] then Sum(losses) / |losses| as real else 0.0,
      if profits != [] then SeqMax(profits) else 0.0,
      if losses != [] then SeqMin(losses) else 0.0,
      if losses != [] then Some(Sum(profits) / Abs(Sum(losses))) else None)
  }

  /** `analyzeTrades()` over a trade history: `None` (the source's `{}`) when no position
      was ever closed. */
  function Analyze(h: seq<Sim.TradeRecord>): (r: Option<TradeAnalysis>)
    ensures r.None? <==> Sim.CountExits(h) == 0
    ensures r.Some? ==> r.value.totalTrades == Sim.CountExits(h)
  {
    var pnls := ExitPnLs(h);
    if pnls == [] then None else Some(AnalysisOf(pnls))
  }

  /** No P&L is both a win and a loss. */
  lemma {:induction false} PnLCounts(xs: seq<real>)
    ensures |PositivePnLs(xs)| + |NegativePnLs(xs)| <= |xs|
    decreases |xs|
  {
    if xs != [] {
      PnLCounts(xs[..|xs| - 1]);
    }
  }

  /** The wins the analysis counts are the wins the simulation counts. */
  lemma {:induction false} WinsMatch(h: seq<Sim.TradeRecord>)
    ensures |PositivePnLs(ExitPnLs(h))| == Sim.CountWins(h)
    decreases |h|
  {
    if h != [] {
      var init := h[..|h| - 1];
      WinsMatch(init);
      var xs := ExitPnLs(init);
      if h[|h| - 1].Exit? {
        var ys := xs + [h[|h| - 1].netPnL];
        assert ys[..|ys| - 1] == xs;
      } else {
        assert ExitPnLs(h) == xs;
      }
    }
  }

  /** The analysis agrees with the simulation's own counters, its rates are fractions,
      and its averages lie within the extremes. */
  /** Dividing by a positive count keeps bounds that hold per element. */
  lemma QuotientBounds(total: real, n: real, lo: real, hi: real)
    requires n > 0.0 && n * lo <= total <= n * hi
    ensures lo <= total / n <= hi
  {
    var q := total / n;
    assert (q - hi) * n == total - n * hi && (q - lo) * n == total - n * lo;
  }

  /** A positive total over a positive count is positive; a negative one negative. */
  lemma QuotientSign(total: real, n: real)
    requires n > 0.0
    ensures total > 0.0 ==> total / n > 0.0
    ensures total < 0.0 ==> total / n < 0.0
    ensures total >= 0.0 ==> total / n >= 0.0
  {
    assert total == (total / n) * n;
  }

  /** The mean of positive values is positive and at most any upper bound of them. */
  lemma MeanOfWins(xs: seq<real>, m: real)
    requires xs != [] && forall i :: 0 <= i < |xs| ==> 0.0 < xs[i] <= m
    ensures 0.0 < Sum(xs) / |xs| as real <= m
  {
    var n, total := |xs| as real, Sum(xs);
    SumOfPositives(xs);
    SumBounds(xs, 0.0, m);
    QuotientBounds(total, n, 0.0, m);
    QuotientSign(total, n);
  }

  /** The mean of negative values is negative and at least any lower bound of them. */
  lemma MeanOfLosses(xs: seq<real>, m: real)
    requires xs != [] && forall i :: 0 <= i < |xs| ==> m <= xs[i] < 0.0
    ensures m <= Sum(xs) / |xs| as real < 0.0
  {
    var n, total := |xs| as real, Sum(xs);
    SumOfNegatives(xs);
    SumBounds(xs, m, 0.0);
    QuotientBounds(total, n, m, 0.0);
    QuotientSign(total, n);
  }

  /** The win rate is a fraction and the profit factor is never negative. */
  lemma AnalysisRates(pnls: seq<real>)
    requires pnls != []
    ensures var a := AnalysisOf(pnls);
            0.0 <= a.winRate <= 1.0 && (a.profitFactor.Some? ==> a.profitFactor.value >= 0.0)
  {
    var profits := PositivePnLs(pnls);
    var losses := NegativePnLs(pnls);
    PnLCounts(pnls);
    var n := |pnls| as real;
    Sim.FractionAtMostOne(|profits| as real, n);
    QuotientSign(|profits| as real, n);
    if losses != [] {
      SumNonNegative(profits);
      SumOfNegatives(losses);
      QuotientSign(Sum(profits), Abs(Sum(losses)));
    }
  }

  /** The average win lies between 0 and the largest win; the average loss between the
      largest loss and 0. */
  lemma AnalysisAverages(pnls: seq<real>)
    requires pnls != []
    ensures var a := AnalysisOf(pnls);
            (a.winningTrades > 0 ==> 0.0 < a.avgWin <= a.largestWin)
            && (a.losingTrades > 0 ==> a.largestLoss <= a.avgLoss < 0.0)
  {
    var profits := PositivePnLs(pnls);
    var losses := NegativePnLs(pnls);
    if profits != [] {
      MeanOfWins(profits, SeqMax(profits));
    }
    if losses != [] {
      MeanOfLosses(losses, SeqMin(losses));
    }
  }

  /** On a simulation's portfolio the analysis counts the same exits and wins as the
      simulation's own performance record. */
  lemma AnalysisMatchesPerformance(p: Sim.Portfolio)
    requires Sim.Consistent(p) && Sim.CountExits(p.tradeHistory) > 0
    ensures var a := Analyze(p.tradeHistory).value;
            a.winningTrades == p.performance.winningTrades
            && a.totalTrades == Sim.CountExits(p.tradeHistory)
  {
    WinsMatch(p.tradeHistory);
  }

  // ------------------------------------------------------------ the class

  /** The results `getResults()` answers: the performance recorded at the end of the run,
      the equity curve and the trade analysis. */
  datatype Report = Report(performance: Sim.Performance, equityCurve: seq<real>, tradeAnalysis: Option<TradeAnalysis>)

  class BacktestingEngine {
    const assets: seq<string>
    const days: nat
    const speed: real
    const initialBalance: real
    var isRunning: bool
    var progress: real
    var results: Option<Sim.Performance>
    var simulationEngine: Sim.SimulationEngine?

    ghost predicate Valid()
      reads this, simulationEngine
    {
      0.0 <= progress <= 100.0
      && (simulationEngine != null ==> simulationEngine.Valid())
      && (results.Some? ==> simulationEngine != null)
    }

    /** `new BacktestingEngine(options)`: a missing option takes its default, and a zero
        day count, speed or balance is falsy and takes its default too. */
    constructor (assetsOpt: Option<seq<string>>, daysOpt: Option<nat>, speedOpt: Option<real>, initialOpt: Option<real>)
      ensures Valid()
      ensures assets == (if assetsOpt.Some? then assetsOpt.value else ["bitcoin", "ethereum"])
      ensures days == (if daysOpt.Some? && daysOpt.value != 0 then daysOpt.value else 30)
      ensures speed == (if speedOpt.Some? && speedOpt.value != 0.0 then speedOpt.value else 1.0)
      ensures initialBalance == (if initialOpt.Some? && initialOpt.value != 0.0 then initialOpt.value else 10000.0)
      ensures !isRunning && progress == 0.0 && results.None? && simulationEngine == null
    {
      assets := if assetsOpt.Some? then assetsOpt.value else ["bitcoin", "ethereum"];
      days := if daysOpt.Some? && daysOpt.value != 0 then daysOpt.value else 30;
      speed := if speedOpt.Some? && speedOpt.value != 0.0 then speedOpt.value else 1.0;
      initialBalance := if initialOpt.Some? && initialOpt.value != 0.0 then initialOpt.value else 10000.0;
      isRunning := false;
      progress := 0.0;
      results := None;
      simulationEngine := null;
    }

    /** `runBacktest(options)` over series already fetched (an asset whose fetch failed
        has an empty series).  A fresh simulation is started with the run's balance (the
        engine's when the option is missing), every point of every series is replayed in
        order, and the simulation is stopped; the results are its performance.  Returns
        the number of points processed. */
    method RunBacktest(m: VolatilityEngine.Math, series: seq<(string, seq<real>)>, initialOpt: Option<real>,
                       chain: Chain, sentimentAt: (string, nat) -> Option<Sentiment>) returns (processed: nat)
      requires Valid() && VolatilityEngine.Lawful(m)
      modifies this
      ensures Valid() && isRunning && progress == 100.0
      ensures simulationEngine != null && fresh(simulationEngine)
      ensures var balance := if initialOpt.Some? then initialOpt.value else initialBalance;
              simulationEngine.Settings() == Sim.Config(if balance != 0.0 then balance else 10000.0, 0.001, 0.1)
      ensures var c := simulationEngine.Settings();
              simulationEngine.portfolio
                == Sim.PerformanceMetrics(c, ReplayAll(c, Start(c), SeriesContexts(m, series, sentimentAt), |series|, chain)
                                               .portfolio.(isActive := false))
      ensures results == Some(simulationEngine.portfolio.performance)
      ensures processed == TotalPoints(series)
    {
      isRunning := true;
      progress := 0.0;
      var balance := if initialOpt.Some? then initialOpt.value else initialBalance;
      var sim := new Sim.SimulationEngine(Some(balance), None, None);
      var _ := sim.StartSimulation();
      simulationEngine := sim;
      progress := 10.0;
      processed := ReplayAllSeries(sim, m, series, chain, sentimentAt);
      var _, _ := sim.StopSimulation();
      results := Some(sim.portfolio.performance);
      progress := 100.0;
    }

    /** The outer loop of `runBacktest`: the assets' series one after another. */
    method ReplayAllSeries(sim: Sim.SimulationEngine, m: VolatilityEngine.Math, series: seq<(string, seq<real>)>,
                           chain: Chain, sentimentAt: (string, nat) -> Option<Sentiment>) returns (processed: nat)
      requires Valid() && simulationEngine == sim && VolatilityEngine.Lawful(m) && 10.0 <= progress <= 90.0
      modifies this, sim
      ensures Valid() && simulationEngine == sim && isRunning == old(isRunning) && results == old(results)
      ensures 10.0 <= progress <= 90.0
      ensures SimState(sim.portfolio, sim.marketData)
                == ReplayAll(sim.Settings(), old(SimState(sim.portfolio, sim.marketData)), SeriesContexts(m, series, sentimentAt),
                             |series|, chain)
      ensures processed == TotalPoints(series)
    {
      var total := TotalPoints(series);
      ghost var c, s0 := sim.Settings(), SimState(sim.portfolio, sim.marketData);
      ghost var contexts := SeriesContexts(m, series, sentimentAt);
      processed := 0;
      for k := 0 to |series|
        invariant Valid() && simulationEngine == sim && isRunning == old(isRunning) && results == old(results)
        invariant SimState(sim.portfolio, sim.marketData) == ReplayAll(c, s0, contexts, k, chain)
        invariant processed == TotalPoints(series[..k]) <= total && 10.0 <= progress <= 90.0
      {
        TotalPointsPrefix(series, k);
        assert contexts[k] == Contexts(m, series[k].0, series[k].1, sentimentAt);
        TotalPointsStep(series, k);
        processed, progress := ReplaySeries(sim, m, series[k].0, series[k].1, processed, total, progress, chain, sentimentAt);
      }
      assert series[..|series|] == series;
    }

    /** `stopBacktest()`: clears the running flag and stops the simulation, if any. */
    method StopBacktest()
      requires Valid()
      modifies this, simulationEngine
      ensures Valid() && !isRunning
      ensures progress == old(progress) && results == old(results) && simulationEngine == old(simulationEngine)
      ensures simulationEngine != null ==>
                simulationEngine.portfolio
                  == Sim.PerformanceMetrics(simulationEngine.Settings(), old(simulationEngine.portfolio).(isActive := false))
    {
      isRunning := false;
      if simulationEngine != null {
        var _, _ := simulationEngine.StopSimulation();
      }
    }

    /** `calculateEquityCurve()`: empty before any run.  The first point carries the
        engine's constructor balance, not the balance the run was given. */
    method CalculateEquityCurve() returns (curve: seq<real>)
      requires Valid()
      ensures simulationEngine == null ==> curve == []
      ensures simulationEngine != null ==> curve == EquityCurve(initialBalance, simulationEngine.portfolio.tradeHistory)
    {
      if simulationEngine == null {
        return [];
      }
      var trades := simulationEngine.portfolio.tradeHistory;
      curve := [initialBalance];
      for i := 0 to |trades|
        invariant curve == EquityCurve(initialBalance, trades[..i])
      {
        assert trades[..i + 1][..i] == trades[..i];
        curve := curve + [trades[i].balance];
      }
      assert trades[..|trades|] == trades;
    }

    /** `analyzeTrades()`: `None` (the source's `{}`) before any run or without exits. */
    function AnalyzeTrades(): (r: Option<TradeAnalysis>)
      reads this, simulationEngine
      ensures simulationEngine == null ==> r.None?
      ensures simulationEngine != null ==> r == Analyze(simulationEngine.portfolio.tradeHistory)
    {
      if simulationEngine == null then None else Analyze(simulationEngine.portfolio.tradeHistory)
    }

    /** `getResults()`: an error before any run has finished. */
    method GetResults() returns (r: Result<Report, string>)
      requires Valid()
      ensures results.None? ==> r == Err("No backtest results available")
      ensures results.Some? ==>
                r == Ok(Report(results.value,
                               EquityCurve(initialBalance, simulationEngine.portfolio.tradeHistory),
                               Analyze(simulationEngine.portfolio.tradeHistory)))
    {
      if results.None? {
        return Err("No backtest results available");
      }
      var curve := CalculateEquityCurve();
      r := Ok(Report(results.value, curve, AnalyzeTrades()));
    }
  }

  /** The simulation a backtest leaves behind has never closed a position, so the trade
      analysis of a finished run is always empty and its balance never negative. */
  lemma BacktestClosesNothing(c: Sim.Config, m: VolatilityEngine.Math, series: seq<(string, seq<real>)>,
                              chain: Chain, sentimentAt: (string, nat) -> Option<Sentiment>)
    requires c.initialBalance > 0.0
    ensures var p := ReplayAll(c, Start(c), SeriesContexts(m, series, sentimentAt), |series|, chain).portfolio;
            var q := Sim.PerformanceMetrics(c, p.(isActive := false));
            Analyze(q.tradeHistory).None? && q.balance >= 0.0
  {
    ReplayAllOpensOnly(c, Start(c), SeriesContexts(m, series, sentimentAt), |series|, chain);
  }

  /** The inner loop of `runBacktest`: every point of one asset's series, in order,
      counting the points processed and recomputing the progress after each one. */
  method ReplaySeries(sim: Sim.SimulationEngine, m: VolatilityEngine.Math, asset: string, data: seq<real>,
                      processed0: nat, total: nat, progress0: real, chain: Chain,
                      sentimentAt: (string, nat) -> Option<Sentiment>) returns (processed: nat, progress: real)
    requires sim.Valid() && VolatilityEngine.Lawful(m)
    requires processed0 + |data| <= total && 10.0 <= progress0 <= 90.0
    modifies sim
    ensures sim.Valid() && 10.0 <= progress <= 90.0
    ensures SimState(sim.portfolio, sim.marketData)
              == ReplayAsset(sim.Settings(), old(SimState(sim.portfolio, sim.marketData)), Contexts(m, asset, data, sentimentAt),
                             |data|, chain)
    ensures processed == processed0 + |data|
  {
    processed, progress := processed0, progress0;
    ghost var c, s0 := sim.Settings(), SimState(sim.portfolio, sim.marketData);
    ghost var contexts := Contexts(m, asset, data, sentimentAt);
    for i := 0 to |data|
      invariant sim.Valid()
      invariant SimState(sim.portfolio, sim.marketData) == ReplayAsset(c, s0, contexts, i, chain)
      invariant processed == processed0 + i && 10.0 <= progress <= 90.0
    {
      assert contexts[i] == ContextAt(m, asset, data, i, sentimentAt);
      ReplayPoint(sim, m, asset, data, i, chain, sentimentAt);
      processed := processed + 1;
      progress := ProgressAt(processed, total);
    }
  }

  /** `createMarketContext`'s point, handed to the chain, then executed. */
  method ReplayPoint(sim: Sim.SimulationEngine, m: VolatilityEngine.Math, asset: string, data: seq<real>, i: nat,
                     chain: Chain, sentimentAt: (string, nat) -> Option<Sentiment>)
    requires sim.Valid() && i < |data| && VolatilityEngine.Lawful(m)
    modifies sim
    ensures sim.Valid()
    ensures SimState(sim.portfolio, sim.marketData)
              == PointStep(sim.Settings(), old(SimState(sim.portfolio, sim.marketData)),
                           chain(ContextAt(m, asset, data, i, sentimentAt), Sim.Status(old(sim.portfolio))), data[i])
  {
    var context := CreateMarketContext(m, asset, data, i, sentimentAt);
    var accountBalance := sim.GetPortfolioStatus();
    var trade := chain(context, accountBalance);
    if trade.Some? {
      var executed := sim.ExecuteTrade(trade.value);
      if executed.Ok? {
        sim.UpdateMarketData(Sim.PositionKey(trade.value.tradeType, trade.value.strike), data[i]);
      }
    }
  }
}

/** The chart indicators of client/src/utils/indicators.js (`TechnicalIndicators`): every
    series indicator answers one entry per input price, null where it is not defined yet.
    Each method builds its answer with the source's loops and is proved equal, entry by
    entry, to a specification function; lemmas relate those functions to the server's
    scalar indicators and state the bounds the charts rely on. */
module TechnicalIndicators {
  import opened Common
  import VolatilityEngine
  import Server = BacktestingEngine

  /** `new Array(n).fill(null)`. */
  function Nulls<T>(n: nat): (r: seq<Option<T>>)
    ensures |r| == n && forall i :: 0 <= i < n ==> r[i].None?
  {
    seq(n, i => None)
  }

  // ------------------------------------------------------------------- SMA

  /** Entry `i` of `calculateSMA(prices, period)`: null before the first full window, then
      the mean of the `period` prices ending at `i`. */
  function SmaAt(prices: seq<real>, period: nat, i: nat): (r: Option<real>)
    requires period >= 1 && i < |prices|
    ensures r.None? <==> i + 1 < period
  {
    if i + 1 < period then None else Some(Sum(prices[i + 1 - period..i + 1]) / period as real)
  }

  /** `calculateSMA(prices, period)`. */
  method CalculateSma(prices: seq<real>, period: nat) returns (sma: seq<Option<real>>)
    requires period >= 1
    ensures |sma| == |prices|
    ensures forall i :: 0 <= i < |prices| ==> sma[i] == SmaAt(prices, period, i)
  {
    if |prices| < period {
      return Nulls(|prices|);
    }
    sma := [];
    for i := 0 to |prices|
      invariant |sma| == i
      invariant forall j :: 0 <= j < i ==> sma[j] == SmaAt(prices, period, j)
    {
      if i < period - 1 {
        sma := sma + [None];
      } else {
        var sum := Sum(prices[i - period + 1..i + 1]);
        sma := sma + [Some(sum / period as real)];
      }
    }
  }

  /** The chart's last SMA is the server's scalar SMA of the same prices. */
  lemma SmaMatchesServer(prices: seq<real>, period: nat)
    requires period >= 1 && prices != []
    ensures SmaAt(prices, period, |prices| - 1) == Server.Sma(prices, period)
  {
    if |prices| >= period {
      var w := prices[|prices| - period..];
      assert LastN(prices, period) == w == prices[|prices| - period..|prices|];
      var v := Server.Sma(prices, period).value;
      assert v * period as real == Sum(w);
      assert v == Sum(w) / period as real;
    }
  }

  /** Each SMA lies between the least and the greatest price of its window. */
  lemma SmaWithinWindow(prices: seq<real>, period: nat, i: nat, lo: real, hi: real)
    requires period >= 1 && period - 1 <= i < |prices|
    requires forall j :: i + 1 - period <= j <= i ==> lo <= prices[j] <= hi
    ensures lo <= SmaAt(prices, period, i).value <= hi
  {
    var w := prices[i + 1 - period..i + 1];
    assert forall j :: 0 <= j < |w| ==> w[j] == prices[i + 1 - period + j];
    Server.MeanBetween(w, lo, hi);
  }

  // ------------------------------------------------------------------- EMA

  /** The EMA at index `i >= period - 1`: the mean of the first `period` prices at
      `period - 1`, then one smoothing step per price. */
  function EmaValue(prices: seq<real>, period: nat, i: nat): real
    requires period >= 1 && period - 1 <= i < |prices|
    decreases i
  {
    if i == period - 1 then Sum(prices[..period]) / period as real
    else Server.EmaStep(EmaValue(prices, period, i - 1), prices[i], period)
  }

  /** Entry `i` of `calculateEMA(prices, period)`: all null when there are fewer than
      `period` prices, otherwise `period - 1` leading nulls and then the EMA. */
  function EmaAt(prices: seq<real>, period: nat, i: nat): (r: Option<real>)
    requires period >= 1 && i < |prices|
    ensures r.None? <==> |prices| < period || i + 1 < period
  {
    if |prices| < period || i + 1 < period then None else Some(EmaValue(prices, period, i))
  }

  /** `calculateEMA(prices, period)`: the seed and the recurrence are pushed, then the
      list is padded at the front with nulls until it is as long as the prices. */
  method CalculateEma(prices: seq<real>, period: nat) returns (ema: seq<Option<real>>)
    requires period >= 1
    ensures |ema| == |prices|
    ensures forall i :: 0 <= i < |prices| ==> ema[i] == EmaAt(prices, period, i)
  {
    if |prices| < period {
      return Nulls(|prices|);
    }
    var multiplier := Server.Multiplier(period);
    ema := [Some(Sum(prices[..period]) / period as real)];
    for i := period to |prices|
      invariant |ema| == i - period + 1
      invariant forall j :: 0 <= j < |ema| ==> ema[j] == EmaAt(prices, period, j + period - 1)
    {
      var previous := ema[|ema| - 1].value;
      var current := (prices[i] - previous) * multiplier + previous;
      assert current == EmaValue(prices, period, i);
      ema := ema + [Some(current)];
    }
    while |ema| < |prices|
      invariant |prices| - |ema| <= period - 1 && |ema| <= |prices|
      invariant forall j :: 0 <= j < |ema| ==> ema[j] == EmaAt(prices, period, j + |prices| - |ema|)
      decreases |prices| - |ema|
    {
      ema := [None] + ema;
    }
  }

  /** `EmaValue` is the server's fold of the smoothing step over the prices after the seed. */
  lemma {:induction false} EmaValueIsFold(prices: seq<real>, period: nat, i: nat)
    requires period >= 1 && period - 1 <= i < |prices|
    ensures EmaValue(prices, period, i)
            == Server.EmaFold(Sum(prices[..period]) / period as real, prices[period..i + 1], period)
    decreases i
  {
    var seed := Sum(prices[..period]) / period as real;
    if i == period - 1 {
      assert prices[period..i + 1] == [];
    } else {
      EmaValueIsFold(prices, period, i - 1);
      var xs := prices[period..i + 1];
      assert xs[..|xs| - 1] == prices[period..i];
    }
  }

  /** The chart's last EMA is the server's scalar EMA of the same prices. */
  lemma EmaMatchesServer(prices: seq<real>, period: nat)
    requires period >= 1 && prices != []
    ensures EmaAt(prices, period, |prices| - 1) == Server.Ema(prices, period)
  {
    if |prices| >= period {
      EmaValueIsFold(prices, period, |prices| - 1);
      assert prices[period..|prices|] == prices[period..];
    }
  }

  // ------------------------------------------------------------------- RSI

  /** One smoothing step: `(average * (period - 1) + step) / period`. */
  function Smooth(average: real, step: real, period: nat): (r: real)
    requires period >= 1 && average >= 0.0 && step >= 0.0
    ensures r >= 0.0
  {
    Server.ProductNonNegative(average, (period - 1) as real);
    Server.QuotientSign(average * (period - 1) as real + step, period as real);
    (average * (period - 1) as real + step) / period as real
  }

  /** Wilder's smoothed average of the non-negative steps `xs` at RSI index `i`: the plain
      mean of the first `period` steps at `i = period`, then one smoothing step with
      `xs[i - 1]` per index. */
  function SmoothedAverage(xs: seq<real>, period: nat, i: nat): (r: real)
    requires period >= 1 && period <= i <= |xs|
    requires forall j :: 0 <= j < |xs| ==> xs[j] >= 0.0
    ensures r >= 0.0
    decreases i
  {
    if i == period then
      var first := xs[..period];
      assert forall j :: 0 <= j < |first| ==> first[j] == xs[j];
      SumNonNegative(first);
      Server.QuotientSign(Sum(first), period as real);
      Sum(first) / period as real
    else Smooth(SmoothedAverage(xs, period, i - 1), xs[i - 1], period)
  }

  /** Smoothing keeps the average between the least and the greatest of the previous
      average and the new step. */
  lemma SmoothBetween(average: real, step: real, period: nat)
    requires period >= 1 && average >= 0.0 && step >= 0.0
    ensures MinReal(average, step) <= Smooth(average, step, period) <= MaxReal(average, step)
  {
    var n := period as real;
    var lo, hi := MinReal(average, step), MaxReal(average, step);
    assert n * lo <= average * (n - 1.0) + step <= n * hi by {
      assert average * (n - 1.0) >= lo * (n - 1.0) && average * (n - 1.0) <= hi * (n - 1.0) by {
        Server.ProductNonNegative(average - lo, n - 1.0);
        Server.ProductNonNegative(hi - average, n - 1.0);
      }
    }
    Server.QuotientBounds(average * (n - 1.0) + step, n, lo, hi);
  }

  /** `100 - 100 / (1 + rs)` with `rs = avgLoss === 0 ? 100 : avgGain / avgLoss`: always
      below 100, and exactly 10000/101 (about 99.01) when nothing was lost. */
  function RsiOfAverages(avgGain: real, avgLoss: real): (r: real)
    requires avgGain >= 0.0 && avgLoss >= 0.0
    ensures 0.0 <= r < 100.0
    ensures avgLoss == 0.0 ==> r == 10000.0 / 101.0
    ensures avgGain == 0.0 && avgLoss > 0.0 ==> r == 0.0
  {
    var rs := if avgLoss == 0.0 then 100.0 else avgGain / avgLoss;
    Server.QuotientSign(avgGain, if avgLoss == 0.0 then 1.0 else avgLoss);
    assert 0.0 < 100.0 / (1.0 + rs) <= 100.0;
    100.0 - 100.0 / (1.0 + rs)
  }

  /** Entry `i` of `calculateRSI(prices, period)`: all null with fewer than `period + 1`
      prices, otherwise `period` leading nulls and then the index of the smoothed averages. */
  function RsiAt(prices: seq<real>, period: nat, i: nat): (r: Option<real>)
    requires period >= 1 && i < |prices|
    ensures r.None? <==> |prices| < period + 1 || i < period
    ensures r.Some? ==> 0.0 <= r.value < 100.0
  {
    if |prices| < period + 1 || i < period then None
    else Some(RsiOfAverages(SmoothedAverage(Server.Gains(prices), period, i),
                            SmoothedAverage(Server.Losses(prices), period, i)))
  }

  /** `calculateRSI(prices, period)`: one pass for the steps, then one pass that smooths
      the averages from index `period + 1` on. */
  method CalculateRsi(prices: seq<real>, period: nat) returns (rsi: seq<Option<real>>)
    requires period >= 1
    ensures |rsi| == |prices|
    ensures forall i :: 0 <= i < |prices| ==> rsi[i] == RsiAt(prices, period, i)
  {
    if |prices| < period + 1 {
      return Nulls(|prices|);
    }
    var gains, losses := PriceSteps(prices);
    var avgGain := Sum(gains[..period]) / period as real;
    var avgLoss := Sum(losses[..period]) / period as real;
    rsi := [];
    for i := 0 to |prices|
      invariant |rsi| == i
      invariant forall j :: 0 <= j < i ==> rsi[j] == RsiAt(prices, period, j)
      invariant avgGain == SmoothedAverage(gains, period, if i <= period then period else i - 1)
      invariant avgLoss == SmoothedAverage(losses, period, if i <= period then period else i - 1)
    {
      if i < period {
        rsi := rsi + [None];
      } else if i == period {
        rsi := rsi + [Some(RsiOfAverages(avgGain, avgLoss))];
      } else {
        avgGain := Smooth(avgGain, gains[i - 1], period);
        avgLoss := Smooth(avgLoss, losses[i - 1], period);
        rsi := rsi + [Some(RsiOfAverages(avgGain, avgLoss))];
      }
    }
  }

  /** The first loop of `calculateRSI`: the gain and the loss of every step. */
  method PriceSteps(prices: seq<real>) returns (gains: seq<real>, losses: seq<real>)
    ensures gains == Server.Gains(prices) && losses == Server.Losses(prices)
  {
    gains, losses := [], [];
    if prices == [] {
      return;
    }
    for i := 1 to |prices|
      invariant gains == Server.Gains(prices[..i]) && losses == Server.Losses(prices[..i])
    {
      var change := prices[i] - prices[i - 1];
      assert prices[..i + 1][..i] == prices[..i];
      gains := gains + [if change > 0.0 then change else 0.0];
      losses := losses + [if change < 0.0 then Abs(change) else 0.0];
    }
    assert prices[..|prices|] == prices;
  }

  /** The steps of a prefix are a prefix of the steps. */
  lemma {:induction false} StepsPrefix(prices: seq<real>, n: nat)
    requires 1 <= n <= |prices|
    ensures Server.Gains(prices[..n]) == Server.Gains(prices)[..n - 1]
    ensures Server.Losses(prices[..n]) == Server.Losses(prices)[..n - 1]
    decreases |prices| - n
  {
    if n < |prices| {
      StepsPrefix(prices, n + 1);
      var p := prices[..n + 1];
      assert p[..|p| - 1] == prices[..n];
    } else {
      assert prices[..n] == prices;
    }
  }

  /** The chart's first RSI, at index `period`, averages the same steps as the server's
      scalar RSI of the first `period + 1` prices, and the two agree whenever the window
      holds a fall.  Without a fall the server answers 100 but the chart about 99.01. */
  lemma FirstRsiMatchesServer(prices: seq<real>, period: nat)
    requires period >= 1 && |prices| >= period + 1
    ensures var window := prices[..period + 1];
            var chart := RsiAt(prices, period, period).value;
            var server := Server.Rsi(window, period).value;
            (chart == server <==> server != 100.0)
            && (server == 100.0 ==> chart == 10000.0 / 101.0)
  {
    var window := prices[..period + 1];
    StepsPrefix(prices, period + 1);
    var g, l := Server.Gains(window), Server.Losses(window);
    assert LastN(g, period) == g == Server.Gains(prices)[..period];
    assert LastN(l, period) == l == Server.Losses(prices)[..period];
  }

  // ------------------------------------------------------------------ MACD

  /** One entry of `calculateMACD`: `{ macd, signal, histogram }`. */
  datatype MacdPoint = MacdPoint(macd: Option<real>, signal: Option<real>, histogram: Option<real>)

  const NoMacd := MacdPoint(None, None, None)

  /** Entry `i` of the MACD line: the fast EMA minus the slow EMA where both exist. */
  function MacdLineAt(prices: seq<real>, fast: nat, slow: nat, i: nat): Option<real>
    requires fast >= 1 && slow >= 1 && i < |prices|
  {
    var f, s := EmaAt(prices, fast, i), EmaAt(prices, slow, i);
    if f.None? || s.None? then None else Some(f.value - s.value)
  }

  function MacdLine(prices: seq<real>, fast: nat, slow: nat): (line: seq<Option<real>>)
    requires fast >= 1 && slow >= 1
    ensures |line| == |prices|
  {
    seq(|prices|, i requires 0 <= i < |prices| => MacdLineAt(prices, fast, slow, i))
  }

  /** `xs.filter(v => v !== null)`, unwrapped. */
  function Present(xs: seq<Option<real>>): (r: seq<real>)
    ensures |r| <= |xs|
  {
    if xs == [] then [] else (if xs[0].Some? then [xs[0].value] else []) + Present(xs[1..])
  }

  /** Dropping the nulls of a list that is null exactly before position `k` leaves the
      values from `k` on, in order. */
  lemma {:induction false} PresentAfterNulls(xs: seq<Option<real>>, k: nat)
    requires k <= |xs|
    requires forall i :: 0 <= i < k ==> xs[i].None?
    requires forall i :: k <= i < |xs| ==> xs[i].Some?
    ensures |Present(xs)| == |xs| - k
    ensures forall j :: 0 <= j < |xs| - k ==> Present(xs)[j] == xs[k + j].value
  {
    assert xs == xs[..k] + xs[k..];
    PresentSkipsNulls(xs[..k], xs[k..]);
    PresentOfValues(xs[k..]);
  }

  lemma {:induction false} PresentSkipsNulls(nulls: seq<Option<real>>, ys: seq<Option<real>>)
    requires forall i :: 0 <= i < |nulls| ==> nulls[i].None?
    ensures Present(nulls + ys) == Present(ys)
    decreases |nulls|
  {
    if nulls != [] {
      assert (nulls + ys)[0] == nulls[0] && (nulls + ys)[1..] == nulls[1..] + ys;
      PresentSkipsNulls(nulls[1..], ys);
    } else {
      assert nulls + ys == ys;
    }
  }

  lemma {:induction false} PresentOfValues(ys: seq<Option<real>>)
    requires forall i :: 0 <= i < |ys| ==> ys[i].Some?
    ensures |Present(ys)| == |ys|
    ensures forall j :: 0 <= j < |ys| ==> Present(ys)[j] == ys[j].value
    decreases |ys|
  {
    if ys != [] {
      PresentOfValues(ys[1..]);
    }
  }



  /** Entry `i` of the signal line: the EMA of the MACD values, padded at the front with
      nulls to the length of the prices. */
  function SignalAt(prices: seq<real>, fast: nat, slow: nat, signal: nat, i: nat): Option<real>
    requires fast >= 1 && slow >= 1 && signal >= 1 && i < |prices|
  {
    var line := Present(MacdLine(prices, fast, slow));
    var pad := |prices| - |line|;
    if i < pad then None else EmaAt(line, signal, i - pad)
  }

  /** Entry `i` of `calculateMACD(prices, fast, slow, signal)`: all null with fewer than
      `slow` prices; the histogram exists exactly where both lines do and is their gap. */
  function MacdAt(prices: seq<real>, fast: nat, slow: nat, signal: nat, i: nat): (r: MacdPoint)
    requires fast >= 1 && slow >= 1 && signal >= 1 && i < |prices|
    ensures |prices| < slow ==> r == NoMacd
    ensures r.histogram.Some? <==> r.macd.Some? && r.signal.Some?
    ensures r.histogram.Some? ==> r.histogram.value == r.macd.value - r.signal.value
  {
    if |prices| < slow then NoMacd
    else
      var macd, sig := MacdLineAt(prices, fast, slow, i), SignalAt(prices, fast, slow, signal, i);
      MacdPoint(macd, sig, if macd.Some? && sig.Some? then Some(macd.value - sig.value) else None)
  }

  /** With the fast period no longer than the slow one, the MACD line starts at index
      `slow - 1`, where it is the gap between the two EMAs, and the signal line
      `signal - 1` entries later, provided there are that many prices. */
  lemma MacdAlignment(prices: seq<real>, fast: nat, slow: nat, signal: nat, i: nat)
    requires 1 <= fast <= slow <= |prices| && signal >= 1 && i < |prices|
    ensures MacdAt(prices, fast, slow, signal, i).macd.Some? <==> i >= slow - 1
    ensures MacdAt(prices, fast, slow, signal, i).macd.Some? ==>
              MacdAt(prices, fast, slow, signal, i).macd.value
              == EmaValue(prices, fast, i) - EmaValue(prices, slow, i)
    ensures MacdAt(prices, fast, slow, signal, i).signal.Some?
            <==> |prices| >= slow + signal - 1 && i >= slow + signal - 2
  {
    var line := MacdLine(prices, fast, slow);
    assert forall j :: 0 <= j < slow - 1 ==> line[j].None?;
    assert forall j :: slow - 1 <= j < |line| ==> line[j].Some?;
    PresentAfterNulls(line, slow - 1);
  }

  /** `calculateMACD(prices, fastPeriod, slowPeriod, signalPeriod)`. */
  method CalculateMacd(prices: seq<real>, fast: nat, slow: nat, signal: nat) returns (result: seq<MacdPoint>)
    requires fast >= 1 && slow >= 1 && signal >= 1
    ensures |result| == |prices|
    ensures forall i :: 0 <= i < |prices| ==> result[i] == MacdAt(prices, fast, slow, signal, i)
  {
    if |prices| < slow {
      return seq(|prices|, _ => NoMacd);
    }
    var fastEma := CalculateEma(prices, fast);
    var slowEma := CalculateEma(prices, slow);
    var macdLine: seq<Option<real>> := [];
    for i := 0 to |prices|
      invariant |macdLine| == i
      invariant forall j :: 0 <= j < i ==> macdLine[j] == MacdLineAt(prices, fast, slow, j)
    {
      if fastEma[i].None? || slowEma[i].None? {
        macdLine := macdLine + [None];
      } else {
        macdLine := macdLine + [Some(fastEma[i].value - slowEma[i].value)];
      }
    }
    assert macdLine == MacdLine(prices, fast, slow);
    var signalLine := CalculateEma(Present(macdLine), signal);
    var paddedSignal := Nulls(|macdLine| - |signalLine|) + signalLine;
    result := [];
    for i := 0 to |macdLine|
      invariant |result| == i
      invariant forall j :: 0 <= j < i ==> result[j] == MacdAt(prices, fast, slow, signal, j)
    {
      var macd := macdLine[i];
      var sig := paddedSignal[i];
      assert sig == SignalAt(prices, fast, slow, signal, i);
      var histogram := if macd.Some? && sig.Some? then Some(macd.value - sig.value) else None;
      result := result + [MacdPoint(macd, sig, histogram)];
    }
  }

  // ------------------------------------------------------------ Bollinger

  /** One entry of `calculateBollingerBands`: `{ upper, middle, lower }`. */
  datatype Band = Band(upper: Option<real>, middle: Option<real>, lower: Option<real>)

  const NoBand := Band(None, None, None)

  /** `{ upper: mean + stdDev * std, middle: mean, lower: mean - stdDev * std }`. */
  function Spread(mean: real, stdDev: real, std: real): Band
  {
    Band(Some(mean + stdDev * std), Some(mean), Some(mean - stdDev * std))
  }

  /** The variance of the window of `period` prices ending at `i`, around its SMA. */
  function WindowVariance(prices: seq<real>, period: nat, i: nat): real
    requires period >= 1 && period - 1 <= i < |prices|
  {
    var w := prices[i + 1 - period..i + 1];
    Sum(VolatilityEngine.SquaredDeviations(w, SmaAt(prices, period, i).value)) / period as real
  }

  /** Entry `i` of `calculateBollingerBands(prices, period, stdDev)`: the SMA in the
      middle, `stdDev` standard deviations of the window above and below it. */
  function BandAt(m: VolatilityEngine.Math, prices: seq<real>, period: nat, stdDev: real, i: nat): (r: Band)
    requires period >= 1 && i < |prices|
    ensures r.middle == SmaAt(prices, period, i)
    ensures r.upper.Some? <==> r.middle.Some?
    ensures r.lower.Some? <==> r.middle.Some?
    ensures r.middle.Some? ==>
              r.upper.value - r.middle.value == r.middle.value - r.lower.value
              == stdDev * m.sqrt(WindowVariance(prices, period, i))
  {
    if i + 1 < period then NoBand
    else
      Spread(SmaAt(prices, period, i).value, stdDev, m.sqrt(WindowVariance(prices, period, i)))
  }

  /** The band's variance is the population variance of the window. */
  lemma WindowVarianceIsPopulation(prices: seq<real>, period: nat, i: nat)
    requires period >= 1 && period - 1 <= i < |prices|
    ensures WindowVariance(prices, period, i) == VolatilityEngine.PopulationVariance(prices[i + 1 - period..i + 1])
  {
  }

  /** With a non-negative multiplier the bands are ordered: lower, middle, upper. */
  lemma BandsOrdered(m: VolatilityEngine.Math, prices: seq<real>, period: nat, stdDev: real, i: nat)
    requires VolatilityEngine.Lawful(m) && stdDev >= 0.0
    requires period >= 1 && period - 1 <= i < |prices|
    ensures var b := BandAt(m, prices, period, stdDev, i);
            b.lower.value <= b.middle.value <= b.upper.value
  {
    WindowVarianceIsPopulation(prices, period, i);
    VolatilityEngine.VarianceNonNegative(prices[i + 1 - period..i + 1]);
    Server.ProductNonNegative(stdDev, m.sqrt(WindowVariance(prices, period, i)));
  }

  /** A window of equal prices collapses the three bands onto that price. */
  lemma FlatWindowCollapsesBands(m: VolatilityEngine.Math, prices: seq<real>, period: nat, stdDev: real, i: nat, c: real)
    requires VolatilityEngine.Lawful(m)
    requires period >= 1 && period - 1 <= i < |prices|
    requires forall j :: i + 1 - period <= j <= i ==> prices[j] == c
    ensures BandAt(m, prices, period, stdDev, i) == Band(Some(c), Some(c), Some(c))
  {
    FlatWindowMoments(prices, period, i, c);
    assert m.sqrt(0.0) == 0.0;
  }

  /** A window of equal prices has that price as its SMA and no variance. */
  lemma FlatWindowMoments(prices: seq<real>, period: nat, i: nat, c: real)
    requires period >= 1 && period - 1 <= i < |prices|
    requires forall j :: i + 1 - period <= j <= i ==> prices[j] == c
    ensures SmaAt(prices, period, i) == Some(c) && WindowVariance(prices, period, i) == 0.0
  {
    var w := prices[i + 1 - period..i + 1];
    forall j | 0 <= j < |w|
      ensures w[j] == c
    {
      assert w[j] == prices[i + 1 - period + j];
    }
    ConstantMean(w, c);
    ConstantDeviations(w, c);
  }

  lemma ConstantMean(w: seq<real>, c: real)
    requires w != [] && forall j :: 0 <= j < |w| ==> w[j] == c
    ensures Sum(w) / |w| as real == c
  {
    VolatilityEngine.SumOfConstant(w, c);
  }

  lemma ConstantDeviations(w: seq<real>, c: real)
    requires forall j :: 0 <= j < |w| ==> w[j] == c
    ensures Sum(VolatilityEngine.SquaredDeviations(w, c)) == 0.0
  {
    var d := VolatilityEngine.SquaredDeviations(w, c);
    forall j | 0 <= j < |d|
      ensures d[j] == 0.0
    {
      assert d[j] == (w[j] - c) * (w[j] - c);
      assert w[j] - c == 0.0;
    }
    VolatilityEngine.SumOfConstant(d, 0.0);
  }

  /** `calculateBollingerBands(prices, period, stdDev)`. */
  method CalculateBollingerBands(m: VolatilityEngine.Math, prices: seq<real>, period: nat, stdDev: real)
    returns (bands: seq<Band>)
    requires period >= 1
    ensures |bands| == |prices|
    ensures forall i :: 0 <= i < |prices| ==> bands[i] == BandAt(m, prices, period, stdDev, i)
  {
    if |prices| < period {
      return seq(|prices|, _ => NoBand);
    }
    var sma := CalculateSma(prices, period);
    bands := [];
    for i := 0 to |prices|
      invariant |bands| == i
      invariant forall j :: 0 <= j < i ==> bands[j] == BandAt(m, prices, period, stdDev, j)
    {
      if i < period - 1 {
        bands := bands + [NoBand];
      } else {
        var slice := prices[i - period + 1..i + 1];
        var mean := sma[i].value;
        var variance := Sum(VolatilityEngine.SquaredDeviations(slice, mean)) / period as real;
        assert slice == prices[i + 1 - period..i + 1] && mean == SmaAt(prices, period, i).value;
        assert variance == WindowVariance(prices, period, i);
        var std := m.sqrt(variance);
        bands := bands + [Spread(mean, stdDev, std)];
      }
    }
  }

  // ------------------------------------------------------- volume profile

  /** A candle as `calculateVolumeProfile` reads it. `candle.volume || 0` turns a
      missing, zero or NaN volume into 0, so only a present volume is kept. */
  datatype Candle = Candle(high: real, low: real, volume: Option<real>)

  function VolumeOf(c: Candle): real
  {
    if c.volume.Some? then c.volume.value else 0.0
  }

  /** `Math.min` over every high and low. */
  function LowestPrice(candles: seq<Candle>): (r: real)
    requires candles != []
    ensures forall i :: 0 <= i < |candles| ==> r <= candles[i].low && r <= candles[i].high
    decreases |candles|
  {
    var c := candles[|candles| - 1];
    if |candles| == 1 then MinReal(c.high, c.low)
    else MinReal(LowestPrice(candles[..|candles| - 1]), MinReal(c.high, c.low))
  }

  /** `Math.max` over every high and low. */
  function HighestPrice(candles: seq<Candle>): (r: real)
    requires candles != []
    ensures forall i :: 0 <= i < |candles| ==> candles[i].low <= r && candles[i].high <= r
    decreases |candles|
  {
    var c := candles[|candles| - 1];
    if |candles| == 1 then MaxReal(c.high, c.low)
    else MaxReal(HighestPrice(candles[..|candles| - 1]), MaxReal(c.high, c.low))
  }

  /** One entry of the profile: `{ price, volume }`. */
  datatype Level = Level(price: real, volume: real)

  /** The price bins of a profile: `bins` bins of width `size` upwards from `lowest`. */
  datatype Grid = Grid(lowest: real, size: real, bins: nat)

  /** `minPrice + bin * binSize`. */
  function BinStart(g: Grid, b: int): real
  {
    g.lowest + b as real * g.size
  }

  /** `Math.floor((price - minPrice) / binSize)`. */
  function BinOf(g: Grid, price: real): int
    requires g.size > 0.0
  {
    ((price - g.lowest) / g.size).Floor
  }

  /** How much of bin `b` the candle's range covers. */
  function Overlap(g: Grid, c: Candle, b: int): (r: real)
    ensures r >= 0.0
  {
    MaxReal(0.0, MinReal(BinStart(g, b) + g.size, c.high) - MaxReal(BinStart(g, b), c.low))
  }

  /** Where a flat candle's volume goes. `AsWritten` is what `calculateVolumeProfile`
      does: the bin of its price, and the volume is added only when that bin exists, so
      a flat candle at the highest price, whose bin is one past the last, adds nothing.
      `Clamped` is the evidently intended rule: that bin clamped to the last one, under
      which no volume is lost. */
  datatype FlatRule = AsWritten | Clamped

  /** The bin a flat candle's volume goes to under `rule`. */
  function FlatBin(g: Grid, c: Candle, rule: FlatRule): int
    requires g.size > 0.0
  {
    if rule == Clamped then Min(g.bins - 1, BinOf(g, c.high)) else BinOf(g, c.high)
  }

  /** The volume one candle adds to bin `b`: a flat candle adds all of it to its bin,
      when that bin exists; any other candle spreads it over its range, each bin from
      the one holding its low to the one holding its high (within the profile) taking
      its share of the overlap. */
  function Contribution(g: Grid, c: Candle, b: int, rule: FlatRule): real
    requires g.size > 0.0
  {
    if c.high - c.low == 0.0 then
      (if b == FlatBin(g, c, rule) && 0 <= b < g.bins then VolumeOf(c) else 0.0)
    else if Max(0, BinOf(g, c.low)) <= b <= Min(g.bins - 1, BinOf(g, c.high)) then
      Share(VolumeOf(c) / (c.high - c.low), Overlap(g, c, b))
    else 0.0
  }

  /** `volumePerPrice * overlap`. */
  function Share(volumePerPrice: real, overlap: real): real
  {
    volumePerPrice * overlap
  }

  /** The volume of bin `b`: the contributions of every candle. */
  function BinVolume(candles: seq<Candle>, g: Grid, b: int, rule: FlatRule): real
    requires g.size > 0.0
    decreases |candles|
  {
    if candles == [] then 0.0
    else BinVolume(candles[..|candles| - 1], g, b, rule) + Contribution(g, candles[|candles| - 1], b, rule)
  }

  /** The bins of the profile of `candles`, or `None` when the profile is empty: no
      candles, no price range, or no bins. */
  function ProfileGrid(candles: seq<Candle>, bins: nat): (g: Option<Grid>)
    ensures g.Some? ==> candles != [] && g.value.size > 0.0 && g.value.bins == bins >= 1
    ensures g.Some? ==> g.value.lowest == LowestPrice(candles)
                        && BinStart(g.value, bins) == HighestPrice(candles)
  {
    if candles == [] then None
    else
      var lowest, highest := LowestPrice(candles), HighestPrice(candles);
      if highest - lowest == 0.0 || bins == 0 then None
      else
        assert lowest <= candles[0].low <= highest;
        Server.QuotientSign(highest - lowest, bins as real);
        var g := Grid(lowest, (highest - lowest) / bins as real, bins);
        assert bins as real * g.size == highest - lowest;
        assert BinStart(g, bins) == highest;
        Some(g)
  }

  /** `calculateVolumeProfile(candles, bins)` with flat candles placed by `rule`
      (`AsWritten` is the program): empty without candles, without a price range or
      without bins; otherwise one level per bin, at the bin's centre. */
  function VolumeProfile(candles: seq<Candle>, bins: nat, rule: FlatRule): (r: seq<Level>)
    ensures r == [] <==> candles == [] || HighestPrice(candles) == LowestPrice(candles) || bins == 0
    ensures r != [] ==>
              var g := ProfileGrid(candles, bins).value;
              |r| == bins
              && forall i :: 0 <= i < bins ==> r[i].price == LowestPrice(candles) + (i as real + 0.5) * g.size
  {
    match ProfileGrid(candles, bins)
    case None => []
    case Some(g) =>
      var r := seq(bins, i requires 0 <= i < bins => Level(BinStart(g, i) + g.size / 2.0, BinVolume(candles, g, i, rule)));
      forall i | 0 <= i < bins
        ensures r[i].price == g.lowest + (i as real + 0.5) * g.size
      {
        BinCentre(g, i);
      }
      r
  }

  /** The centre of bin `i` sits half a bin above its start. */
  lemma BinCentre(g: Grid, i: nat)
    ensures BinStart(g, i) + g.size / 2.0 == g.lowest + (i as real + 0.5) * g.size
  {
  }

  /** `calculateVolumeProfile(candles, bins)`: the volumes live in an array that each
      candle adds into, bin by bin. */
  method CalculateVolumeProfile(candles: seq<Candle>, bins: nat) returns (profile: seq<Level>)
    ensures profile == VolumeProfile(candles, bins, AsWritten)
  {
    if candles == [] {
      return [];
    }
    var minPrice := LowestPrice(candles);
    var maxPrice := HighestPrice(candles);
    var priceRange := maxPrice - minPrice;
    if priceRange == 0.0 {
      return [];
    }
    if bins == 0 {
      // `binSize` is Infinity and there is no bin to fill.
      return [];
    }
    var g := ProfileGrid(candles, bins).value;
    assert g.size == priceRange / bins as real;
    var volumes := new real[bins](_ => 0.0);
    for k := 0 to |candles|
      invariant forall b :: 0 <= b < bins ==> volumes[b] == BinVolume(candles[..k], g, b, AsWritten)
    {
      assert candles[..k + 1][..k] == candles[..k];
      DistributeCandle(volumes, g, candles[k]);
    }
    assert candles[..|candles|] == candles;
    var vs := volumes[..];
    profile := seq(bins, i requires 0 <= i < bins => Level(BinStart(g, i) + g.size / 2.0, vs[i]));
  }

  /** The `candles.forEach` body: adds the candle's contribution to every bin. */
  method DistributeCandle(volumes: array<real>, g: Grid, c: Candle)
    requires g.size > 0.0 && volumes.Length == g.bins
    modifies volumes
    ensures forall b :: 0 <= b < volumes.Length ==> volumes[b] == old(volumes[b]) + Contribution(g, c, b, AsWritten)
  {
    var candleRange := c.high - c.low;
    if candleRange == 0.0 {
      var binIndex := BinOf(g, c.high);
      if binIndex >= 0 && binIndex < g.bins {
        volumes[binIndex] := volumes[binIndex] + VolumeOf(c);
      }
    } else {
      var volumePerPrice := VolumeOf(c) / candleRange;
      var startBin := BinOf(g, c.low);
      var endBin := BinOf(g, c.high);
      var bin := Max(0, startBin);
      while bin <= Min(g.bins - 1, endBin)
        invariant Max(0, startBin) <= bin
        invariant forall b :: 0 <= b < volumes.Length ==>
                    volumes[b] == old(volumes[b]) + (if b < bin then Contribution(g, c, b, AsWritten) else 0.0)
        decreases Min(g.bins - 1, endBin) - bin
      {
        var binStart := BinStart(g, bin);
        var binEnd := binStart + g.size;
        var overlapStart := MaxReal(binStart, c.low);
        var overlapEnd := MinReal(binEnd, c.high);
        var overlap := MaxReal(0.0, overlapEnd - overlapStart);
        assert overlap == Overlap(g, c, bin);
        volumes[bin] := volumes[bin] + Share(volumePerPrice, overlap);
        bin := bin + 1;
      }
    }
  }

  /** A candle with a non-negative volume adds a non-negative amount to every bin: a
      candle whose high is below its low overlaps no bin. */
  lemma ContributionNonNegative(g: Grid, c: Candle, b: int, rule: FlatRule)
    requires g.size > 0.0 && VolumeOf(c) >= 0.0
    ensures Contribution(g, c, b, rule) >= 0.0
  {
    var range := c.high - c.low;
    if range > 0.0 {
      Server.QuotientSign(VolumeOf(c), range);
      Server.ProductNonNegative(VolumeOf(c) / range, Overlap(g, c, b));
    } else if range < 0.0 {
      assert Overlap(g, c, b) == 0.0;
    }
  }

  lemma {:induction false} BinVolumeNonNegative(candles: seq<Candle>, g: Grid, b: int, rule: FlatRule)
    requires g.size > 0.0
    requires forall i :: 0 <= i < |candles| ==> VolumeOf(candles[i]) >= 0.0
    ensures BinVolume(candles, g, b, rule) >= 0.0
    decreases |candles|
  {
    if candles != [] {
      BinVolumeNonNegative(candles[..|candles| - 1], g, b, rule);
      ContributionNonNegative(g, candles[|candles| - 1], b, rule);
    }
  }

  /** Candles with non-negative volumes give a profile of non-negative volumes. */
  lemma ProfileVolumesNonNegative(candles: seq<Candle>, bins: nat, rule: FlatRule)
    requires forall i :: 0 <= i < |candles| ==> VolumeOf(candles[i]) >= 0.0
    ensures forall i :: 0 <= i < |VolumeProfile(candles, bins, rule)| ==>
              VolumeProfile(candles, bins, rule)[i].volume >= 0.0
  {
    if ProfileGrid(candles, bins).Some? {
      var g := ProfileGrid(candles, bins).value;
      forall i | 0 <= i < bins
        ensures VolumeProfile(candles, bins, rule)[i].volume >= 0.0
      {
        BinVolumeNonNegative(candles, g, i, rule);
      }
    }
  }

  // Conservation: every candle inside the price range hands all of its volume to the bins,
  // except, as written, a flat candle at the highest price.

  /** A price lies in its own bin: at or above the bin's start, below the next one's. */
  lemma BinOfBounds(g: Grid, price: real)
    requires g.size > 0.0
    ensures BinStart(g, BinOf(g, price)) <= price < BinStart(g, BinOf(g, price) + 1)
  {
    var k := BinOf(g, price);
    QuotientTimesDivisor(price - g.lowest, g.size);
    ScaledFloorBelow(g.lowest, g.size, price, k as real, (price - g.lowest) / g.size);
    ScaledFloorAbove(g.lowest, g.size, price, k as real, (price - g.lowest) / g.size);
    assert BinStart(g, k + 1) == g.lowest + (k as real + 1.0) * g.size;
  }

  lemma QuotientTimesDivisor(x: real, n: real)
    requires n > 0.0
    ensures x / n * n == x
  {
  }

  lemma ProductPositive(a: real, b: real)
    requires a > 0.0 && b > 0.0
    ensures a * b > 0.0
  {
  }

  lemma ProductDistributes(a: real, b: real, c: real)
    ensures (a - b) * c == a * c - b * c
  {
  }

  /** `k <= q` scaled by `size` back to prices, where `q * size` is the price's
      distance above `lowest`. */
  lemma ScaledFloorBelow(lowest: real, size: real, price: real, k: real, q: real)
    requires size > 0.0 && q * size == price - lowest && k <= q
    ensures lowest + k * size <= price
  {
    Server.ProductNonNegative(q - k, size);
    ProductDistributes(q, k, size);
  }

  /** `q < k + 1` scaled the same way. */
  lemma ScaledFloorAbove(lowest: real, size: real, price: real, k: real, q: real)
    requires size > 0.0 && q * size == price - lowest && q < k + 1.0
    ensures price < lowest + (k + 1.0) * size
  {
    ProductPositive(k + 1.0 - q, size);
    ProductDistributes(k + 1.0, q, size);
  }

  lemma BinStartMonotone(g: Grid, a: int, b: int)
    requires g.size > 0.0 && a < b
    ensures BinStart(g, a) < BinStart(g, b)
  {
    assert BinStart(g, b) - BinStart(g, a) == (b - a) as real * g.size;
  }

  /** Bin `b` starts at or below a price exactly when `b` is at most the price's bin. */
  lemma BinOfOrder(g: Grid, price: real, b: int)
    requires g.size > 0.0
    ensures BinStart(g, b) <= price <==> b <= BinOf(g, price)
  {
    var k := BinOf(g, price);
    BinOfBounds(g, price);
    if b < k {
      BinStartMonotone(g, b, k);
    } else if b > k {
      if b > k + 1 {
        BinStartMonotone(g, k + 1, b);
      }
    }
  }

  /** `Share` distributes over a sum of overlaps. */
  lemma ShareAdds(perPrice: real, x: real, y: real)
    ensures Share(perPrice, x) + Share(perPrice, y) == Share(perPrice, x + y)
  {
    assert perPrice * x + perPrice * y == perPrice * (x + y);
  }

  /** The volume one candle adds to the first `n` bins. */
  function SpreadTotal(g: Grid, c: Candle, n: nat, rule: FlatRule): real
    requires g.size > 0.0
  {
    if n == 0 then 0.0 else SpreadTotal(g, c, n - 1, rule) + Contribution(g, c, n - 1, rule)
  }

  /** The part of a candle's range below the start of bin `n`, counting no further
      than bin `e`, the bin after the one holding its high (within the profile). */
  function Covered(g: Grid, c: Candle, n: nat): real
    requires g.size > 0.0
  {
    var e := Min(g.bins, BinOf(g, c.high) + 1);
    MinReal(BinStart(g, Min(n, e)), c.high) - c.low
  }

  /** Inside the range of bins the candle reaches, a bin takes the candle's share of
      its overlap; outside it, nothing. */
  lemma ContributionSpread(g: Grid, c: Candle, b: int, rule: FlatRule)
    requires g.size > 0.0 && c.low < c.high
    ensures Max(0, BinOf(g, c.low)) <= b <= Min(g.bins - 1, BinOf(g, c.high)) ==>
              Contribution(g, c, b, rule) == Share(VolumeOf(c) / (c.high - c.low), Overlap(g, c, b))
    ensures !(Max(0, BinOf(g, c.low)) <= b <= Min(g.bins - 1, BinOf(g, c.high))) ==>
              Contribution(g, c, b, rule) == 0.0
  {
  }

  /** The bin holding the candle's low overlaps it from the low up. */
  lemma FirstBinOverlap(g: Grid, c: Candle)
    requires g.size > 0.0
    ensures c.low < c.high ==>
              Overlap(g, c, BinOf(g, c.low)) == MinReal(BinStart(g, BinOf(g, c.low) + 1), c.high) - c.low
  {
    var s := BinOf(g, c.low);
    BinOfBounds(g, c.low);
    assert BinStart(g, s) + g.size == BinStart(g, s + 1);
  }

  /** A later bin that starts at or below the candle's high overlaps it from its start. */
  lemma InnerBinOverlap(g: Grid, c: Candle, b: int)
    requires g.size > 0.0 && BinOf(g, c.low) < b <= BinOf(g, c.high)
    ensures Overlap(g, c, b) == MinReal(BinStart(g, b + 1), c.high) - BinStart(g, b)
  {
    BinOfOrder(g, c.low, b);
    BinOfOrder(g, c.high, b);
    assert BinStart(g, b) + g.size == BinStart(g, b + 1);
  }

  /** The bins below the one holding the candle's low take nothing. */
  lemma BelowCandle(g: Grid, c: Candle, b: int, rule: FlatRule)
    requires g.size > 0.0 && g.lowest <= c.low < c.high
    requires b < BinOf(g, c.low)
    ensures Contribution(g, c, b, rule) == 0.0
  {
    ContributionSpread(g, c, b, rule);
  }

  /** The bin holding the candle's low takes the share of the range it covers. */
  lemma FirstBin(g: Grid, c: Candle, rule: FlatRule)
    requires g.size > 0.0 && g.bins >= 1
    requires g.lowest <= c.low < c.high <= BinStart(g, g.bins)
    ensures Contribution(g, c, BinOf(g, c.low), rule)
            == Share(VolumeOf(c) / (c.high - c.low), Covered(g, c, BinOf(g, c.low) + 1))
  {
    var s := BinOf(g, c.low);
    BinOfOrder(g, c.low, 0);
    assert BinStart(g, 0) == g.lowest;
    BinOfOrder(g, c.low, g.bins);
    BinOfOrder(g, c.high, s);
    ContributionSpread(g, c, s, rule);
    FirstBinOverlap(g, c);
    assert Covered(g, c, s + 1) == Overlap(g, c, s);
  }

  /** A later bin the candle reaches extends the covered part by its overlap. */
  lemma InnerBin(g: Grid, c: Candle, b: int, rule: FlatRule)
    requires g.size > 0.0 && g.bins >= 1
    requires g.lowest <= c.low < c.high
    requires BinOf(g, c.low) < b < Min(g.bins, BinOf(g, c.high) + 1)
    ensures Share(VolumeOf(c) / (c.high - c.low), Covered(g, c, b)) + Contribution(g, c, b, rule)
            == Share(VolumeOf(c) / (c.high - c.low), Covered(g, c, b + 1))
  {
    BinOfOrder(g, c.low, 0);
    assert BinStart(g, 0) == g.lowest;
    ContributionSpread(g, c, b, rule);
    InnerBinOverlap(g, c, b);
    BinOfOrder(g, c.high, b);
    assert Covered(g, c, b) == BinStart(g, b) - c.low;
    assert Covered(g, c, b + 1) == Covered(g, c, b) + Overlap(g, c, b);
    ShareAdds(VolumeOf(c) / (c.high - c.low), Covered(g, c, b), Overlap(g, c, b));
  }

  /** Past the last bin the candle reaches, nothing more is covered or added. */
  lemma PastCandle(g: Grid, c: Candle, b: int, rule: FlatRule)
    requires g.size > 0.0 && c.low < c.high && b >= 0
    requires Min(g.bins, BinOf(g, c.high) + 1) <= b
    ensures Contribution(g, c, b, rule) == 0.0
    ensures Covered(g, c, b + 1) == Covered(g, c, b)
  {
    ContributionSpread(g, c, b, rule);
  }

  /** For a candle with a range, the bins up to `n` hold its volume per price times the
      part of its range they cover. */
  lemma {:induction false} SpreadTelescopes(g: Grid, c: Candle, n: nat, rule: FlatRule)
    requires g.size > 0.0 && g.bins >= 1
    requires g.lowest <= c.low < c.high <= BinStart(g, g.bins)
    ensures SpreadTotal(g, c, n, rule)
            == if n <= BinOf(g, c.low) then 0.0 else Share(VolumeOf(c) / (c.high - c.low), Covered(g, c, n))
    decreases n
  {
    if n > 0 {
      var s, e, b := BinOf(g, c.low), Min(g.bins, BinOf(g, c.high) + 1), n - 1;
      SpreadTelescopes(g, c, b, rule);
      if b < s {
        BelowCandle(g, c, b, rule);
      } else if b == s {
        FirstBin(g, c, rule);
      } else if b < e {
        InnerBin(g, c, b, rule);
      } else {
        PastCandle(g, c, b, rule);
      }
    }
  }

  /** A flat candle at or above the lowest price adds its volume to the bins from its
      own on, when its bin exists; as written, one at the highest price adds nothing. */
  lemma {:induction false} FlatSpread(g: Grid, c: Candle, n: nat, rule: FlatRule)
    requires g.size > 0.0 && g.bins >= 1 && c.high == c.low && g.lowest <= c.high
    ensures SpreadTotal(g, c, n, rule)
            == if n <= FlatBin(g, c, rule) || g.bins <= FlatBin(g, c, rule) then 0.0 else VolumeOf(c)
    decreases n
  {
    BinOfOrder(g, c.high, 0);
    assert BinStart(g, 0) == g.lowest;
    if n > 0 {
      FlatSpread(g, c, n - 1, rule);
    }
  }

  /** Whether `rule` loses a candle of a profile whose highest price is `top`: as
      written, exactly the flat candles priced at `top`. */
  predicate Dropped(rule: FlatRule, c: Candle, top: real)
  {
    rule == AsWritten && c.low == c.high == top
  }

  /** A candle whose range lies inside the profile's hands over its whole volume,
      unless it is a flat candle at the highest price and the rule is the program's. */
  lemma CandleConserved(g: Grid, c: Candle, rule: FlatRule)
    requires g.size > 0.0 && g.bins >= 1
    requires g.lowest <= c.low <= c.high <= BinStart(g, g.bins)
    ensures SpreadTotal(g, c, g.bins, rule) == if Dropped(rule, c, BinStart(g, g.bins)) then 0.0 else VolumeOf(c)
  {
    if c.high == c.low {
      FlatSpread(g, c, g.bins, rule);
      BinOfOrder(g, c.high, g.bins);
    } else {
      SpreadTelescopes(g, c, g.bins, rule);
      WholeRangeCovered(g, c);
      ShareOfWhole(VolumeOf(c), c.high - c.low);
    }
  }

  /** All the bins together cover a candle's whole range. */
  lemma WholeRangeCovered(g: Grid, c: Candle)
    requires g.size > 0.0 && g.bins >= 1
    requires g.lowest <= c.low < c.high <= BinStart(g, g.bins)
    ensures BinOf(g, c.low) < g.bins
    ensures Covered(g, c, g.bins) == c.high - c.low
  {
    BinOfOrder(g, c.low, g.bins);
    BinOfBounds(g, c.high);
    var e := Min(g.bins, BinOf(g, c.high) + 1);
    if e == g.bins {
    } else {
      assert c.high < BinStart(g, e);
    }
  }

  /** The volume per price times the range is the volume. */
  lemma ShareOfWhole(volume: real, range: real)
    requires range > 0.0
    ensures Share(volume / range, range) == volume
  {
    QuotientTimesDivisor(volume, range);
  }

  /** The volume all candles add to the first `n` bins, candle by candle. */
  function CandlesSpread(candles: seq<Candle>, g: Grid, n: nat, rule: FlatRule): real
    requires g.size > 0.0
    decreases |candles|
  {
    if candles == [] then 0.0
    else CandlesSpread(candles[..|candles| - 1], g, n, rule) + SpreadTotal(g, candles[|candles| - 1], n, rule)
  }

  /** The volume of the first `n` bins, bin by bin. */
  function BinsTotal(candles: seq<Candle>, g: Grid, n: nat, rule: FlatRule): real
    requires g.size > 0.0
  {
    if n == 0 then 0.0 else BinsTotal(candles, g, n - 1, rule) + BinVolume(candles, g, n - 1, rule)
  }

  lemma {:induction false} CandlesSpreadStep(candles: seq<Candle>, g: Grid, n: nat, rule: FlatRule)
    requires g.size > 0.0
    ensures CandlesSpread(candles, g, n + 1, rule) == CandlesSpread(candles, g, n, rule) + BinVolume(candles, g, n, rule)
    decreases |candles|
  {
    if candles != [] {
      CandlesSpreadStep(candles[..|candles| - 1], g, n, rule);
    }
  }

  /** Adding bin by bin and adding candle by candle give the same total. */
  lemma {:induction false} BinsTotalByCandle(candles: seq<Candle>, g: Grid, n: nat, rule: FlatRule)
    requires g.size > 0.0
    ensures BinsTotal(candles, g, n, rule) == CandlesSpread(candles, g, n, rule)
    decreases n
  {
    if n == 0 {
      CandlesSpreadZero(candles, g, rule);
    } else {
      BinsTotalByCandle(candles, g, n - 1, rule);
      CandlesSpreadStep(candles, g, n - 1, rule);
    }
  }

  lemma {:induction false} CandlesSpreadZero(candles: seq<Candle>, g: Grid, rule: FlatRule)
    requires g.size > 0.0
    ensures CandlesSpread(candles, g, 0, rule) == 0.0
    decreases |candles|
  {
    if candles != [] {
      CandlesSpreadZero(candles[..|candles| - 1], g, rule);
    }
  }

  /** The total volume of the candles. */
  function CandleVolume(candles: seq<Candle>): real
  {
    if candles == [] then 0.0 else CandleVolume(candles[..|candles| - 1]) + VolumeOf(candles[|candles| - 1])
  }

  /** The total volume of the flat candles priced at `top`. */
  function TopFlatVolume(candles: seq<Candle>, top: real): real
  {
    if candles == [] then 0.0
    else
      var c := candles[|candles| - 1];
      TopFlatVolume(candles[..|candles| - 1], top) + (if c.low == c.high == top then VolumeOf(c) else 0.0)
  }

  /** The volume `rule` keeps of candles whose highest price is `top`: all of it when
      clamped; as written, all but that of the flat candles at `top`. */
  function KeptVolume(candles: seq<Candle>, rule: FlatRule, top: real): real
  {
    if rule == Clamped then CandleVolume(candles) else CandleVolume(candles) - TopFlatVolume(candles, top)
  }

  lemma {:induction false} CandlesConserved(candles: seq<Candle>, g: Grid, rule: FlatRule)
    requires g.size > 0.0 && g.bins >= 1
    requires forall i :: 0 <= i < |candles| ==> g.lowest <= candles[i].low <= candles[i].high <= BinStart(g, g.bins)
    ensures CandlesSpread(candles, g, g.bins, rule) == KeptVolume(candles, rule, BinStart(g, g.bins))
    decreases |candles|
  {
    if candles != [] {
      CandlesConserved(candles[..|candles| - 1], g, rule);
      CandleConserved(g, candles[|candles| - 1], rule);
    }
  }

  /** The total volume of a profile. */
  function LevelsVolume(levels: seq<Level>): real
  {
    if levels == [] then 0.0 else LevelsVolume(levels[..|levels| - 1]) + levels[|levels| - 1].volume
  }

  /** Levels holding the bins' volumes add up to the bins' total. */
  lemma {:induction false} LevelsVolumeByBin(levels: seq<Level>, candles: seq<Candle>, g: Grid, rule: FlatRule)
    requires g.size > 0.0
    requires forall i :: 0 <= i < |levels| ==> levels[i].volume == BinVolume(candles, g, i, rule)
    ensures LevelsVolume(levels) == BinsTotal(candles, g, |levels|, rule)
    decreases |levels|
  {
    if levels != [] {
      LevelsVolumeByBin(levels[..|levels| - 1], candles, g, rule);
    }
  }

  /** With every low at most its high, the levels' volumes add up to the volume `rule`
      keeps. */
  lemma ProfileKeepsVolume(candles: seq<Candle>, bins: nat, rule: FlatRule)
    requires |VolumeProfile(candles, bins, rule)| > 0
    requires forall i :: 0 <= i < |candles| ==> candles[i].low <= candles[i].high
    ensures LevelsVolume(VolumeProfile(candles, bins, rule)) == KeptVolume(candles, rule, HighestPrice(candles))
  {
    var r := VolumeProfile(candles, bins, rule);
    var g := ProfileGrid(candles, bins).value;
    LevelsVolumeByBin(r, candles, g, rule);
    BinsTotalByCandle(candles, g, bins, rule);
    CandlesConserved(candles, g, rule);
  }

  /** The profile as written loses exactly the volume of the flat candles at the
      highest price, and nothing else: with every low at most its high, its levels hold
      the candles' total volume less theirs. */
  lemma ProfileLosesTopFlatVolume(candles: seq<Candle>, bins: nat)
    requires |VolumeProfile(candles, bins, AsWritten)| > 0
    requires forall i :: 0 <= i < |candles| ==> candles[i].low <= candles[i].high
    ensures LevelsVolume(VolumeProfile(candles, bins, AsWritten))
            == CandleVolume(candles) - TopFlatVolume(candles, HighestPrice(candles))
  {
    ProfileKeepsVolume(candles, bins, AsWritten);
  }

  /** With the flat-candle bin clamped the profile neither loses nor invents volume:
      with every low at most its high, the levels hold exactly the candles' total. */
  lemma ClampedProfileConservesVolume(candles: seq<Candle>, bins: nat)
    requires |VolumeProfile(candles, bins, Clamped)| > 0
    requires forall i :: 0 <= i < |candles| ==> candles[i].low <= candles[i].high
    ensures LevelsVolume(VolumeProfile(candles, bins, Clamped)) == CandleVolume(candles)
  {
    ProfileKeepsVolume(candles, bins, Clamped);
  }

  /** As written, a flat candle at the highest price lands one past the last bin, so
      its volume is dropped; clamped, it goes to the last bin. */
  lemma FlatCandleAtTopIsDropped(g: Grid, c: Candle)
    requires g.size > 0.0 && g.bins >= 1
    requires c.high == c.low == BinStart(g, g.bins)
    ensures FlatBin(g, c, AsWritten) == g.bins
    ensures FlatBin(g, c, Clamped) == g.bins - 1
  {
    BinOfOrder(g, c.high, g.bins);
    BinOfOrder(g, c.high, g.bins + 1);
    BinStartMonotone(g, g.bins, g.bins + 1);
  }

  /** Two candles, `{ high: 2, low: 1, volume: 4 }` and `{ high: 2, low: 2, volume: 3 }`,
      in two bins of width 0.5 from 1: as written the flat one lands in bin 2 of 0..1,
      its 3 is lost and the levels hold 4; clamped, they hold all 7. */
  lemma FlatCandleAtTopExample()
    ensures var candles := [Candle(2.0, 1.0, Some(4.0)), Candle(2.0, 2.0, Some(3.0))];
            ProfileGrid(candles, 2) == Some(Grid(1.0, 0.5, 2))
            && FlatBin(Grid(1.0, 0.5, 2), candles[1], AsWritten) == 2
            && LevelsVolume(VolumeProfile(candles, 2, AsWritten)) == 4.0
            && LevelsVolume(VolumeProfile(candles, 2, Clamped)) == 7.0
  {
    var candles := [Candle(2.0, 1.0, Some(4.0)), Candle(2.0, 2.0, Some(3.0))];
    var g := Grid(1.0, 0.5, 2);
    assert LowestPrice(candles) == 1.0 && HighestPrice(candles) == 2.0;
    FlatCandleAtTopIsDropped(g, candles[1]);
    ProfileLosesTopFlatVolume(candles, 2);
    ClampedProfileConservesVolume(candles, 2);
    assert candles[..1] == [candles[0]];
    assert CandleVolume(candles) == 7.0;
    assert TopFlatVolume(candles, 2.0) == 3.0;
  }

  // ------------------------------------------------------------- Fibonacci

  /** The retracement ratios, in the order `calculateFibonacciLevels` visits them. */
  const FibonacciRatios: seq<real> := [0.0, 0.236, 0.382, 0.5, 0.618, 0.786, 1.0]

  /** The price of one retracement level: `high - range * level`. */
  function Retracement(high: real, low: real, ratio: real): real
  {
    high - (high - low) * ratio
  }

  /** The `levels.reduce` of `calculateFibonacciLevels`: each ratio in turn is set in
      the accumulated object. */
  function AddLevels(ratios: seq<real>, high: real, low: real, acc: map<real, real>): map<real, real>
    decreases |ratios|
  {
    if ratios == [] then acc
    else AddLevels(ratios[1..], high, low, acc[ratios[0] := Retracement(high, low, ratios[0])])
  }

  /** The fold keeps the keys it starts with, adds one key per ratio, sets every ratio
      to its retracement and leaves the other keys alone. */
  lemma {:induction false} AddLevelsContents(ratios: seq<real>, high: real, low: real, acc: map<real, real>)
    ensures AddLevels(ratios, high, low, acc).Keys == acc.Keys + set r | r in ratios
    ensures forall r :: r in ratios ==> AddLevels(ratios, high, low, acc)[r] == Retracement(high, low, r)
    ensures forall k :: k in acc && k !in ratios ==> AddLevels(ratios, high, low, acc)[k] == acc[k]
    decreases |ratios|
  {
    if ratios != [] {
      var next := acc[ratios[0] := Retracement(high, low, ratios[0])];
      AddLevelsContents(ratios[1..], high, low, next);
      assert forall r :: r in ratios <==> r == ratios[0] || r in ratios[1..];
    }
  }

  /** `calculateFibonacciLevels(high, low)`: the price of each ratio's level, keyed by
      the ratio. */
  function FibonacciLevels(high: real, low: real): (levels: map<real, real>)
    ensures levels.Keys == set r | r in FibonacciRatios
    ensures forall r :: r in FibonacciRatios ==> levels[r] == Retracement(high, low, r)
  {
    AddLevelsContents(FibonacciRatios, high, low, map[]);
    AddLevels(FibonacciRatios, high, low, map[])
  }

  /** Level 0 is the high, level 1 the low and level 0.5 halfway between. */
  lemma FibonacciEnds(high: real, low: real)
    ensures FibonacciLevels(high, low)[0.0] == high
    ensures FibonacciLevels(high, low)[1.0] == low
    ensures FibonacciLevels(high, low)[0.5] == (high + low) / 2.0
  {
    assert 0.0 == FibonacciRatios[0] && 0.5 == FibonacciRatios[3] && 1.0 == FibonacciRatios[6];
  }

  /** With the high at or above the low, a deeper retracement is a lower price, and
      every level lies between the low and the high. */
  lemma FibonacciOrdered(high: real, low: real, r1: real, r2: real)
    requires low <= high
    requires r1 in FibonacciLevels(high, low) && r2 in FibonacciLevels(high, low) && r1 <= r2
    ensures FibonacciLevels(high, low)[r2] <= FibonacciLevels(high, low)[r1]
    ensures low <= FibonacciLevels(high, low)[r1] <= high
  {
    assert r1 in FibonacciRatios && r2 in FibonacciRatios;
    RatioInUnit(r1);
    RetracementOrdered(high, low, r1, r2);
    RetracementBetween(high, low, r1);
  }

  lemma RatioInUnit(r: real)
    requires r in FibonacciRatios
    ensures 0.0 <= r <= 1.0
  {
    var k :| 0 <= k < |FibonacciRatios| && FibonacciRatios[k] == r;
  }

  lemma RetracementOrdered(high: real, low: real, r1: real, r2: real)
    requires low <= high && r1 <= r2
    ensures Retracement(high, low, r2) <= Retracement(high, low, r1)
  {
    Server.ProductNonNegative(high - low, r2 - r1);
    ProductDistributes(r2, r1, high - low);
  }

  lemma RetracementBetween(high: real, low: real, r: real)
    requires low <= high && 0.0 <= r <= 1.0
    ensures low <= Retracement(high, low, r) <= high
  {
    Server.ProductNonNegative(high - low, r);
    Server.ProductNonNegative(high - low, 1.0 - r);
    ProductDistributes(1.0, r, high - low);
  }

  // ------------------------------------------------------ historical volatility

  /** One entry of `calculateHistoricalVolatility`: null, NaN (a window of a single
      return divides zero by zero) or the annualised volatility in percent. */
  datatype HvPoint = NoValue | NotANumber | Percent(value: real)

  /** The variance with Bessel's correction: squared deviations over `n - 1`. */
  function SampleVariance(xs: seq<real>): real
    requires |xs| >= 2
  {
    Sum(VolatilityEngine.SquaredDeviations(xs, Mean(xs))) / (|xs| - 1) as real
  }

  /** The `window` log returns ending at price `i`. */
  function WindowReturns(m: VolatilityEngine.Math, prices: seq<real>, window: nat, i: nat): (r: seq<real>)
    requires window <= i < |prices|
    ensures |r| == window
  {
    VolatilityEngine.LogReturns(m, prices[i - window..i + 1])
  }

  /** `stdDev * Math.sqrt(252) * 100`: a daily deviation annualised, in percent. */
  function Annualised(m: VolatilityEngine.Math, stdDev: real): real
  {
    stdDev * m.sqrt(VolatilityEngine.TradingDays) * 100.0
  }

  /** Entry `i` of `calculateHistoricalVolatility(prices, window)`. A window of 0 has
      no returns: the squared deviations sum to 0, divided by `0 - 1` that is -0, whose
      root is -0, a zero volatility. A window of 1 has one return and divides 0 by 0. */
  function HvAt(m: VolatilityEngine.Math, prices: seq<real>, window: nat, i: nat): (r: HvPoint)
    requires i < |prices|
    ensures r.NoValue? <==> |prices| < window + 1 || i < window
    ensures r.NotANumber? <==> !r.NoValue? && window == 1
  {
    if |prices| < window + 1 || i < window then NoValue
    else if window == 0 then Percent(Annualised(m, m.sqrt(0.0)))
    else if window == 1 then NotANumber
    else Percent(Annualised(m, m.sqrt(SampleVariance(WindowReturns(m, prices, window, i)))))
  }

  /** `calculateHistoricalVolatility(prices, window)`: for each price from the
      `window`-th on, the log returns of the window are collected one by one and their
      sample deviation annualised. */
  method CalculateHistoricalVolatility(m: VolatilityEngine.Math, prices: seq<real>, window: nat := 20)
    returns (volatility: seq<HvPoint>)
    ensures |volatility| == |prices|
    ensures forall i :: 0 <= i < |prices| ==> volatility[i] == HvAt(m, prices, window, i)
  {
    if |prices| < window + 1 {
      return seq(|prices|, _ => NoValue);
    }
    volatility := [];
    for i := 0 to |prices|
      invariant |volatility| == i
      invariant forall k :: 0 <= k < i ==> volatility[k] == HvAt(m, prices, window, k)
    {
      if i < window {
        volatility := volatility + [NoValue];
      } else {
        var point := WindowVolatility(m, prices, window, i);
        volatility := volatility + [point];
      }
    }
  }

  /** The body of the loop of `calculateHistoricalVolatility` at a price `i` with a full
      window: the window's log returns are collected one by one, then their sample
      deviation is annualised. */
  method WindowVolatility(m: VolatilityEngine.Math, prices: seq<real>, window: nat, i: nat) returns (point: HvPoint)
    requires window <= i < |prices|
    ensures point == HvAt(m, prices, window, i)
  {
    var logReturns := CollectWindowReturns(m, prices, window, i);
    if window == 0 {
      // No returns: the variance is 0 / -1, that is -0, and its root -0.
      return Percent(Annualised(m, m.sqrt(0.0)));
    }
    if window == 1 {
      // `returns.length - 1` is zero: the variance is 0 / 0.
      return NotANumber;
    }
    var mean := Sum(logReturns) / |logReturns| as real;
    var variance := Sum(VolatilityEngine.SquaredDeviations(logReturns, mean)) / (|logReturns| - 1) as real;
    SampleVarianceOf(logReturns, mean);
    var stdDev := m.sqrt(variance);
    var annualizedVol := Annualised(m, stdDev);
    point := Percent(annualizedVol);
  }

  /** The inner loop of `calculateHistoricalVolatility`: the log returns of the window
      ending at price `i`, from the oldest on. */
  method CollectWindowReturns(m: VolatilityEngine.Math, prices: seq<real>, window: nat, i: nat)
    returns (logReturns: seq<real>)
    requires window <= i < |prices|
    ensures logReturns == WindowReturns(m, prices, window, i)
  {
    var start := i - window;
    logReturns := [];
    for j := start + 1 to i + 1
      invariant |logReturns| == j - start - 1
      invariant forall k :: 0 <= k < |logReturns| ==> logReturns[k] == m.logRatio(prices[start + k + 1], prices[start + k])
    {
      logReturns := logReturns + [m.logRatio(prices[j], prices[j - 1])];
    }
  }

  /** The source's two reductions compute the sample variance. */
  lemma SampleVarianceOf(xs: seq<real>, mean: real)
    requires |xs| >= 2 && mean == Sum(xs) / |xs| as real
    ensures Sum(VolatilityEngine.SquaredDeviations(xs, mean)) / (|xs| - 1) as real == SampleVariance(xs)
  {
  }

  /** The sample variance is the population variance scaled by `n / (n - 1)`: both
      divide the same sum of squared deviations. */
  lemma SampleVarianceCorrects(xs: seq<real>, n: nat)
    requires |xs| == n >= 2
    ensures SampleVariance(xs) * (n - 1) as real == VolatilityEngine.PopulationVariance(xs) * n as real
  {
    var d := VolatilityEngine.SquaredDeviations(xs, Mean(xs));
    QuotientTimesDivisor(Sum(d), (n - 1) as real);
    QuotientTimesDivisor(Sum(d), n as real);
  }

  lemma SampleVarianceNonNegative(xs: seq<real>)
    requires |xs| >= 2
    ensures SampleVariance(xs) >= 0.0
  {
    SumNonNegative(VolatilityEngine.SquaredDeviations(xs, Mean(xs)));
    Server.QuotientSign(Sum(VolatilityEngine.SquaredDeviations(xs, Mean(xs))), (|xs| - 1) as real);
  }

  /** The client's window of returns at price `i` is the server's last `window` log
      returns of the prices up to `i`. */
  lemma WindowReturnsMatchServer(m: VolatilityEngine.Math, prices: seq<real>, window: nat, i: nat)
    requires window <= i < |prices|
    ensures WindowReturns(m, prices, window, i) == LastN(VolatilityEngine.LogReturns(m, prices[..i + 1]), window)
  {
    var w := WindowReturns(m, prices, window, i);
    var all := VolatilityEngine.LogReturns(m, prices[..i + 1]);
    var last := LastN(all, window);
    assert |last| == window;
    forall k | 0 <= k < window
      ensures w[k] == last[k]
    {
      assert w[k] == m.logRatio(prices[i - window + k + 1], prices[i - window + k]);
      assert last[k] == all[i - window + k];
    }
  }

  /** At the last price, the client's window of returns is the server's. */
  lemma LastWindowMatchesServer(m: VolatilityEngine.Math, prices: seq<real>, window: nat)
    requires window + 1 <= |prices|
    ensures WindowReturns(m, prices, window, |prices| - 1) == ServerWindow(m, prices, window)
  {
    WindowReturnsMatchServer(m, prices, window, |prices| - 1);
    assert prices[..|prices|] == prices;
  }

  /** The returns the server's `calculateHistoricalVolatility` takes the variance of. */
  function ServerWindow(m: VolatilityEngine.Math, prices: seq<real>, window: nat): (r: seq<real>)
    requires window + 1 <= |prices|
    ensures |r| == window
  {
    LastN(VolatilityEngine.LogReturns(m, prices), window)
  }

  /** Under the laws of the square root, every volatility is non-negative. */
  lemma HvNonNegative(m: VolatilityEngine.Math, prices: seq<real>, window: nat, i: nat)
    requires VolatilityEngine.Lawful(m) && i < |prices|
    requires HvAt(m, prices, window, i).Percent?
    ensures HvAt(m, prices, window, i).value >= 0.0
  {
    if window >= 2 {
      var v := SampleVariance(WindowReturns(m, prices, window, i));
      SampleVarianceNonNegative(WindowReturns(m, prices, window, i));
      Server.ProductNonNegative(m.sqrt(v), m.sqrt(VolatilityEngine.TradingDays));
      Server.ProductNonNegative(m.sqrt(v) * m.sqrt(VolatilityEngine.TradingDays), 100.0);
    }
  }

  /** A window of 0 gives a zero volatility at every price from the first on. */
  lemma EmptyWindowHasZeroHv(m: VolatilityEngine.Math, prices: seq<real>, i: nat)
    requires VolatilityEngine.Lawful(m) && i < |prices|
    ensures HvAt(m, prices, 0, i) == Percent(0.0)
  {
  }

  /** Prices that never move have zero volatility wherever it is defined. */
  lemma ConstantPricesHaveZeroHv(m: VolatilityEngine.Math, prices: seq<real>, window: nat, i: nat)
    requires VolatilityEngine.Lawful(m) && window >= 2 && window <= i < |prices|
    requires prices[0] != 0.0 && forall k :: 0 <= k < |prices| ==> prices[k] == prices[0]
    ensures HvAt(m, prices, window, i) == Percent(0.0)
  {
    var run := prices[i - window..i + 1];
    assert run[0] == prices[0] && forall k :: 0 <= k < |run| ==> run[k] == run[0];
    VolatilityEngine.ConstantPricesHaveZeroReturns(m, run);
    SampleVarianceOfZeros(WindowReturns(m, prices, window, i));
    assert m.sqrt(0.0) == 0.0;
  }

  lemma SampleVarianceOfZeros(xs: seq<real>)
    requires |xs| >= 2 && forall k :: 0 <= k < |xs| ==> xs[k] == 0.0
    ensures SampleVariance(xs) == 0.0
  {
    VolatilityEngine.MeanOfZeros(xs);
    var d := VolatilityEngine.SquaredDeviations(xs, 0.0);
    forall k | 0 <= k < |d| ensures d[k] == 0.0 {
      assert xs[k] == 0.0;
    }
    VolatilityEngine.SumOfConstant(d, 0.0);
  }

}

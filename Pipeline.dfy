/** The data acquisition pipeline: on each cycle it fetches price history per
    asset through a circuit breaker, fetches market sentiment, computes historical
    and implied volatility per asset, and pushes the results into the market
    context as each symbol's 'dapp' slot, checking for alerts as it goes. The
    remote services are oracles: `Feeds` holds what each call would return. */
module DataAcquisitionPipeline {
  import opened Common
  import opened MarketTypes
  import opened VolatilityEngine
  import ErrorHandler
  import DeltaClient
  import MarketContext
  import AlertManager

  const DefaultInterval: int := 5000
  const DefaultAssets: seq<string> := ["bitcoin", "ethereum"]
  const DefaultSymbols: seq<string> := ["BTCUSDT", "ETHUSDT"]
  const MinDataPoints: nat := 21
  const HistoricalKey: string := "historical_data"
  const SentimentKey: string := "market_sentiment"
  const FallbackSentimentMessage: string := "Using fallback sentiment data"
  /** The TypeError message of `response.prices.map` when `response` is the fallback array. */
  const NoPricesMessage: string := "Cannot read properties of undefined (reading 'map')"

  // ------------------------------------------------------------------ values

  datatype PricePoint = PricePoint(timestamp: Millis, price: real)

  /** `{ asset, data }` or `{ asset, data: [], error }`. */
  datatype AssetData = AssetData(asset: string, data: seq<PricePoint>, error: Option<string>)

  /** What the CoinGecko breaker returns: the client's `{ prices }` response, or the
      fallback function's array of price points (which has no `prices`). */
  datatype HistoryResponse = Prices(prices: seq<(Millis, real)>) | FallbackArray(points: seq<PricePoint>)

  /** A value in the pipeline's cache. */
  datatype CacheEntry =
    | HistoricalEntry(history: seq<AssetData>)
    | SentimentEntry(sentiment: Sentiment)
    | OptionsEntry(options: seq<DeltaClient.DeltaOption>)

  /** One cycle's `results` object. */
  datatype Results = Results(
    historicalData: seq<AssetData>,
    sentiment: Sentiment,
    volatility: map<string, VolatilityEntry>,
    accountBalance: AccountBalance)

  /** What the remote services would answer during one cycle: CoinGecko's price
      history per asset, the sentiment analyser's result, and Delta's options
      index response per Delta symbol. */
  datatype Feeds = Feeds(
    history: string -> Result<seq<(Millis, real)>, string>,
    sentiment: Result<Sentiment, string>,
    options: string -> Result<DeltaClient.OptionsResponse, string>)

  /** `getFallbackSentiment()`: a neutral reading tagged with an error message. */
  function FallbackSentiment(now: Millis): (s: Sentiment)
    ensures s.overall.positive + s.overall.negative + s.overall.neutral == 1.0
    ensures s.overall.compound == 0.0 && s.articleCount == 0 && s.timestamp == now
    ensures s.error == Some(FallbackSentimentMessage)
  {
    Sentiment(Scores(0.33, 0.33, 0.34, 0.0), 0, now, Some(FallbackSentimentMessage))
  }

  /** `getAccountBalance()`: a fixed placeholder balance. */
  function AccountBalancePlaceholder(now: Millis): (b: AccountBalance)
    ensures b.available + b.inOrders == b.total && b.total == 10000.0 && b.timestamp == now
  {
    AccountBalance(10000.0, 9500.0, 500.0, now)
  }

  /** The asset a trading symbol's pipeline data is stored under: the first "USDT"
      removed, lower-cased, with btc and eth spelled out. */
  function AssetKey(symbol: string): (r: string)
    ensures var a := ToLower(ReplaceFirst(symbol, "USDT", ""));
            r == (if a == "btc" then "bitcoin" else if a == "eth" then "ethereum" else a)
  {
    var asset := ToLower(ReplaceFirst(symbol, "USDT", ""));
    if asset == "btc" then "bitcoin" else if asset == "eth" then "ethereum" else asset
  }

  /** The Delta underlying queried for an asset; unknown assets query BTCUSD. */
  function OptionsSymbol(asset: string): (r: string)
    ensures r == "BTCUSD" || r == "ETHUSD"
    ensures r == "ETHUSD" <==> asset == "ethereum"
  {
    if asset == "bitcoin" then "BTCUSD" else if asset == "ethereum" then "ETHUSD" else "BTCUSD"
  }

  function OptionsKey(asset: string): string { "options_" + asset }

  lemma OptionsKeyDistinct(asset: string)
    ensures OptionsKey(asset) != HistoricalKey && OptionsKey(asset) != SentimentKey
  {
    assert OptionsKey(asset)[0] == 'o';
  }

  // ------------------------------------------------------------ price history

  /** `response.prices.map(([timestamp, price]) => ({ timestamp, price }))`. */
  function PricePoints(prices: seq<(Millis, real)>): (r: seq<PricePoint>)
    ensures |r| == |prices|
    ensures forall i :: 0 <= i < |prices| ==> r[i] == PricePoint(prices[i].0, prices[i].1)
  {
    seq(|prices|, i requires 0 <= i < |prices| => PricePoint(prices[i].0, prices[i].1))
  }

  /** The entry recorded for one asset from the breaker's result. */
  function AssetEntry(asset: string, result: Result<HistoryResponse, string>): (r: AssetData)
    ensures r.asset == asset
    ensures r.error.None? <==> result.Ok? && result.value.Prices?
    ensures r.error.Some? ==> r.data == []
    ensures r.error.None? ==> r.data == PricePoints(result.value.prices)
  {
    match result
    case Ok(Prices(prices)) => AssetData(asset, PricePoints(prices), None)
    case Ok(FallbackArray(_)) => AssetData(asset, [], Some(NoPricesMessage))
    case Err(e) => AssetData(asset, [], Some(e))
  }

  /** The breaker fallback: the asset's cached points, or []. */
  function CachedPoints(cache: map<string, CacheEntry>, asset: string): seq<PricePoint>
  {
    if HistoricalKey in cache && cache[HistoricalKey].HistoricalEntry? then
      PointsOf(cache[HistoricalKey].history, asset)
    else []
  }

  /** `history.find(d => d.asset === asset)?.data || []`. */
  function PointsOf(history: seq<AssetData>, asset: string): seq<PricePoint>
  {
    if history == [] then []
    else if history[0].asset == asset then history[0].data
    else PointsOf(history[1..], asset)
  }

  /** The outcome of the breaker call for one asset. */
  function HistoryStep(b: ErrorHandler.Breaker, now: Millis, feeds: Feeds, cache: map<string, CacheEntry>, asset: string)
    : ErrorHandler.Step<HistoryResponse>
  {
    var outcome := match feeds.history(asset)
      case Ok(prices) => Ok(Prices(prices))
      case Err(e) => Err(e);
    ErrorHandler.Run(b, now, outcome, Some(FallbackArray(CachedPoints(cache, asset))))
  }

  /** The entries for `assets`, asked one after the other through breaker `b`,
      and the breaker afterwards. */
  function FetchAll(b: ErrorHandler.Breaker, now: Millis, feeds: Feeds, cache: map<string, CacheEntry>, assets: seq<string>)
    : (r: (seq<AssetData>, ErrorHandler.Breaker))
    ensures |r.0| == |assets|
    ensures forall i :: 0 <= i < |assets| ==> r.0[i].asset == assets[i]
    ensures forall i :: 0 <= i < |assets| ==> r.0[i].error.Some? ==> r.0[i].data == []
    decreases |assets|
  {
    if assets == [] then ([], b)
    else
      var before := FetchAll(b, now, feeds, cache, assets[..|assets| - 1]);
      var step := HistoryStep(before.1, now, feeds, cache, assets[|assets| - 1]);
      (before.0 + [AssetEntry(assets[|assets| - 1], step.result)], step.after)
  }

  /** The entry of each asset is what its own breaker call produced: a failure for
      one asset becomes that asset's error entry and nothing else. */
  lemma {:induction false} FetchAllIsolatesAssets(b: ErrorHandler.Breaker, now: Millis, feeds: Feeds,
                                                  cache: map<string, CacheEntry>, assets: seq<string>, i: nat)
    requires i < |assets|
    ensures var breakerBefore := FetchAll(b, now, feeds, cache, assets[..i]).1;
            FetchAll(b, now, feeds, cache, assets).0[i]
            == AssetEntry(assets[i], HistoryStep(breakerBefore, now, feeds, cache, assets[i]).result)
    decreases |assets|
  {
    var n := |assets|;
    var before := FetchAll(b, now, feeds, cache, assets[..n - 1]);
    var last := AssetEntry(assets[n - 1], HistoryStep(before.1, now, feeds, cache, assets[n - 1]).result);
    assert FetchAll(b, now, feeds, cache, assets).0 == before.0 + [last];
    if i < n - 1 {
      assert assets[..n - 1][..i] == assets[..i];
      FetchAllIsolatesAssets(b, now, feeds, cache, assets[..n - 1], i);
    } else {
      assert assets[..n - 1] == assets[..i];
    }
  }

  // -------------------------------------------------------------- volatility

  /** The quote the volatility engine gets for a formatted Delta option, with its
      expiry in days. */
  function Quote(o: DeltaClient.DeltaOption): OptionQuote
    requires DeltaClient.Tradable(o)
  {
    OptionQuote(o.price.value, o.strike, Days(o.expirationDays.value), o.optionType)
  }

  function Quotes(options: seq<DeltaClient.DeltaOption>): (r: seq<OptionQuote>)
    requires forall o | o in options :: DeltaClient.Tradable(o)
    ensures |r| == |options|
    ensures forall i :: 0 <= i < |options| ==> r[i] == Quote(options[i]) && r[i].expiration.Days?
  {
    seq(|options|, i requires 0 <= i < |options| => Quote(options[i]))
  }

  /** The quote as the source builds it: `expiration` is the option's ISO date
      string, so `expiration / 365` is NaN. */
  function QuoteAsWritten(o: DeltaClient.DeltaOption): (q: OptionQuote)
    requires DeltaClient.Tradable(o)
    ensures q.expiration == NotANumber
  {
    OptionQuote(o.price.value, o.strike, NotANumber, o.optionType)
  }

  function QuotesAsWritten(options: seq<DeltaClient.DeltaOption>): (r: seq<OptionQuote>)
    requires forall o | o in options :: DeltaClient.Tradable(o)
    ensures |r| == |options|
    ensures forall i :: 0 <= i < |options| ==> r[i] == QuoteAsWritten(options[i])
  {
    seq(|options|, i requires 0 <= i < |options| => QuoteAsWritten(options[i]))
  }

  /** With the quotes built as written no implied volatility is ever accepted, so
      the average implied volatility is always null. */
  lemma AsWrittenImpliedVolatilityIsNull(m: Math, options: seq<DeltaClient.DeltaOption>, spot: real)
    requires Lawful(m)
    requires forall o | o in options :: DeltaClient.Tradable(o)
    ensures forall i :: 0 <= i < |options| ==> !Reasonable(QuoteIV(m, QuotesAsWritten(options)[i], spot, RiskFreeRate))
    ensures AcceptedIVs(m, QuotesAsWritten(options), spot, RiskFreeRate) == []
  {
    var qs := QuotesAsWritten(options);
    forall i | 0 <= i < |qs|
      ensures !Reasonable(QuoteIV(m, qs[i], spot, RiskFreeRate))
    {
      assert qs[i].expiration == NotANumber;
    }
  }

  /** The implied volatility recorded for an asset: null without options, else
      the average over the quotes that give a reasonable value. */
  function ImpliedVolatilityOf(m: Math, options: seq<DeltaClient.DeltaOption>, spot: real): (iv: Option<real>)
    requires Lawful(m)
    requires forall o | o in options :: DeltaClient.Tradable(o)
    ensures iv.Some? ==> 0.0 < iv.value < MaxReasonableIV
    ensures iv.Some? ==> (AcceptedIVs(m, Quotes(options), spot, RiskFreeRate) != []
                          && iv.value == Mean(AcceptedIVs(m, Quotes(options), spot, RiskFreeRate)))
    ensures options == [] ==> iv.None?
  {
    if options == [] then None
    else
      var ivs := AcceptedIVs(m, Quotes(options), spot, RiskFreeRate);
      if ivs == [] then None
      else
        MeanStrictBounds(ivs, 0.0, MaxReasonableIV);
        Some(Mean(ivs))
  }

  /** The implied volatility `calculateVolatilityMetrics` records for an asset as
      written: the average over the quotes as the source builds them, which is null
      whatever the options. */
  function ImpliedVolatilityAsWritten(m: Math, options: seq<DeltaClient.DeltaOption>, spot: real): (iv: Option<real>)
    requires Lawful(m)
    requires forall o | o in options :: DeltaClient.Tradable(o)
    ensures iv.None?
  {
    if options == [] then None
    else
      var ivs := AcceptedIVs(m, QuotesAsWritten(options), spot, RiskFreeRate);
      AsWrittenImpliedVolatilityIsNull(m, options, spot);
      assert ivs == [];
      None
  }

  function PricesOf(data: seq<PricePoint>): (r: seq<real>)
    ensures |r| == |data|
    ensures forall i :: 0 <= i < |data| ==> r[i] == data[i].price
  {
    seq(|data|, i requires 0 <= i < |data| => data[i].price)
  }

  /** The asset has an entry with enough points among `history`. */
  predicate Qualifies(history: seq<AssetData>, asset: string)
  {
    exists i :: 0 <= i < |history| && history[i].asset == asset && |history[i].data| >= MinDataPoints
  }

  /** The last entry of `asset` with enough points: later entries overwrite earlier ones. */
  function LastQualifying(history: seq<AssetData>, asset: string): (e: AssetData)
    requires Qualifies(history, asset)
    ensures e.asset == asset && |e.data| >= MinDataPoints && e in history
    decreases |history|
  {
    var last := history[|history| - 1];
    if last.asset == asset && |last.data| >= MinDataPoints then last
    else
      assert Qualifies(history[..|history| - 1], asset) by {
        var i :| 0 <= i < |history| && history[i].asset == asset && |history[i].data| >= MinDataPoints;
        assert i < |history| - 1 && history[..|history| - 1][i] == history[i];
      }
      LastQualifying(history[..|history| - 1], asset)
  }

  /** The metrics an asset gets from its price points and its options: the
      historical volatility of its prices, its last price as spot price, and, as
      written, no implied volatility. */
  function Metrics(m: Math, e: AssetData, options: seq<DeltaClient.DeltaOption>, now: Millis): (v: VolatilityEntry)
    requires Lawful(m) && |e.data| >= MinDataPoints
    requires forall o | o in options :: DeltaClient.Tradable(o)
    ensures v.VolOk? && v.spotPrice == e.data[|e.data| - 1].price && v.timestamp == now
    ensures v.historicalVolatility >= 0.0
    ensures v.historicalVolatility == HistoricalVolatility(m, PricesOf(e.data), HvWindow)
    ensures v.impliedVolatility.None?
  {
    var prices := PricesOf(e.data);
    AnnualisedVolatilityNonNegative(m, LastN(LogReturns(m, prices), HvWindow));
    VolOk(HistoricalVolatility(m, prices, HvWindow), ImpliedVolatilityAsWritten(m, options, prices[|prices| - 1]),
          prices[|prices| - 1], now)
  }

  /** The cache holds each kind of entry under its own keys, and cached options are tradable. */
  predicate CacheWellTyped(cache: map<string, CacheEntry>)
  {
    forall k | k in cache :: EntryFits(k, cache[k])
  }

  /** History lives under its key, sentiment under its own, options elsewhere and tradable. */
  predicate EntryFits(key: string, e: CacheEntry)
  {
    && (e.HistoricalEntry? <==> key == HistoricalKey)
    && (e.SentimentEntry? <==> key == SentimentKey)
    && (e.OptionsEntry? ==> forall o | o in e.options :: DeltaClient.Tradable(o))
  }

  /** The options cached for `asset`. */
  predicate HasOptions(cache: map<string, CacheEntry>, asset: string)
  {
    OptionsKey(asset) in cache && cache[OptionsKey(asset)].OptionsEntry?
  }

  /** The options cached for `asset`, or none. */
  function CachedOptions(cache: map<string, CacheEntry>, asset: string): (r: seq<DeltaClient.DeltaOption>)
    requires CacheWellTyped(cache)
    ensures forall o | o in r :: DeltaClient.Tradable(o)
    ensures HasOptions(cache, asset) ==> r == cache[OptionsKey(asset)].options
  {
    if HasOptions(cache, asset) then cache[OptionsKey(asset)].options else []
  }

  /** For each asset with an entry of at least 21 points, the last such entry:
      entries are taken in order and a later one overwrites an earlier one. */
  function Selected(history: seq<AssetData>): (sel: map<string, AssetData>)
    ensures forall a | a in sel :: sel[a].asset == a && |sel[a].data| >= MinDataPoints
    decreases |history|
  {
    if history == [] then map[]
    else
      var e := history[|history| - 1];
      var prev := Selected(history[..|history| - 1]);
      if |e.data| >= MinDataPoints then prev[e.asset := e] else prev
  }

  /** What each selected asset's metrics are computed from: its entry and the
      options cached for it. */
  function Inputs(sel: map<string, AssetData>, cache: map<string, CacheEntry>)
    : (r: map<string, (AssetData, seq<DeltaClient.DeltaOption>)>)
    requires CacheWellTyped(cache)
    requires forall a | a in sel :: |sel[a].data| >= MinDataPoints
    ensures r.Keys == sel.Keys
    ensures forall a | a in r :: r[a] == (sel[a], CachedOptions(cache, a))
    ensures forall a | a in r :: MetricsInput(r[a])
  {
    map a | a in sel :: (sel[a], CachedOptions(cache, a))
  }

  predicate MetricsInput(input: (AssetData, seq<DeltaClient.DeltaOption>))
  {
    |input.0.data| >= MinDataPoints && forall o | o in input.1 :: DeltaClient.Tradable(o)
  }

  /** The metrics of each asset from its inputs. */
  function MetricsOf(m: Math, inputs: map<string, (AssetData, seq<DeltaClient.DeltaOption>)>, now: Millis)
    : (r: map<string, VolatilityEntry>)
    requires Lawful(m)
    requires forall a | a in inputs :: MetricsInput(inputs[a])
    ensures r.Keys == inputs.Keys
  {
    map a | a in inputs :: var input := inputs[a]; assert MetricsInput(input); Metrics(m, input.0, input.1, now)
  }

  lemma MetricsOfUpdate(m: Math, inputs: map<string, (AssetData, seq<DeltaClient.DeltaOption>)>, a: string,
                        input: (AssetData, seq<DeltaClient.DeltaOption>), now: Millis)
    requires Lawful(m)
    requires forall b | b in inputs :: MetricsInput(inputs[b])
    requires MetricsInput(input)
    ensures MetricsOf(m, inputs[a := input], now) == MetricsOf(m, inputs, now)[a := Metrics(m, input.0, input.1, now)]
  {
    var left, right := MetricsOf(m, inputs[a := input], now), MetricsOf(m, inputs, now)[a := Metrics(m, input.0, input.1, now)];
    forall b | b in right
      ensures b in left && left[b] == right[b]
    {
      MetricsOfUpdateAt(m, inputs, a, input, now, b);
    }
    MapsAgree(left, right);
  }

  /** Two maps with the same keys and the same value at each key are equal. */
  lemma MapsAgree<K, V>(left: map<K, V>, right: map<K, V>)
    requires left.Keys <= right.Keys
    requires forall k | k in right :: k in left && left[k] == right[k]
    ensures left == right
  {
  }

  lemma MetricsOfUpdateAt(m: Math, inputs: map<string, (AssetData, seq<DeltaClient.DeltaOption>)>, a: string,
                          input: (AssetData, seq<DeltaClient.DeltaOption>), now: Millis, b: string)
    requires Lawful(m)
    requires forall c | c in inputs :: MetricsInput(inputs[c])
    requires MetricsInput(input)
    requires b in inputs || b == a
    ensures b in MetricsOf(m, inputs[a := input], now)
    ensures MetricsOf(m, inputs[a := input], now)[b] == (MetricsOf(m, inputs, now)[a := Metrics(m, input.0, input.1, now)])[b]
  {
    if b != a {
      assert inputs[a := input][b] == inputs[b];
    }
  }

  /** Adding one selected entry adds its inputs; the others' options are unchanged
      in a cache that extends the one they were read from. */
  lemma InputsStep(sel: map<string, AssetData>, c1: map<string, CacheEntry>, c2: map<string, CacheEntry>, e: AssetData)
    requires CacheWellTyped(c1) && CacheWellTyped(c2)
    requires forall a | a in sel :: |sel[a].data| >= MinDataPoints && HasOptions(c1, a)
    requires forall k | k in c1 :: k in c2 && c2[k] == c1[k]
    requires |e.data| >= MinDataPoints
    ensures Inputs(sel[e.asset := e], c2) == Inputs(sel, c1)[e.asset := (e, CachedOptions(c2, e.asset))]
  {
    var left, right := Inputs(sel[e.asset := e], c2), Inputs(sel, c1)[e.asset := (e, CachedOptions(c2, e.asset))];
    forall a | a in left
      ensures left[a] == right[a]
    {
      if a != e.asset {
        assert CachedOptions(c1, a) == CachedOptions(c2, a);
      }
    }
  }

  lemma QualifiesStep(history: seq<AssetData>, a: string)
    requires history != []
    ensures var e := history[|history| - 1];
            Qualifies(history, a) <==> (e.asset == a && |e.data| >= MinDataPoints) || Qualifies(history[..|history| - 1], a)
  {
    var init := history[..|history| - 1];
    if Qualifies(init, a) {
      var j :| 0 <= j < |init| && init[j].asset == a && |init[j].data| >= MinDataPoints;
      assert history[j] == init[j];
    }
    if Qualifies(history, a) {
      var j :| 0 <= j < |history| && history[j].asset == a && |history[j].data| >= MinDataPoints;
      if j < |init| {
        assert init[j] == history[j];
      }
    }
    var e := history[|history| - 1];
    if e.asset == a && |e.data| >= MinDataPoints {
      assert history[|history| - 1] == e;
    }
  }

  /** An asset is selected exactly when some history entry of it has at least 21
      points, and then the entry selected is the last such entry. */
  lemma {:induction false} SelectedAt(history: seq<AssetData>, a: string)
    ensures a in Selected(history) <==> Qualifies(history, a)
    ensures a in Selected(history) ==> Selected(history)[a] == LastQualifying(history, a)
    decreases |history|
  {
    if history != [] {
      SelectedAt(history[..|history| - 1], a);
      QualifiesStep(history, a);
    }
  }

  lemma SelectedStep(history: seq<AssetData>, i: nat)
    requires i < |history|
    ensures Selected(history[..i + 1])
            == if |history[i].data| >= MinDataPoints then Selected(history[..i])[history[i].asset := history[i]] else Selected(history[..i])
  {
    assert history[..i + 1][..i] == history[..i];
  }

  /** One step of the metrics loop: an entry with enough points adds its metrics,
      read with the options now cached for its asset. */
  lemma VolatilityStep(m: Math, history: seq<AssetData>, i: nat, c1: map<string, CacheEntry>,
                       c2: map<string, CacheEntry>, metrics: VolatilityEntry, now: Millis)
    requires Lawful(m) && i < |history| && |history[i].data| >= MinDataPoints
    requires CacheWellTyped(c1) && CacheWellTyped(c2)
    requires forall a | a in Selected(history[..i]) :: HasOptions(c1, a)
    requires forall k | k in c1 :: k in c2 && c2[k] == c1[k]
    requires HasOptions(c2, history[i].asset)
    requires metrics == Metrics(m, history[i], CachedOptions(c2, history[i].asset), now)
    ensures MetricsOf(m, Inputs(Selected(history[..i + 1]), c2), now)
            == MetricsOf(m, Inputs(Selected(history[..i]), c1), now)[history[i].asset := metrics]
  {
    SelectedStep(history, i);
    var sel, e := Selected(history[..i]), history[i];
    var input := (e, CachedOptions(c2, e.asset));
    InputsStep(sel, c1, c2, e);
    var before := Inputs(sel, c1);
    assert Inputs(Selected(history[..i + 1]), c2) == before[e.asset := input];
    MetricsOfUpdate(m, before, e.asset, input, now);
  }

  /** After an entry's options are fetched every asset selected so far has options. */
  lemma OptionsStep(history: seq<AssetData>, i: nat, c1: map<string, CacheEntry>, c2: map<string, CacheEntry>)
    requires i < |history| && |history[i].data| >= MinDataPoints
    requires forall a | a in Selected(history[..i]) :: HasOptions(c1, a)
    requires forall k | k in c1 :: k in c2 && c2[k] == c1[k]
    requires HasOptions(c2, history[i].asset)
    ensures forall a | a in Selected(history[..i + 1]) :: HasOptions(c2, a)
  {
    SelectedStep(history, i);
  }

  /** The other step of the metrics loop: an entry with too few points changes nothing. */
  lemma VolatilitySkip(m: Math, history: seq<AssetData>, i: nat, cache: map<string, CacheEntry>,
                       volatility: map<string, VolatilityEntry>, now: Millis)
    requires Lawful(m) && i < |history| && |history[i].data| < MinDataPoints
    requires CacheWellTyped(cache)
    requires forall a | a in Selected(history[..i]) :: HasOptions(cache, a)
    requires volatility == MetricsOf(m, Inputs(Selected(history[..i]), cache), now)
    ensures forall a | a in Selected(history[..i + 1]) :: HasOptions(cache, a)
    ensures volatility == MetricsOf(m, Inputs(Selected(history[..i + 1]), cache), now)
  {
    SelectedStep(history, i);
  }

  // ---------------------------------------------------------- market context

  /** The `{ sentiment, volatility, accountBalance, lastDAPPUpdate }` object pushed for
      one symbol; a missing volatility entry is a present key holding `undefined`. */
  function DappPatch(results: Results, assetKey: string, now: Millis): (p: Slot)
    ensures p.Keys == {"sentiment", "volatility", "accountBalance", "lastDAPPUpdate"}
    ensures SentimentAt(p, "sentiment") == Some(results.sentiment)
    ensures VolatilityAt(p, "volatility") == (if assetKey in results.volatility then Some(results.volatility[assetKey]) else None)
    ensures p["volatility"] == Undefined <==> assetKey !in results.volatility
    ensures BalanceAt(p, "accountBalance") == Some(results.accountBalance)
    ensures p["lastDAPPUpdate"] == TimeValue(now)
  {
    map["sentiment" := SentimentValue(results.sentiment),
        "volatility" := (if assetKey in results.volatility then VolatilityValue(results.volatility[assetKey]) else Undefined),
        "accountBalance" := BalanceValue(results.accountBalance),
        "lastDAPPUpdate" := TimeValue(now)]
  }

  /** The market context's data after `updateData('dapp', symbol, patch)` for each
      symbol in order. */
  function DappUpdates(data: map<string, map<string, Slot>>, symbols: seq<string>, results: Results, now: Millis)
    : map<string, map<string, Slot>>
    decreases |symbols|
  {
    if symbols == [] then data
    else
      var sym := symbols[|symbols| - 1];
      MarketContext.Updated(DappUpdates(data, symbols[..|symbols| - 1], results, now), "dapp", sym,
                            DappPatch(results, AssetKey(sym), now), now)
  }

  /** After the updates a configured symbol's 'dapp' slot carries this cycle's
      sentiment, balance, stamp and its asset's volatility; its exchange slots, and
      every other symbol, are as they were. */
  lemma {:induction false} DappUpdatesAt(data: map<string, map<string, Slot>>, symbols: seq<string>,
                                         results: Results, now: Millis, s: string)
    ensures var d := DappUpdates(data, symbols, results, now);
            && (s in d <==> s in data || s in symbols)
            && (s in data && s !in symbols ==> d[s] == data[s])
            && (s in symbols ==> "dapp" in d[s] && DappSlotFits(d[s]["dapp"], results, AssetKey(s), now))
            && (s in data ==> forall src | src in data[s] && src != "dapp" :: src in d[s] && d[s][src] == data[s][src])
    decreases |symbols|
  {
    if symbols != [] {
      var init := symbols[..|symbols| - 1];
      var sym := symbols[|symbols| - 1];
      DappUpdatesAt(data, init, results, now, s);
      assert s in symbols <==> s in init || s == sym;
      DappUpdateOne(data, DappUpdates(data, init, results, now), sym, s, s in init, results, now);
    }
  }

  /** What DappUpdatesAt states about symbol `s`, with `updated` saying whether `s`
      was among the symbols updated. */
  predicate DappState(data: map<string, map<string, Slot>>, updated: bool, d: map<string, map<string, Slot>>,
                      s: string, results: Results, now: Millis)
  {
    && (s in d <==> s in data || updated)
    && (s in data && !updated ==> d[s] == data[s])
    && (updated ==> "dapp" in d[s] && DappSlotFits(d[s]["dapp"], results, AssetKey(s), now))
    && (s in data ==> forall src | src in data[s] && src != "dapp" :: src in d[s] && d[s][src] == data[s][src])
  }

  /** One more 'dapp' update keeps DappState, and marks `s` updated when it is the symbol. */
  lemma DappUpdateOne(data: map<string, map<string, Slot>>, prev: map<string, map<string, Slot>>, sym: string,
                      s: string, updated: bool, results: Results, now: Millis)
    requires DappState(data, updated, prev, s, results, now)
    ensures DappState(data, updated || s == sym,
                      MarketContext.Updated(prev, "dapp", sym, DappPatch(results, AssetKey(sym), now), now), s, results, now)
  {
    if s == sym {
      var sd := if sym in prev then prev[sym] else map[];
      DappMergeFits(MarketContext.SlotOf(sd, "dapp"), results, AssetKey(sym), now);
    }
  }

  lemma DappMergeFits(prev: Slot, results: Results, assetKey: string, now: Millis)
    ensures DappSlotFits(Merge(prev, DappPatch(results, assetKey, now), now), results, assetKey, now)
  {
    var p := DappPatch(results, assetKey, now);
    var r := Merge(prev, p, now);
    assert r["sentiment"] == p["sentiment"] && r["accountBalance"] == p["accountBalance"];
    assert r["lastDAPPUpdate"] == p["lastDAPPUpdate"] && r["volatility"] == p["volatility"];
  }

  lemma DappUpdatesStep(data: map<string, map<string, Slot>>, symbols: seq<string>, i: nat, results: Results, now: Millis)
    requires i < |symbols|
    ensures DappUpdates(data, symbols[..i + 1], results, now)
            == MarketContext.Updated(DappUpdates(data, symbols[..i], results, now), "dapp", symbols[i],
                                     DappPatch(results, AssetKey(symbols[i]), now), now)
  {
    assert symbols[..i + 1][..i] == symbols[..i];
  }

  /** The data after the update of `symbols[i]` is the data of the updates up to it. */
  lemma DappUpdatesNext(data: map<string, map<string, Slot>>, symbols: seq<string>, i: nat, results: Results,
                        now: Millis, before: map<string, map<string, Slot>>, after: map<string, map<string, Slot>>)
    requires i < |symbols| && before == DappUpdates(data, symbols[..i], results, now)
    requires after == MarketContext.Updated(before, "dapp", symbols[i], DappPatch(results, AssetKey(symbols[i]), now), now)
    ensures after == DappUpdates(data, symbols[..i + 1], results, now)
  {
    DappUpdatesStep(data, symbols, i, results, now);
  }

  /** A 'dapp' slot after a merge of this cycle's patch for `assetKey`. */
  predicate DappSlotFits(slot: Slot, results: Results, assetKey: string, now: Millis)
  {
    && SentimentAt(slot, "sentiment") == Some(results.sentiment)
    && BalanceAt(slot, "accountBalance") == Some(results.accountBalance)
    && TimeOrZero(slot, "lastDAPPUpdate") == now
    && VolatilityAt(slot, "volatility") == (if assetKey in results.volatility then Some(results.volatility[assetKey]) else None)
  }

  /** The reading checked for alerts: volatility and price from the asset's
      metrics (undefined for an error entry or none), compound sentiment. */
  function AlertReading(results: Results, assetKey: string): (r: AlertManager.Reading)
    ensures r.sentiment == Some(results.sentiment.overall.compound)
    ensures r.volatility.Some? <==> assetKey in results.volatility && results.volatility[assetKey].VolOk?
    ensures r.price.Some? <==> r.volatility.Some?
  {
    var vol := if assetKey in results.volatility then Some(results.volatility[assetKey]) else None;
    AlertManager.Reading(
      if vol.Some? && vol.value.VolOk? then Some(vol.value.historicalVolatility) else None,
      Some(results.sentiment.overall.compound),
      if vol.Some? && vol.value.VolOk? then Some(vol.value.spotPrice) else None)
  }

  /** The alerts raised and the previous values left after checking each symbol in order. */
  function AlertRound(previous: map<string, real>, t: AlertManager.Thresholds, results: Results, symbols: seq<string>)
    : (r: (seq<AlertManager.Alert>, map<string, real>))
    ensures |r.0| <= 3 * |symbols|
    decreases |symbols|
  {
    if symbols == [] then ([], previous)
    else
      var before := AlertRound(previous, t, results, symbols[..|symbols| - 1]);
      var sym := symbols[|symbols| - 1];
      var reading := AlertReading(results, AssetKey(sym));
      (before.0 + AlertManager.Detect(before.1, t, reading, sym), AlertManager.Remember(before.1, reading, sym))
  }

  lemma AlertRoundStep(previous: map<string, real>, t: AlertManager.Thresholds, results: Results, symbols: seq<string>, i: nat)
    requires i < |symbols|
    ensures var before := AlertRound(previous, t, results, symbols[..i]);
            var reading := AlertReading(results, AssetKey(symbols[i]));
            AlertRound(previous, t, results, symbols[..i + 1])
            == (before.0 + AlertManager.Detect(before.1, t, reading, symbols[i]), AlertManager.Remember(before.1, reading, symbols[i]))
  {
    assert symbols[..i + 1][..i] == symbols[..i];
  }

  /** The alert manager's state after checking `symbols[i]` is the state of the
      round up to it. */
  lemma AlertRoundNext(previous: map<string, real>, t: AlertManager.Thresholds, results: Results,
                       symbols: seq<string>, i: nat, raised: seq<AlertManager.Alert>, before: map<string, real>,
                       newAlerts: seq<AlertManager.Alert>, after: map<string, real>)
    requires i < |symbols|
    requires (raised, before) == AlertRound(previous, t, results, symbols[..i])
    requires newAlerts == AlertManager.Detect(before, t, AlertReading(results, AssetKey(symbols[i])), symbols[i])
    requires after == AlertManager.Remember(before, AlertReading(results, AssetKey(symbols[i])), symbols[i])
    ensures (raised + newAlerts, after) == AlertRound(previous, t, results, symbols[..i + 1])
  {
    AlertRoundStep(previous, t, results, symbols, i);
  }

  /** The capped log after appending this symbol's alerts is the cap of the whole
      log since the round began. */
  lemma AlertLogNext(alerts0: seq<AlertManager.Alert>, raised: seq<AlertManager.Alert>,
                     current: seq<AlertManager.Alert>, newAlerts: seq<AlertManager.Alert>)
    requires current == LastN(alerts0 + raised, AlertManager.MaxAlerts)
    ensures LastN(current + newAlerts, AlertManager.MaxAlerts) == LastN(alerts0 + (raised + newAlerts), AlertManager.MaxAlerts)
  {
    LastNAppend(alerts0 + raised, newAlerts, AlertManager.MaxAlerts);
    assert alerts0 + raised + newAlerts == alerts0 + (raised + newAlerts);
  }

  /** The results `handlePipelineError` pushes: cached history and sentiment (or
      the fallback), no volatility, and the placeholder balance. */
  function ErrorResults(cache: map<string, CacheEntry>, now: Millis): (r: Results)
    ensures r.volatility == map[]
    ensures SentimentKey !in cache ==> r.sentiment == FallbackSentiment(now)
  {
    Results(
      if HistoricalKey in cache && cache[HistoricalKey].HistoricalEntry? then cache[HistoricalKey].history else [],
      if SentimentKey in cache && cache[SentimentKey].SentimentEntry? then cache[SentimentKey].sentiment else FallbackSentiment(now),
      map[],
      AccountBalancePlaceholder(now))
  }

  /** On the error path every configured symbol's volatility is overwritten with
      `undefined`, so the fused view shows none until the next good cycle. */
  lemma ErrorPathClearsVolatility(data: map<string, map<string, Slot>>, symbols: seq<string>,
                                  cache: map<string, CacheEntry>, now: Millis, s: string)
    requires s in symbols
    ensures var d := DappUpdates(data, symbols, ErrorResults(cache, now), now);
            s in d && MarketContext.View(s, d[s]).aggregated.volatility.None?
  {
    DappUpdatesAt(data, symbols, ErrorResults(cache, now), now, s);
  }

  /** The `this.assets.map(...)` of `fetchHistoricalData()`, its calls taken one
      after the other: one breaker call per asset, each result recorded as that
      asset's entry. */
  method FetchEach(breaker: ErrorHandler.CircuitBreaker, now: Millis, feeds: Feeds,
                   cache: map<string, CacheEntry>, assets: seq<string>) returns (history: seq<AssetData>)
    requires breaker.Valid()
    modifies breaker
    ensures breaker.Valid()
    ensures (history, breaker.Snapshot()) == FetchAll(old(breaker.Snapshot()), now, feeds, cache, assets)
  {
    ghost var b0 := breaker.Snapshot();
    history := [];
    for i := 0 to |assets|
      invariant breaker.Valid()
      invariant (history, breaker.Snapshot()) == FetchAll(b0, now, feeds, cache, assets[..i])
    {
      var asset := assets[i];
      ghost var step := HistoryStep(breaker.Snapshot(), now, feeds, cache, asset);
      assert assets[..i + 1][..i] == assets[..i];
      assert FetchAll(b0, now, feeds, cache, assets[..i + 1]) == (history + [AssetEntry(asset, step.result)], step.after);
      var outcome: Result<HistoryResponse, string> := match feeds.history(asset)
        case Ok(prices) => Ok(Prices(prices))
        case Err(e) => Err(e);
      var response, _ := breaker.Execute(now, outcome, Some(FallbackArray(CachedPoints(cache, asset))));
      history := history + [AssetEntry(asset, response)];
    }
    assert assets[..|assets|] == assets;
  }

  // ---------------------------------------------------------------- pipeline

  class DataAcquisitionPipeline {
    const interval: int
    const assets: seq<string>
    const symbols: seq<string>
    const alertManager: AlertManager.AlertManager?
    const coinGeckoCircuitBreaker: ErrorHandler.CircuitBreaker
    const deltaCircuitBreaker: ErrorHandler.CircuitBreaker
    const sentimentCircuitBreaker: ErrorHandler.CircuitBreaker
    var cache: map<string, CacheEntry>
    var isRunning: bool
    var intervalId: Option<nat>
    var marketContext: MarketContext.MarketContext?
    var lastUpdate: Option<Millis>

    ghost predicate Valid()
      reads this, coinGeckoCircuitBreaker, sentimentCircuitBreaker, marketContext, alertManager
    {
      && coinGeckoCircuitBreaker.Valid() && sentimentCircuitBreaker.Valid()
      && coinGeckoCircuitBreaker != sentimentCircuitBreaker
      && (marketContext != null ==> marketContext.Valid())
      && (alertManager != null ==> alertManager.Valid())
      && CacheWellTyped(cache)
    }

    /** `new DataAcquisitionPipeline(options)`: absent (or, for the interval, zero)
        options take their defaults; an empty list is kept as given. */
    constructor (interval: Option<int>, assets: Option<seq<string>>, symbols: Option<seq<string>>,
                 alertManager: AlertManager.AlertManager?)
      requires alertManager != null ==> alertManager.Valid()
      ensures Valid()
      ensures this.interval == (if interval.Some? && interval.value != 0 then interval.value else DefaultInterval)
      ensures this.assets == (if assets.Some? then assets.value else DefaultAssets)
      ensures this.symbols == (if symbols.Some? then symbols.value else DefaultSymbols)
      ensures this.alertManager == alertManager
      ensures coinGeckoCircuitBreaker.Snapshot() == ErrorHandler.InitialBreaker(5, 60000)
      ensures deltaCircuitBreaker.Snapshot() == ErrorHandler.InitialBreaker(5, 60000)
      ensures sentimentCircuitBreaker.Snapshot() == ErrorHandler.InitialBreaker(3, 300000)
      ensures cache == map[] && !isRunning && intervalId.None? && marketContext == null && lastUpdate.None?
    {
      this.interval := if interval.Some? && interval.value != 0 then interval.value else DefaultInterval;
      this.assets := if assets.Some? then assets.value else DefaultAssets;
      this.symbols := if symbols.Some? then symbols.value else DefaultSymbols;
      this.alertManager := alertManager;
      coinGeckoCircuitBreaker := new ErrorHandler.CircuitBreaker(5, 60000);
      deltaCircuitBreaker := new ErrorHandler.CircuitBreaker(5, 60000);
      sentimentCircuitBreaker := new ErrorHandler.CircuitBreaker(3, 300000);
      cache := map[];
      isRunning := false;
      intervalId := None;
      marketContext := null;
      lastUpdate := None;
    }

    /** `start(marketContext)`: a no-op while running; otherwise stores the context
        and the interval timer. The immediate first cycle and every timer firing
        are separate `Run` calls. */
    method Start(context: MarketContext.MarketContext?, timer: nat)
      requires Valid()
      requires context != null ==> context.Valid()
      modifies this
      ensures Valid()
      ensures old(isRunning) ==> isRunning && marketContext == old(marketContext) && intervalId == old(intervalId)
      ensures !old(isRunning) ==> isRunning && marketContext == context && intervalId == Some(timer)
      ensures cache == old(cache) && lastUpdate == old(lastUpdate)
    {
      if isRunning {
        return;
      }
      marketContext := context;
      isRunning := true;
      intervalId := Some(timer);
    }

    /** `stop()`: clears the timer, if any, and the running flag. */
    method Stop()
      requires Valid()
      modifies this
      ensures Valid()
      ensures !isRunning && intervalId.None?
      ensures marketContext == old(marketContext) && cache == old(cache) && lastUpdate == old(lastUpdate)
    {
      if intervalId.Some? {
        intervalId := None;
      }
      isRunning := false;
    }

    /** `fetchHistoricalData()`: the cached history if there is one; otherwise one
        breaker call per asset, each failure recorded as that asset's error entry,
        and the whole result cached. */
    method FetchHistoricalData(now: Millis, feeds: Feeds) returns (history: seq<AssetData>)
      requires Valid()
      modifies this, coinGeckoCircuitBreaker
      ensures Valid()
      ensures HistoricalKey in old(cache) ==>
        history == old(cache)[HistoricalKey].history && cache == old(cache)
        && coinGeckoCircuitBreaker.Snapshot() == old(coinGeckoCircuitBreaker.Snapshot())
      ensures HistoricalKey !in old(cache) ==>
        (history, coinGeckoCircuitBreaker.Snapshot())
          == FetchAll(old(coinGeckoCircuitBreaker.Snapshot()), now, feeds, old(cache), assets)
        && cache == old(cache)[HistoricalKey := HistoricalEntry(history)]
      ensures isRunning == old(isRunning) && marketContext == old(marketContext) && lastUpdate == old(lastUpdate)
    {
      if HistoricalKey in cache {
        return cache[HistoricalKey].history;
      }
      history := FetchEach(coinGeckoCircuitBreaker, now, feeds, cache, assets);
      cache := cache[HistoricalKey := HistoricalEntry(history)];
    }

    /** `fetchMarketSentiment()`: the cached sentiment if there is one; otherwise the
        breaker's result (the fallback when it is open), cached; if the breaker
        call fails the fallback is returned without caching it. */
    method FetchMarketSentiment(now: Millis, feeds: Feeds) returns (sentiment: Sentiment)
      requires Valid()
      modifies this, sentimentCircuitBreaker
      ensures Valid()
      ensures SentimentKey in old(cache) ==>
        sentiment == old(cache)[SentimentKey].sentiment && cache == old(cache)
        && sentimentCircuitBreaker.Snapshot() == old(sentimentCircuitBreaker.Snapshot())
      ensures SentimentKey !in old(cache) ==>
        var step := ErrorHandler.Run(old(sentimentCircuitBreaker.Snapshot()), now, feeds.sentiment, Some(FallbackSentiment(now)));
        && sentimentCircuitBreaker.Snapshot() == step.after
        && (step.result.Ok? ==> sentiment == step.result.value && cache == old(cache)[SentimentKey := SentimentEntry(sentiment)])
        && (step.result.Err? ==> sentiment == FallbackSentiment(now) && cache == old(cache))
      ensures isRunning == old(isRunning) && marketContext == old(marketContext) && lastUpdate == old(lastUpdate)
    {
      if SentimentKey in cache {
        return cache[SentimentKey].sentiment;
      }
      var result, _ := sentimentCircuitBreaker.Execute(now, feeds.sentiment, Some(FallbackSentiment(now)));
      match result {
        case Ok(s) =>
          sentiment := s;
          cache := cache[SentimentKey := SentimentEntry(sentiment)];
        case Err(_) =>
          sentiment := FallbackSentiment(now);
      }
    }

    /** `fetchOptionsData(asset)`: the cached options if any; otherwise Delta's
        formatted chain for the asset's underlying, cached (even when empty). */
    method FetchOptionsData(asset: string, now: Millis, feeds: Feeds) returns (options: seq<DeltaClient.DeltaOption>)
      requires CacheWellTyped(cache)
      modifies this`cache
      ensures CacheWellTyped(cache)
      ensures forall o | o in options :: DeltaClient.Tradable(o)
      ensures HasOptions(cache, asset) && cache[OptionsKey(asset)].options == options
      ensures OptionsKey(asset) in old(cache) ==> cache == old(cache)
      ensures OptionsKey(asset) !in old(cache) ==>
        options == DeltaClient.GetOptionsData(feeds.options(OptionsSymbol(asset)), now)
        && cache == old(cache)[OptionsKey(asset) := OptionsEntry(options)]
    {
      var key := OptionsKey(asset);
      OptionsKeyDistinct(asset);
      if key in cache {
        return cache[key].options;
      }
      options := DeltaClient.GetOptionsData(feeds.options(OptionsSymbol(asset)), now);
      cache := cache[key := OptionsEntry(options)];
    }

    /** `calculateVolatilityMetrics(historicalData)`: metrics for every asset with at
        least 21 points, with spot price the last price and implied volatility from
        the asset's options (null when there are none). With at least 21 points the
        historical volatility cannot fail, so the catch branch is never taken. */
    method CalculateVolatilityMetrics(m: Math, history: seq<AssetData>, now: Millis, feeds: Feeds)
      returns (volatility: map<string, VolatilityEntry>)
      requires Lawful(m) && CacheWellTyped(cache)
      modifies this`cache
      ensures CacheWellTyped(cache)
      ensures forall a | a in Selected(history) :: HasOptions(cache, a)
      ensures volatility == MetricsOf(m, Inputs(Selected(history), cache), now)
      ensures forall k | k in old(cache) :: k in cache && cache[k] == old(cache)[k]
    {
      volatility := map[];
      var i := 0;
      while i < |history|
        invariant 0 <= i <= |history|
        invariant CacheWellTyped(cache)
        invariant forall k | k in old(cache) :: k in cache && cache[k] == old(cache)[k]
        invariant forall a | a in Selected(history[..i]) :: HasOptions(cache, a)
        invariant volatility == MetricsOf(m, Inputs(Selected(history[..i]), cache), now)
      {
        if |history[i].data| >= MinDataPoints {
          volatility := AddAssetMetrics(m, history, i, volatility, now, feeds);
        } else {
          VolatilitySkip(m, history, i, cache, volatility, now);
        }
        i := i + 1;
      }
      assert history[..i] == history;
    }

    /** The loop body for an entry with enough points: its metrics are added under
        its asset. */
    method AddAssetMetrics(m: Math, history: seq<AssetData>, i: nat, volatility: map<string, VolatilityEntry>,
                           now: Millis, feeds: Feeds) returns (next: map<string, VolatilityEntry>)
      requires Lawful(m) && CacheWellTyped(cache) && i < |history| && |history[i].data| >= MinDataPoints
      requires forall a | a in Selected(history[..i]) :: HasOptions(cache, a)
      requires volatility == MetricsOf(m, Inputs(Selected(history[..i]), cache), now)
      modifies this`cache
      ensures CacheWellTyped(cache)
      ensures forall k | k in old(cache) :: k in cache && cache[k] == old(cache)[k]
      ensures forall a | a in Selected(history[..i + 1]) :: HasOptions(cache, a)
      ensures next == MetricsOf(m, Inputs(Selected(history[..i + 1]), cache), now)
    {
      ghost var before := cache;
      var metrics := AssetMetrics(m, history[i], now, feeds);
      OptionsStep(history, i, before, cache);
      VolatilityStep(m, history, i, before, cache, metrics, now);
      next := volatility[history[i].asset := metrics];
    }

    /** The body of the loop for one asset with enough points: historical volatility
        of its prices, spot price its last price, implied volatility from its options. */
    method AssetMetrics(m: Math, entry: AssetData, now: Millis, feeds: Feeds) returns (metrics: VolatilityEntry)
      requires Lawful(m) && CacheWellTyped(cache) && |entry.data| >= MinDataPoints
      modifies this`cache
      ensures CacheWellTyped(cache) && HasOptions(cache, entry.asset)
      ensures forall k | k in old(cache) :: k in cache && cache[k] == old(cache)[k]
      ensures metrics == Metrics(m, entry, CachedOptions(cache, entry.asset), now)
    {
      var prices := PricesOf(entry.data);
      var hv := CalculateHistoricalVolatility(m, prices);
      var spotPrice := prices[|prices| - 1];
      var options := FetchOptionsData(entry.asset, now, feeds);
      var iv: Option<real> := None;
      if |options| > 0 {
        // The source hands over the formatted options, whose `expiration` is the ISO date.
        iv := CalculateAverageIV(m, QuotesAsWritten(options), spotPrice);
        AsWrittenImpliedVolatilityIsNull(m, options, spotPrice);
      }
      assert options == CachedOptions(cache, entry.asset);
      assert hv.value == HistoricalVolatility(m, prices, HvWindow);
      assert iv.None?;
      metrics := VolOk(hv.value, iv, spotPrice, now);
    }

    /** `updateMarketContext(results)`: for each configured symbol, in order, the
        'dapp' patch of its asset is pushed into the context and, with an alert
        manager, the symbol's reading is checked; nothing happens without a context. */
    method UpdateMarketContext(results: Results, now: Millis, connected: set<MarketContext.SocketId>)
      requires Valid()
      modifies marketContext, alertManager
      ensures Valid()
      ensures marketContext != null ==>
        marketContext.data == DappUpdates(old(marketContext.data), symbols, results, now)
        && marketContext.subscribers == old(marketContext.subscribers)
        && marketContext.activeSubscriptions == old(marketContext.activeSubscriptions)
      ensures marketContext != null && alertManager != null ==>
        var round := AlertRound(old(alertManager.previousData), old(alertManager.alertThresholds), results, symbols);
        alertManager.previousData == round.1 && alertManager.alerts == LastN(old(alertManager.alerts) + round.0, AlertManager.MaxAlerts)
        && alertManager.alertThresholds == old(alertManager.alertThresholds)
      ensures marketContext == null && alertManager != null ==>
        alertManager.alerts == old(alertManager.alerts) && alertManager.previousData == old(alertManager.previousData)
        && alertManager.alertThresholds == old(alertManager.alertThresholds)
    {
      var context := marketContext;
      if context == null {
        return;
      }
      ghost var data0 := context.data;
      ghost var alerts0 := if alertManager != null then alertManager.alerts else [];
      assert alertManager != null ==> LastN(alerts0, AlertManager.MaxAlerts) == alerts0;
      ghost var raised: seq<AlertManager.Alert> := [];
      var i := 0;
      while i < |symbols|
        invariant 0 <= i <= |symbols|
        invariant context.Valid()
        invariant alertManager != null ==> alertManager.Valid()
        invariant context.data == DappUpdates(data0, symbols[..i], results, now)
        invariant context.subscribers == old(context.subscribers)
        invariant context.activeSubscriptions == old(context.activeSubscriptions)
        invariant alertManager != null ==>
          (var round := AlertRound(old(alertManager.previousData), old(alertManager.alertThresholds), results, symbols[..i]);
           && alertManager.previousData == round.1 && raised == round.0
           && alertManager.alerts == LastN(alerts0 + raised, AlertManager.MaxAlerts)
           && alertManager.alertThresholds == old(alertManager.alertThresholds))
      {
        ghost var before := context.data;
        ghost var previousData := if alertManager != null then alertManager.previousData else map[];
        ghost var current := if alertManager != null then alertManager.alerts else [];
        ghost var newAlerts := UpdateSymbol(context, symbols[i], results, now, connected);
        DappUpdatesNext(data0, symbols, i, results, now, before, context.data);
        if alertManager != null {
          AlertRoundNext(old(alertManager.previousData), old(alertManager.alertThresholds), results, symbols, i,
                         raised, previousData, newAlerts, alertManager.previousData);
          AlertLogNext(alerts0, raised, current, newAlerts);
        }
        raised := raised + newAlerts;
        i := i + 1;
      }
      assert symbols[..i] == symbols;
    }

    /** The loop body for one symbol: its 'dapp' patch pushed into the context, then
        its reading checked by the alert manager, if any. */
    method UpdateSymbol(context: MarketContext.MarketContext, symbol: string, results: Results, now: Millis,
                        connected: set<MarketContext.SocketId>)
      returns (ghost raised: seq<AlertManager.Alert>)
      requires context.Valid() && (alertManager != null ==> alertManager.Valid())
      modifies context, alertManager
      ensures context.Valid()
      ensures context.data == MarketContext.Updated(old(context.data), "dapp", symbol, DappPatch(results, AssetKey(symbol), now), now)
      ensures context.subscribers == old(context.subscribers)
      ensures context.activeSubscriptions == old(context.activeSubscriptions)
      ensures alertManager == null ==> raised == []
      ensures alertManager != null ==>
        (var reading := AlertReading(results, AssetKey(symbol));
         && alertManager.Valid()
         && raised == AlertManager.Detect(old(alertManager.previousData), old(alertManager.alertThresholds), reading, symbol)
         && alertManager.previousData == AlertManager.Remember(old(alertManager.previousData), reading, symbol)
         && alertManager.alerts == LastN(old(alertManager.alerts) + raised, AlertManager.MaxAlerts)
         && alertManager.alertThresholds == old(alertManager.alertThresholds))
    {
      var assetKey := AssetKey(symbol);
      var _, _ := context.UpdateData("dapp", symbol, DappPatch(results, assetKey, now), now, connected);
      raised := [];
      if alertManager != null {
        raised := alertManager.CheckForAlerts(AlertReading(results, assetKey), symbol);
      }
    }

    /** `handlePipelineError()`: when the cache holds history or sentiment, the
        context is updated from the cache, the fallback sentiment standing in for
        missing sentiment and with no volatility; otherwise nothing happens. */
    method HandlePipelineError(now: Millis, connected: set<MarketContext.SocketId>)
      requires Valid()
      modifies marketContext, alertManager
      ensures Valid()
      ensures HistoricalKey !in cache && SentimentKey !in cache && marketContext != null ==>
        marketContext.data == old(marketContext.data)
      ensures (HistoricalKey in cache || SentimentKey in cache) && marketContext != null ==>
        marketContext.data == DappUpdates(old(marketContext.data), symbols, ErrorResults(cache, now), now)
      ensures marketContext != null ==>
        marketContext.subscribers == old(marketContext.subscribers)
        && marketContext.activeSubscriptions == old(marketContext.activeSubscriptions)
      ensures (HistoricalKey in cache || SentimentKey in cache) && marketContext != null && alertManager != null ==>
        var round := AlertRound(old(alertManager.previousData), old(alertManager.alertThresholds), ErrorResults(cache, now), symbols);
        alertManager.previousData == round.1 && alertManager.alerts == LastN(old(alertManager.alerts) + round.0, AlertManager.MaxAlerts)
      ensures ((HistoricalKey !in cache && SentimentKey !in cache) || marketContext == null) && alertManager != null ==>
        alertManager.alerts == old(alertManager.alerts) && alertManager.previousData == old(alertManager.previousData)
      ensures alertManager != null ==> alertManager.alertThresholds == old(alertManager.alertThresholds)
    {
      if HistoricalKey in cache || SentimentKey in cache {
        UpdateMarketContext(ErrorResults(cache, now), now, connected);
      }
    }

    /** One cycle `run()` at time `now`: history, sentiment, volatility and balance,
        pushed into the context; the cycle completes and records `now`. */
    method Run(m: Math, now: Millis, feeds: Feeds, connected: set<MarketContext.SocketId>) returns (results: Results)
      requires Valid() && Lawful(m)
      modifies this, coinGeckoCircuitBreaker, sentimentCircuitBreaker, marketContext, alertManager
      ensures Valid()
      ensures lastUpdate == Some(now)
      ensures results.accountBalance == AccountBalancePlaceholder(now)
      ensures results.volatility == MetricsOf(m, Inputs(Selected(results.historicalData), cache), now)
      ensures marketContext == old(marketContext) && isRunning == old(isRunning)
      ensures marketContext != null ==>
        marketContext.data == DappUpdates(old(marketContext.data), symbols, results, now)
      ensures results.historicalData
        == if HistoricalKey in old(cache) then old(cache)[HistoricalKey].history
           else FetchAll(old(coinGeckoCircuitBreaker.Snapshot()), now, feeds, old(cache), assets).0
      ensures results.sentiment
        == if SentimentKey in old(cache) then old(cache)[SentimentKey].sentiment
           else var step := ErrorHandler.Run(old(sentimentCircuitBreaker.Snapshot()), now, feeds.sentiment, Some(FallbackSentiment(now)));
                if step.result.Ok? then step.result.value else FallbackSentiment(now)
      ensures marketContext != null && alertManager != null ==>
        var round := AlertRound(old(alertManager.previousData), old(alertManager.alertThresholds), results, symbols);
        alertManager.previousData == round.1 && alertManager.alerts == LastN(old(alertManager.alerts) + round.0, AlertManager.MaxAlerts)
      ensures marketContext == null && alertManager != null ==>
        alertManager.alerts == old(alertManager.alerts) && alertManager.previousData == old(alertManager.previousData)
    {
      results := Collect(m, now, feeds);
      UpdateMarketContext(results, now, connected);
      lastUpdate := Some(now);
    }

    /** The fetching half of `run()`: history, sentiment, volatility and balance. */
    method Collect(m: Math, now: Millis, feeds: Feeds) returns (results: Results)
      requires Valid() && Lawful(m)
      modifies this, coinGeckoCircuitBreaker, sentimentCircuitBreaker
      ensures Valid()
      ensures results.accountBalance == AccountBalancePlaceholder(now)
      ensures results.volatility == MetricsOf(m, Inputs(Selected(results.historicalData), cache), now)
      ensures marketContext == old(marketContext) && isRunning == old(isRunning) && lastUpdate == old(lastUpdate)
      ensures results.historicalData
        == if HistoricalKey in old(cache) then old(cache)[HistoricalKey].history
           else FetchAll(old(coinGeckoCircuitBreaker.Snapshot()), now, feeds, old(cache), assets).0
      ensures results.sentiment
        == if SentimentKey in old(cache) then old(cache)[SentimentKey].sentiment
           else var step := ErrorHandler.Run(old(sentimentCircuitBreaker.Snapshot()), now, feeds.sentiment, Some(FallbackSentiment(now)));
                if step.result.Ok? then step.result.value else FallbackSentiment(now)
    {
      var history := FetchHistoricalData(now, feeds);
      var sentiment := FetchMarketSentiment(now, feeds);
      var volatility := CalculateVolatilityMetrics(m, history, now, feeds);
      results := Results(history, sentiment, volatility, AccountBalancePlaceholder(now));
    }

    /** `getStatus()` without the cache statistics. */
    method GetStatus() returns (running: bool, every: int, assetList: seq<string>, symbolList: seq<string>, last: Option<Millis>)
      ensures running == isRunning && every == interval && assetList == assets && symbolList == symbols && last == lastUpdate
    {
      return isRunning, interval, assets, symbols, lastUpdate;
    }

    /** `clearCache()`: empties the pipeline's cache. */
    method ClearCache()
      requires Valid()
      modifies this`cache
      ensures Valid() && cache == map[]
    {
      cache := map[];
    }

    /** A cache entry reaching its time-to-live. */
    method Expire(key: string)
      requires Valid()
      modifies this`cache
      ensures Valid() && cache == old(cache) - {key}
    {
      cache := cache - {key};
    }
  }
}

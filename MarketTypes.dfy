/** The value shapes that flow between the exchange clients, the data pipeline
    and the market context: normalised exchange messages, sentiment and
    volatility results, and the per-exchange slot objects that are shallow-merged. */
module MarketTypes {
  import opened Common

  /** Milliseconds since the epoch (Date.now()). */
  type Millis = int

  /** One order-book price level. */
  datatype Level = Level(price: real, quantity: real)

  datatype Ticker = Ticker(
    symbol: string,
    price: real,
    volume: real,
    priceChange: real,
    priceChangePercent: real,
    high: real,
    low: real,
    timestamp: Millis)

  /** `pairs.map(([price, quantity]) => ({price, quantity}))` for the raw
      `[price, quantity]` pairs of a depth frame (already parsed to numbers). */
  function ToLevels(pairs: seq<(real, real)>): (r: seq<Level>)
    ensures |r| == |pairs|
    ensures forall i :: 0 <= i < |pairs| ==> r[i].price == pairs[i].0 && r[i].quantity == pairs[i].1
  {
    seq(|pairs|, i requires 0 <= i < |pairs| => Level(pairs[i].0, pairs[i].1))
  }

  datatype OrderBook = OrderBook(symbol: string, bids: seq<Level>, asks: seq<Level>, timestamp: Millis)

  datatype Trade = Trade(
    symbol: string,
    price: real,
    quantity: real,
    timestamp: Millis,
    isBuyerMaker: bool,
    tradeId: int)

  /** Positive / negative / neutral probabilities and their compound score. */
  datatype Scores = Scores(positive: real, negative: real, neutral: real, compound: real)

  /** A market-sentiment result; `error` is present on the fallback results. */
  datatype Sentiment = Sentiment(overall: Scores, articleCount: nat, timestamp: Millis, error: Option<string>)

  /** Per-asset volatility metrics, or the error recorded in their place. */
  datatype VolatilityEntry =
    | VolOk(historicalVolatility: real, impliedVolatility: Option<real>, spotPrice: real, timestamp: Millis)
    | VolErr(message: string, timestamp: Millis)

  datatype AccountBalance = AccountBalance(total: real, available: real, inOrders: real, timestamp: Millis)

  /** A property value of a slot object. `Undefined` is a key present with the
      value `undefined`, which a spread still copies over an earlier value. */
  datatype Value =
    | TickerValue(ticker: Ticker)
    | BookValue(book: OrderBook)
    | TradeValue(trade: Trade)
    | TimeValue(millis: Millis)
    | SentimentValue(sentiment: Sentiment)
    | VolatilityValue(volatility: VolatilityEntry)
    | BalanceValue(balance: AccountBalance)
    | Undefined

  /** A plain JavaScript object: property name to value. */
  type Slot = map<string, Value>

  /** `{...prev, ...patch, lastUpdate: now}`: later properties win. */
  function Merge(prev: Slot, patch: Slot, now: Millis): (r: Slot)
    ensures r.Keys == prev.Keys + patch.Keys + {"lastUpdate"}
    ensures r["lastUpdate"] == TimeValue(now)
    ensures forall k | k in patch && k != "lastUpdate" :: r[k] == patch[k]
    ensures forall k | k in prev && k !in patch && k != "lastUpdate" :: r[k] == prev[k]
  {
    prev + patch + map["lastUpdate" := TimeValue(now)]
  }

  // Typed reads of a slot property; a missing or differently-typed property reads as absent.

  function TickerAt(s: Slot, key: string): Option<Ticker>
  {
    if key in s && s[key].TickerValue? then Some(s[key].ticker) else None
  }

  function BookAt(s: Slot, key: string): Option<OrderBook>
  {
    if key in s && s[key].BookValue? then Some(s[key].book) else None
  }

  function TradeAt(s: Slot, key: string): Option<Trade>
  {
    if key in s && s[key].TradeValue? then Some(s[key].trade) else None
  }

  function SentimentAt(s: Slot, key: string): Option<Sentiment>
  {
    if key in s && s[key].SentimentValue? then Some(s[key].sentiment) else None
  }

  function VolatilityAt(s: Slot, key: string): Option<VolatilityEntry>
  {
    if key in s && s[key].VolatilityValue? then Some(s[key].volatility) else None
  }

  function BalanceAt(s: Slot, key: string): Option<AccountBalance>
  {
    if key in s && s[key].BalanceValue? then Some(s[key].balance) else None
  }

  /** `s[key] || 0` for a time property (0 is falsy, so it reads as 0 either way). */
  function TimeOrZero(s: Slot, key: string): Millis
  {
    if key in s && s[key].TimeValue? then s[key].millis else 0
  }
}

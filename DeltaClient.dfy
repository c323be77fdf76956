/** The Delta Exchange client: the options chain fetched over REST and filtered
    for volatility calculations, and one WebSocket per symbol that subscribes to
    its channels when it opens. The bookkeeping maps and the reconnect policy are
    the same as the Binance client's. Ticker and candle REST calls are not modelled. */
module DeltaClient {
  import opened Common
  import opened MarketTypes
  import opened ExchangeSocket

  const WsUrl: string := "wss://socket.delta.exchange"
  const DefaultStreams: seq<string> := ["ticker", "l2_orderbook", "trades"]
  const MillisPerDay: int := 86400000

  // ------------------------------------------------------------ options chain

  /** One entry of the options index response, numeric strings already parsed.
      A missing `mark_price`/`last_price` is None; `expiryMillis` is the
      `new Date(expiry_date)` value, None when the date does not parse. */
  datatype RawOption = RawOption(
    symbol: string,
    underlying_asset: string,
    strike_price: real,
    contract_type: Option<string>,
    mark_price: Option<real>,
    last_price: Option<real>,
    expiry_date: string,
    expiryMillis: Option<int>,
    volume_24h: int,
    open_interest: int)

  /** The response body `{ result }`; `result` may be missing. */
  datatype OptionsResponse = OptionsResponse(result: Option<seq<RawOption>>)

  /** A formatted option. A number that would be NaN is None. */
  datatype DeltaOption = DeltaOption(
    symbol: string,
    underlying: string,
    strike: real,
    optionType: string,
    price: Option<real>,
    expiration: string,
    expirationDays: Option<real>,
    volume: int,
    openInterest: int)

  /** `Math.max(0, (expiry - now) / 86400000)`: days until expiry, clamped at zero;
      an unparseable date gives NaN, which Math.max passes through. */
  function DaysToExpiration(expiryMillis: Option<int>, now: Millis): (r: Option<real>)
    ensures r.Some? <==> expiryMillis.Some?
    ensures r.Some? ==> r.value >= 0.0
    ensures r.Some? && expiryMillis.value <= now ==> r.value == 0.0
    ensures r.Some? && expiryMillis.value > now ==>
      r.value > 0.0 && r.value * (MillisPerDay as real) == (expiryMillis.value - now) as real
  {
    match expiryMillis
    case None => None
    case Some(expiry) =>
      var diffDays := (expiry - now) as real / (MillisPerDay as real);
      Some(if diffDays > 0.0 then diffDays else 0.0)
  }

  /** The mapping applied to one entry whose contract type is present. */
  function FormatOption(raw: RawOption, now: Millis): (r: DeltaOption)
    requires raw.contract_type.Some?
    ensures r.optionType == ToLower(raw.contract_type.value)
    ensures r.price == (if raw.mark_price.Some? then raw.mark_price else raw.last_price)
    ensures r.expirationDays == DaysToExpiration(raw.expiryMillis, now)
    ensures r.expiration == raw.expiry_date && r.strike == raw.strike_price
  {
    DeltaOption(
      raw.symbol,
      raw.underlying_asset,
      raw.strike_price,
      ToLower(raw.contract_type.value),
      if raw.mark_price.Some? then raw.mark_price else raw.last_price,
      raw.expiry_date,
      DaysToExpiration(raw.expiryMillis, now),
      raw.volume_24h,
      raw.open_interest)
  }

  /** The filter `price > 0 && expirationDays > 0` (NaN fails both). */
  predicate Tradable(o: DeltaOption)
  {
    o.price.Some? && o.price.value > 0.0 && o.expirationDays.Some? && o.expirationDays.value > 0.0
  }

  predicate AllTyped(raws: seq<RawOption>)
  {
    forall i :: 0 <= i < |raws| ==> raws[i].contract_type.Some?
  }

  /** `options.map(format)`. */
  function MapFormat(raws: seq<RawOption>, now: Millis): (r: seq<DeltaOption>)
    requires AllTyped(raws)
    ensures |r| == |raws| && forall i :: 0 <= i < |raws| ==> r[i] == FormatOption(raws[i], now)
  {
    seq(|raws|, i requires 0 <= i < |raws| => FormatOption(raws[i], now))
  }

  /** `.filter(tradable)`, taking the options from the back: the tradable ones in
      their order, each as often as it occurs. */
  function KeepTradable(xs: seq<DeltaOption>): (r: seq<DeltaOption>)
    ensures |r| <= |xs|
    decreases |xs|
  {
    if xs == [] then []
    else KeepTradable(xs[..|xs| - 1]) + (if Tradable(xs[|xs| - 1]) then [xs[|xs| - 1]] else [])
  }

  /** The filter keeps each tradable option as often as it occurs and drops every
      other one. */
  lemma {:induction false} KeepTradableCounts(xs: seq<DeltaOption>, o: DeltaOption)
    ensures multiset(KeepTradable(xs))[o] == if Tradable(o) then multiset(xs)[o] else 0
    decreases |xs|
  {
    if xs != [] {
      var init := xs[..|xs| - 1];
      var last := xs[|xs| - 1];
      assert xs == init + [last];
      KeepTradableCounts(init, o);
    }
  }

  /** Filtering a list that starts with `x` decides `x` first and filters the rest. */
  lemma {:induction false} KeepTradableFront(x: DeltaOption, xs: seq<DeltaOption>)
    ensures KeepTradable([x] + xs) == (if Tradable(x) then [x] else []) + KeepTradable(xs)
    decreases |xs|
  {
    if xs != [] {
      var init := xs[..|xs| - 1];
      var last := xs[|xs| - 1];
      assert ([x] + xs)[..|[x] + xs| - 1] == [x] + init;
      KeepTradableFront(x, init);
    }
  }

  /** An option survives the filter exactly when it is tradable and present. */
  lemma KeepTradableMembers(xs: seq<DeltaOption>)
    ensures forall o :: o in KeepTradable(xs) <==> Tradable(o) && o in xs
  {
    forall o
      ensures o in KeepTradable(xs) <==> Tradable(o) && o in xs
    {
      KeepTradableCounts(xs, o);
    }
  }

  /** `options.map(format).filter(tradable)` over entries that all have a contract type. */
  function FormatAndFilter(raws: seq<RawOption>, now: Millis): (r: seq<DeltaOption>)
    requires AllTyped(raws)
    ensures r == KeepTradable(MapFormat(raws, now))
    ensures forall o | o in r :: Tradable(o)
    ensures forall o :: o in r <==> Tradable(o) && exists i :: 0 <= i < |raws| && o == FormatOption(raws[i], now)
  {
    var r :=
      (if raws == [] then []
       else
         var rest := FormatAndFilter(raws[1..], now);
         var o := FormatOption(raws[0], now);
         assert MapFormat(raws, now) == [o] + MapFormat(raws[1..], now);
         KeepTradableFront(o, MapFormat(raws[1..], now));
         if Tradable(o) then [o] + rest else rest);
    KeepTradableMembers(MapFormat(raws, now));
    r
  }

  /** getOptionsData: the tradable options of the response. A failed request, or
      an entry with no contract type (whose `toLowerCase` throws), yields []. */
  function GetOptionsData(response: Result<OptionsResponse, string>, now: Millis): (r: seq<DeltaOption>)
    ensures forall o | o in r :: Tradable(o)
    ensures response.Ok? && response.value.result.Some? && AllTyped(response.value.result.value) ==>
      r == KeepTradable(MapFormat(response.value.result.value, now))
    ensures response.Err? ==> r == []
    ensures response.Ok? && response.value.result.None? ==> r == []
    ensures response.Ok? && response.value.result.Some? && !AllTyped(response.value.result.value) ==> r == []
    ensures response.Ok? && response.value.result.Some? && AllTyped(response.value.result.value) ==>
      forall o :: o in r <==> (Tradable(o)
        && exists i :: 0 <= i < |response.value.result.value| && o == FormatOption(response.value.result.value[i], now))
  {
    match response
    case Err(_) => []
    case Ok(body) =>
      var options := if body.result.Some? then body.result.value else [];
      if AllTyped(options) then FormatAndFilter(options, now) else []
  }

  // -------------------------------------------------------------- streaming

  /** The channel list `{ name: stream, symbol }` of a subscribe or unsubscribe message. */
  function Channels(symbol: string, streams: seq<string>): (r: seq<Channel>)
    ensures |r| == |streams|
    ensures forall i :: 0 <= i < |streams| ==> r[i] == Channel(streams[i], symbol)
  {
    seq(|streams|, i requires 0 <= i < |streams| => Channel(streams[i], symbol))
  }

  /** The `data` object of a frame, with its numeric strings already parsed. */
  datatype FrameData = FrameData(
    symbol: string,
    close: real, volume: real, change_24h: real, change_percentage_24h: real,
    high_24h: real, low_24h: real, timestamp: Millis,
    bids: seq<(real, real)>, asks: seq<(real, real)>,
    price: real, size: real, side: string, trade_id: int)

  /** A parsed frame `{ type, channel, data }`. */
  datatype Frame = Frame(messageType: string, channel: string, data: FrameData)

  /** The normalised object of one `data` frame, chosen by exact channel name. */
  function Normalize(frame: Frame): (r: Slot)
    ensures |r.Keys| <= 1
    ensures "ticker" in r <==> frame.channel == "ticker"
    ensures "orderBook" in r <==> frame.channel == "l2_orderbook"
    ensures "trade" in r <==> frame.channel == "trades"
    ensures "orderBook" in r ==>
      r["orderBook"].BookValue? && r["orderBook"].book.bids == ToLevels(frame.data.bids)
      && r["orderBook"].book.asks == ToLevels(frame.data.asks)
    ensures "trade" in r ==> r["trade"].TradeValue? && (r["trade"].trade.isBuyerMaker <==> frame.data.side == "sell")
  {
    var d := frame.data;
    if frame.channel == "ticker" then
      map["ticker" := TickerValue(Ticker(d.symbol, d.close, d.volume, d.change_24h, d.change_percentage_24h,
                                         d.high_24h, d.low_24h, d.timestamp))]
    else if frame.channel == "l2_orderbook" then
      map["orderBook" := BookValue(OrderBook(d.symbol, ToLevels(d.bids), ToLevels(d.asks), d.timestamp))]
    else if frame.channel == "trades" then
      map["trade" := TradeValue(Trade(d.symbol, d.price, d.size, d.timestamp, d.side == "sell", d.trade_id))]
    else
      map[]
  }

  class DeltaClient {
    /** symbol -> its WebSocket */
    var connections: map<string, WebSocket>
    /** symbol -> the Set of requested streams, in insertion order */
    var subscriptions: map<string, seq<string>>
    var reconnectAttempts: map<string, nat>
    /** symbols with a registered data callback */
    var dataCallbacks: set<string>

    ghost predicate Valid()
      reads this
    {
      connections.Keys <= subscriptions.Keys
    }

    constructor ()
      ensures Valid()
      ensures connections == map[] && subscriptions == map[] && reconnectAttempts == map[] && dataCallbacks == {}
    {
      connections := map[];
      subscriptions := map[];
      reconnectAttempts := map[];
      dataCallbacks := {};
    }

    /** Returns the symbol's open connection, or opens one and records it together
        with the requested streams. */
    method Connect(symbol: string, streams: seq<string>) returns (ws: WebSocket)
      requires Valid()
      modifies this
      ensures Valid()
      ensures symbol in old(connections) ==> (ws == old(connections)[symbol]
            && connections == old(connections) && subscriptions == old(subscriptions))
      ensures symbol !in old(connections) ==> (fresh(ws) && ws.url == WsUrl && ws.sent == [] && !ws.closed
            && connections == old(connections)[symbol := ws]
            && subscriptions == old(subscriptions)[symbol := Dedup(streams)])
      ensures reconnectAttempts == old(reconnectAttempts) && dataCallbacks == old(dataCallbacks)
    {
      if symbol in connections {
        return connections[symbol];
      }
      ws := new WebSocket(WsUrl);
      connections := connections[symbol := ws];
      subscriptions := subscriptions[symbol := Dedup(streams)];
    }

    /** The socket's `open` handler: the attempt counter is reset and the
        subscribe message for the requested streams is sent. */
    method OnOpen(symbol: string, ws: WebSocket, streams: seq<string>)
      modifies this, ws
      ensures reconnectAttempts == old(reconnectAttempts)[symbol := 0]
      ensures ws.sent == old(ws.sent) + [SocketMessage("subscribe", Channels(symbol, streams))]
      ensures ws.closed == old(ws.closed)
      ensures connections == old(connections) && subscriptions == old(subscriptions)
      ensures dataCallbacks == old(dataCallbacks)
    {
      reconnectAttempts := reconnectAttempts[symbol := 0];
      ws.Send(SocketMessage("subscribe", Channels(symbol, streams)));
    }

    /** The socket's `close` handler: the reconnect it schedules, if any. As written
        it looks only at the attempt counter, so a symbol closed by `Unsubscribe` is
        scheduled too; for a still-subscribed symbol this is the intended plan. */
    method HandleReconnect(symbol: string) returns (retry: Option<Retry>)
      ensures retry == ReconnectPlanAsWritten(reconnectAttempts, symbol)
      ensures retry.Some? <==> AttemptsOf(reconnectAttempts, symbol) < MaxReconnectAttempts
      ensures symbol in dataCallbacks ==> retry == ReconnectPlan(reconnectAttempts, dataCallbacks, symbol)
    {
      retry := ScheduleReconnect(reconnectAttempts, symbol);
    }

    /** A scheduled reconnect firing: the counter advances past the scheduled attempt,
        the old connection is forgotten and the symbol is connected again, whether or
        not it is still subscribed. */
    method FireReconnect(symbol: string, streams: seq<string>, retry: Retry) returns (ws: WebSocket)
      requires Valid()
      modifies this
      ensures Valid()
      ensures fresh(ws) && ws.url == WsUrl
      ensures reconnectAttempts == old(reconnectAttempts)[symbol := retry.attempts + 1]
      ensures connections == old(connections)[symbol := ws]
      ensures subscriptions == old(subscriptions)[symbol := Dedup(streams)]
      ensures dataCallbacks == old(dataCallbacks)
    {
      reconnectAttempts := reconnectAttempts[symbol := retry.attempts + 1];
      connections := connections - {symbol};
      ws := Connect(symbol, streams);
    }

    /** The socket's `message` handler: the patch passed to the data callback, or
        nothing without a callback or for a frame whose type is not 'data'. */
    method HandleMessage(symbol: string, frame: Frame) returns (delivered: Option<Slot>)
      ensures delivered.Some? <==> symbol in dataCallbacks && frame.messageType == "data"
      ensures delivered.Some? ==> delivered.value == Normalize(frame)
    {
      if symbol !in dataCallbacks || frame.messageType != "data" {
        return None;
      }
      delivered := Some(Normalize(frame));
    }

    /** Registers the symbol's callback and connects it. */
    method Subscribe(symbol: string, streams: seq<string>) returns (ws: WebSocket)
      requires Valid()
      modifies this
      ensures Valid()
      ensures dataCallbacks == old(dataCallbacks) + {symbol}
      ensures symbol in connections && ws == connections[symbol]
      ensures symbol in old(connections) ==> connections == old(connections) && subscriptions == old(subscriptions)
      ensures symbol !in old(connections) ==> (fresh(ws) && ws.url == WsUrl
            && connections == old(connections)[symbol := ws]
            && subscriptions == old(subscriptions)[symbol := Dedup(streams)])
      ensures reconnectAttempts == old(reconnectAttempts)
    {
      dataCallbacks := dataCallbacks + {symbol};
      ws := Connect(symbol, streams);
    }

    /** Sends the unsubscribe message for the symbol's stored streams, closes the
        socket and forgets all four entries; a symbol without a connection is left alone. */
    method Unsubscribe(symbol: string) returns (closedSocket: Option<WebSocket>)
      requires Valid()
      modifies this, if symbol in connections then {connections[symbol]} else {}
      ensures Valid()
      ensures symbol !in old(connections) ==> (closedSocket.None?
            && connections == old(connections) && subscriptions == old(subscriptions)
            && reconnectAttempts == old(reconnectAttempts) && dataCallbacks == old(dataCallbacks))
      ensures symbol in old(connections) ==> (closedSocket == Some(old(connections)[symbol])
            && closedSocket.value.closed
            && closedSocket.value.sent == old(closedSocket.value.sent)
                 + [SocketMessage("unsubscribe", Channels(symbol, old(subscriptions)[symbol]))]
            && connections == old(connections) - {symbol} && subscriptions == old(subscriptions) - {symbol}
            && reconnectAttempts == old(reconnectAttempts) - {symbol} && dataCallbacks == old(dataCallbacks) - {symbol})
    {
      if symbol !in connections {
        return None;
      }
      var ws := connections[symbol];
      var streams := if symbol in subscriptions then subscriptions[symbol] else [];
      ws.Send(SocketMessage("unsubscribe", Channels(symbol, streams)));
      ws.Close();
      connections := connections - {symbol};
      subscriptions := subscriptions - {symbol};
      dataCallbacks := dataCallbacks - {symbol};
      reconnectAttempts := reconnectAttempts - {symbol};
      closedSocket := Some(ws);
    }
  }
}

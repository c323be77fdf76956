/** The Binance streaming client: one combined-stream WebSocket per symbol, the
    per-symbol bookkeeping maps, the reconnect policy of the close handler, and the
    normalisation of each frame into a `{ ticker }`, `{ orderBook }` or `{ trade }`
    patch handed to the symbol's data callback. REST calls are not modelled. */
module BinanceClient {
  import opened Common
  import opened MarketTypes
  import opened ExchangeSocket

  const WsUrl: string := "wss://stream.binance.com:9443/ws"
  const DefaultStreams: seq<string> := ["ticker", "depth", "trade"]

  /** Binance stream name for one requested stream of `symbol`. */
  function StreamName(symbol: string, stream: string): (r: string)
    ensures stream == "ticker" ==> r == ToLower(symbol) + "@ticker"
    ensures stream == "depth" ==> r == ToLower(symbol) + "@depth@100ms"
    ensures stream == "trade" ==> r == ToLower(symbol) + "@trade"
    ensures stream !in DefaultStreams ==> r == stream
  {
    match stream
    case "ticker" => ToLower(symbol) + "@ticker"
    case "depth" => ToLower(symbol) + "@depth@100ms"
    case "trade" => ToLower(symbol) + "@trade"
    case _ => stream
  }

  /** The three known streams of one symbol get three different stream names. */
  lemma StreamNamesDistinct(symbol: string, a: string, b: string)
    requires a in DefaultStreams && b in DefaultStreams && a != b
    ensures StreamName(symbol, a) != StreamName(symbol, b)
  {
    var p := ToLower(symbol) + "@";
    assert (p + "ticker")[|p|] == 't' && (p + "trade")[|p|] == 't' && (p + "depth@100ms")[|p|] == 'd';
    assert (p + "ticker")[|p| + 1] == 'i' && (p + "trade")[|p| + 1] == 'r';
    assert ToLower(symbol) + "@ticker" == p + "ticker";
    assert ToLower(symbol) + "@trade" == p + "trade";
    assert ToLower(symbol) + "@depth@100ms" == p + "depth@100ms";
  }

  /** `${wsUrl}/${streams.map(...).join('/')}`. */
  function StreamUrl(symbol: string, streams: seq<string>): (r: string)
    ensures StartsWith(r, WsUrl + "/")
  {
    var names := seq(|streams|, i requires 0 <= i < |streams| => StreamName(symbol, streams[i]));
    assert (WsUrl + "/" + Join(names, "/"))[..|WsUrl + "/"|] == WsUrl + "/";
    WsUrl + "/" + Join(names, "/")
  }

  /** The `data` object of a frame, with its numeric strings already parsed. */
  datatype FrameData = FrameData(
    s: string, c: real, v: real, p: real, P: real, h: real, l: real, E: Millis,
    bids: seq<(real, real)>, asks: seq<(real, real)>,
    q: real, T: Millis, m: bool, t: int)

  /** A parsed frame `{ stream, data }`; `stream` may be missing. */
  datatype Frame = Frame(stream: Option<string>, data: FrameData)

  /** `message.stream?.includes(word)`. */
  predicate StreamMentions(frame: Frame, word: string)
  {
    frame.stream.Some? && Contains(frame.stream.value, word)
  }

  /** The normalised object of one frame. */
  function Normalize(frame: Frame): (r: Slot)
    ensures |r.Keys| <= 1
    ensures "ticker" in r <==> StreamMentions(frame, "ticker")
    ensures "orderBook" in r <==> !StreamMentions(frame, "ticker") && StreamMentions(frame, "depth")
    ensures "trade" in r <==> !StreamMentions(frame, "ticker") && !StreamMentions(frame, "depth") && StreamMentions(frame, "trade")
    ensures "ticker" in r ==> r["ticker"] == TickerValue(Ticker(frame.data.s, frame.data.c, frame.data.v,
                                 frame.data.p, frame.data.P, frame.data.h, frame.data.l, frame.data.E))
    ensures "orderBook" in r ==> r["orderBook"] == BookValue(OrderBook(frame.data.s, ToLevels(frame.data.bids),
                                 ToLevels(frame.data.asks), frame.data.E))
    ensures "trade" in r ==> r["trade"] == TradeValue(Trade(frame.data.s, frame.data.p, frame.data.q,
                                 frame.data.T, frame.data.m, frame.data.t))
  {
    var d := frame.data;
    if StreamMentions(frame, "ticker") then
      map["ticker" := TickerValue(Ticker(d.s, d.c, d.v, d.p, d.P, d.h, d.l, d.E))]
    else if StreamMentions(frame, "depth") then
      map["orderBook" := BookValue(OrderBook(d.s, ToLevels(d.bids), ToLevels(d.asks), d.E))]
    else if StreamMentions(frame, "trade") then
      map["trade" := TradeValue(Trade(d.s, d.p, d.q, d.T, d.m, d.t))]
    else
      map[]
  }

  /** Merged into the exchange's slot, a ticker frame replaces the slot's ticker and
      leaves its order book and trade as they were. */
  lemma TickerFrameUpdatesOnlyTicker(prev: Slot, frame: Frame, now: Millis)
    requires StreamMentions(frame, "ticker")
    ensures var d := frame.data;
            TickerAt(Merge(prev, Normalize(frame), now), "ticker") == Some(Ticker(d.s, d.c, d.v, d.p, d.P, d.h, d.l, d.E))
    ensures BookAt(Merge(prev, Normalize(frame), now), "orderBook") == BookAt(prev, "orderBook")
    ensures TradeAt(Merge(prev, Normalize(frame), now), "trade") == TradeAt(prev, "trade")
  {
    MergeTickerOnly(prev, Normalize(frame), now);
  }

  /** Merging a patch that carries only a ticker leaves the book and trade alone. */
  lemma MergeTickerOnly(prev: Slot, patch: Slot, now: Millis)
    requires patch.Keys == {"ticker"}
    ensures TickerAt(Merge(prev, patch, now), "ticker") == TickerAt(patch, "ticker")
    ensures BookAt(Merge(prev, patch, now), "orderBook") == BookAt(prev, "orderBook")
    ensures TradeAt(Merge(prev, patch, now), "trade") == TradeAt(prev, "trade")
  {
    var r := Merge(prev, patch, now);
    assert "orderBook" in r <==> "orderBook" in prev;
    assert "trade" in r <==> "trade" in prev;
  }

  class BinanceClient {
    /** symbol -> its WebSocket */
    var connections: map<string, WebSocket>
    /** symbol -> the Set of requested streams, in insertion order */
    var subscriptions: map<string, seq<string>>
    var reconnectAttempts: map<string, nat>
    /** symbols with a registered data callback */
    var dataCallbacks: set<string>

    ghost predicate Valid()
      reads this
    {
      connections.Keys <= subscriptions.Keys
    }

    constructor ()
      ensures Valid()
      ensures connections == map[] && subscriptions == map[] && reconnectAttempts == map[] && dataCallbacks == {}
    {
      connections := map[];
      subscriptions := map[];
      reconnectAttempts := map[];
      dataCallbacks := {};
    }

    /** Returns the symbol's open connection, or opens one on the stream URL and
        records it together with the requested streams. */
    method Connect(symbol: string, streams: seq<string>) returns (ws: WebSocket)
      requires Valid()
      modifies this
      ensures Valid()
      ensures symbol in old(connections) ==> (ws == old(connections)[symbol]
            && connections == old(connections) && subscriptions == old(subscriptions))
      ensures symbol !in old(connections) ==> (fresh(ws) && ws.url == StreamUrl(symbol, streams)
            && ws.sent == [] && !ws.closed
            && connections == old(connections)[symbol := ws]
            && subscriptions == old(subscriptions)[symbol := Dedup(streams)])
      ensures reconnectAttempts == old(reconnectAttempts) && dataCallbacks == old(dataCallbacks)
    {
      if symbol in connections {
        return connections[symbol];
      }
      ws := new WebSocket(StreamUrl(symbol, streams));
      connections := connections[symbol := ws];
      subscriptions := subscriptions[symbol := Dedup(streams)];
    }

    /** The socket's `open` handler: the attempt counter is reset. */
    method OnOpen(symbol: string)
      modifies this
      ensures reconnectAttempts == old(reconnectAttempts)[symbol := 0]
      ensures connections == old(connections) && subscriptions == old(subscriptions)
      ensures dataCallbacks == old(dataCallbacks)
    {
      reconnectAttempts := reconnectAttempts[symbol := 0];
    }

    /** The socket's `close` handler: the reconnect it schedules, if any. As written
        it looks only at the attempt counter, so a symbol closed by `Unsubscribe` is
        scheduled too; for a still-subscribed symbol this is the intended plan. */
    method HandleReconnect(symbol: string) returns (retry: Option<Retry>)
      ensures retry == ReconnectPlanAsWritten(reconnectAttempts, symbol)
      ensures retry.Some? <==> AttemptsOf(reconnectAttempts, symbol) < MaxReconnectAttempts
      ensures symbol in dataCallbacks ==> retry == ReconnectPlan(reconnectAttempts, dataCallbacks, symbol)
    {
      retry := ScheduleReconnect(reconnectAttempts, symbol);
    }

    /** A scheduled reconnect firing: the counter advances past the scheduled attempt,
        the old connection is forgotten and the symbol is connected again, whether or
        not it is still subscribed. */
    method FireReconnect(symbol: string, streams: seq<string>, retry: Retry) returns (ws: WebSocket)
      requires Valid()
      modifies this
      ensures Valid()
      ensures fresh(ws) && ws.url == StreamUrl(symbol, streams)
      ensures reconnectAttempts == old(reconnectAttempts)[symbol := retry.attempts + 1]
      ensures connections == old(connections)[symbol := ws]
      ensures subscriptions == old(subscriptions)[symbol := Dedup(streams)]
      ensures dataCallbacks == old(dataCallbacks)
    {
      reconnectAttempts := reconnectAttempts[symbol := retry.attempts + 1];
      connections := connections - {symbol};
      ws := Connect(symbol, streams);
    }

    /** The socket's `message` handler: the patch passed to the data callback, or
        nothing when the symbol has no callback. */
    method HandleMessage(symbol: string, frame: Frame) returns (delivered: Option<Slot>)
      ensures delivered.Some? <==> symbol in dataCallbacks
      ensures delivered.Some? ==> delivered.value == Normalize(frame)
    {
      if symbol !in dataCallbacks {
        return None;
      }
      delivered := Some(Normalize(frame));
    }

    /** Registers the symbol's callback and connects it. */
    method Subscribe(symbol: string, streams: seq<string>) returns (ws: WebSocket)
      requires Valid()
      modifies this
      ensures Valid()
      ensures dataCallbacks == old(dataCallbacks) + {symbol}
      ensures symbol in connections && ws == connections[symbol]
      ensures symbol in old(connections) ==> connections == old(connections) && subscriptions == old(subscriptions)
      ensures symbol !in old(connections) ==> (fresh(ws) && ws.url == StreamUrl(symbol, streams)
            && connections == old(connections)[symbol := ws]
            && subscriptions == old(subscriptions)[symbol := Dedup(streams)])
      ensures reconnectAttempts == old(reconnectAttempts)
    {
      dataCallbacks := dataCallbacks + {symbol};
      ws := Connect(symbol, streams);
    }

    /** Closes the symbol's socket and forgets all four entries of the symbol; a
        symbol without a connection is left alone. */
    method Unsubscribe(symbol: string) returns (closedSocket: Option<WebSocket>)
      requires Valid()
      modifies this, if symbol in connections then {connections[symbol]} else {}
      ensures Valid()
      ensures symbol !in old(connections) ==> (closedSocket.None?
            && connections == old(connections) && subscriptions == old(subscriptions)
            && reconnectAttempts == old(reconnectAttempts) && dataCallbacks == old(dataCallbacks))
      ensures symbol in old(connections) ==> (closedSocket == Some(old(connections)[symbol])
            && closedSocket.value.closed
            && connections == old(connections) - {symbol} && subscriptions == old(subscriptions) - {symbol}
            && reconnectAttempts == old(reconnectAttempts) - {symbol} && dataCallbacks == old(dataCallbacks) - {symbol})
    {
      if symbol !in connections {
        return None;
      }
      var ws := connections[symbol];
      ws.Close();
      connections := connections - {symbol};
      subscriptions := subscriptions - {symbol};
      dataCallbacks := dataCallbacks - {symbol};
      reconnectAttempts := reconnectAttempts - {symbol};
      closedSocket := Some(ws);
    }
  }
}

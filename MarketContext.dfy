/** The fused market view kept by the WebSocket layer: per-symbol, per-source data
    slots, the sockets subscribed to each symbol and the exchange feeds started for
    it, and the socket event handlers that drive them. Calls into the two exchange
    clients are returned as a log of `FeedCall`s; messages to sockets are returned
    as the recipients and the view they are sent. */
module MarketContext {
  import opened Common
  import opened MarketTypes
  import opened Sorting
  import RateLimit
  import AlertManager

  type SocketId = string

  const MaxBookLevels: nat := 20
  const MaxRecentTrades: nat := 50

  /** The two exchanges whose feeds are fused. */
  datatype Exchange = Binance | Delta

  // ---------------------------------------------------------------- ticker

  /** `{ price, volume }` of one exchange's ticker. */
  datatype TickerSummary = TickerSummary(price: real, volume: real)

  datatype AggregatedTicker = AggregatedTicker(
    symbol: string,
    price: real,
    volume: real,
    priceChange: real,
    priceChangePercent: real,
    high: real,
    low: real,
    binance: Option<TickerSummary>,
    delta: Option<TickerSummary>,
    timestamp: Millis)

  function Summary(t: Option<Ticker>): (r: Option<TickerSummary>)
    ensures r.Some? <==> t.Some?
    ensures r.Some? ==> r.value.price == t.value.price && r.value.volume == t.value.volume
  {
    if t.Some? then Some(TickerSummary(t.value.price, t.value.volume)) else None
  }

  /** `aggregateTicker`: null when neither exchange has a ticker; otherwise the headline
      fields come from the Binance ticker when there is one, else from the Delta one. */
  function AggregateTicker(binance: Option<Ticker>, delta: Option<Ticker>): (r: Option<AggregatedTicker>)
    ensures r.None? <==> binance.None? && delta.None?
    ensures r.Some? && binance.Some? ==>
              r.value.symbol == binance.value.symbol && r.value.price == binance.value.price
              && r.value.volume == binance.value.volume && r.value.timestamp == binance.value.timestamp
    ensures r.Some? && binance.None? ==>
              r.value.symbol == delta.value.symbol && r.value.price == delta.value.price
              && r.value.volume == delta.value.volume && r.value.timestamp == delta.value.timestamp
    ensures r.Some? ==> (r.value.binance.None? <==> binance.None?) && (r.value.delta.None? <==> delta.None?)
  {
    if binance.None? && delta.None? then None
    else
      var primary := if binance.Some? then binance.value else delta.value;
      Some(AggregatedTicker(primary.symbol, primary.price, primary.volume, primary.priceChange,
                            primary.priceChangePercent, primary.high, primary.low,
                            Summary(binance), Summary(delta), primary.timestamp))
  }

  // ------------------------------------------------------------ order book

  datatype AggregatedBook = AggregatedBook(bids: seq<Level>, asks: seq<Level>, timestamp: Millis)

  /** Sort key of the bid comparator `(a, b) => b.price - a.price`: best (highest) first. */
  function BidKey(l: Level): real { -l.price }

  /** Sort key of the ask comparator `(a, b) => a.price - b.price`: best (lowest) first. */
  function AskKey(l: Level): real { l.price }

  /** `bids.sort((a, b) => b.price - a.price).splice(20)`: the best bids, highest first. */
  function TopBids(levels: seq<Level>): (r: seq<Level>)
    ensures |r| == if |levels| < MaxBookLevels then |levels| else MaxBookLevels
    ensures forall i, j :: 0 <= i < j < |r| ==> r[i].price >= r[j].price
    ensures multiset(r) <= multiset(levels)
  {
    var r := SortedPrefix(levels, BidKey, MaxBookLevels);
    assert forall i, j :: 0 <= i < j < |r| ==> BidKey(r[i]) <= BidKey(r[j]);
    r
  }

  /** `asks.sort((a, b) => a.price - b.price).splice(20)`: the best asks, lowest first. */
  function TopAsks(levels: seq<Level>): (r: seq<Level>)
    ensures |r| == if |levels| < MaxBookLevels then |levels| else MaxBookLevels
    ensures forall i, j :: 0 <= i < j < |r| ==> r[i].price <= r[j].price
    ensures multiset(r) <= multiset(levels)
  {
    var r := SortedPrefix(levels, AskKey, MaxBookLevels);
    assert forall i, j :: 0 <= i < j < |r| ==> AskKey(r[i]) <= AskKey(r[j]);
    r
  }

  /** The cut drops no bid higher, and no ask lower, than one it keeps. */
  lemma TopLevelsKeepBest(levels: seq<Level>)
    ensures forall x, y | x in TopBids(levels) && y in multiset(levels) - multiset(TopBids(levels)) :: x.price >= y.price
    ensures forall x, y | x in TopAsks(levels) && y in multiset(levels) - multiset(TopAsks(levels)) :: x.price <= y.price
  {
    SortedPrefixKeepsBest(levels, BidKey, MaxBookLevels);
    SortedPrefixKeepsBest(levels, AskKey, MaxBookLevels);
    forall x, y | x in TopBids(levels) && y in multiset(levels) - multiset(TopBids(levels)) ensures x.price >= y.price {
      assert BidKey(x) <= BidKey(y);
    }
  }

  function BidsOf(b: Option<OrderBook>): seq<Level> { if b.Some? then b.value.bids else [] }

  function AsksOf(b: Option<OrderBook>): seq<Level> { if b.Some? then b.value.asks else [] }

  /** `book?.timestamp || 0`. */
  function BookTime(b: Option<OrderBook>): Millis { if b.Some? then b.value.timestamp else 0 }

  /** `aggregateOrderBook`: Binance levels then Delta levels, each side sorted best
      first and cut to 20, stamped with the later of the two book times. */
  function AggregateOrderBook(binance: Option<OrderBook>, delta: Option<OrderBook>): (r: Option<AggregatedBook>)
    ensures r.None? <==> binance.None? && delta.None?
    ensures r.Some? ==>
              && |r.value.bids| <= MaxBookLevels && |r.value.asks| <= MaxBookLevels
              && (forall i, j :: 0 <= i < j < |r.value.bids| ==> r.value.bids[i].price >= r.value.bids[j].price)
              && (forall i, j :: 0 <= i < j < |r.value.asks| ==> r.value.asks[i].price <= r.value.asks[j].price)
              && multiset(r.value.bids) <= multiset(BidsOf(binance) + BidsOf(delta))
              && multiset(r.value.asks) <= multiset(AsksOf(binance) + AsksOf(delta))
    ensures r.Some? ==> r.value.timestamp >= BookTime(binance) && r.value.timestamp >= BookTime(delta)
    ensures r.Some? ==> r.value.timestamp == BookTime(binance) || r.value.timestamp == BookTime(delta)
  {
    if binance.None? && delta.None? then None
    else
      Some(AggregatedBook(TopBids(BidsOf(binance) + BidsOf(delta)), TopAsks(AsksOf(binance) + AsksOf(delta)),
                          Max(BookTime(binance), BookTime(delta))))
  }

  // ---------------------------------------------------------------- trades

  /** A trade tagged with the exchange it came from (`{ ...trade, exchange: 'binance' }`). */
  datatype TaggedTrade = TaggedTrade(trade: Trade, exchange: Exchange)

  /** Sort key of `(a, b) => b.timestamp - a.timestamp`: newest first. */
  function NewestFirst(t: TaggedTrade): real { -(t.trade.timestamp as real) }

  function Tagged(binance: Option<Trade>, delta: Option<Trade>): seq<TaggedTrade>
  {
    (if binance.Some? then [TaggedTrade(binance.value, Binance)] else [])
    + (if delta.Some? then [TaggedTrade(delta.value, Delta)] else [])
  }

  lemma TaggedMembers(binance: Option<Trade>, delta: Option<Trade>)
    ensures forall t :: t in Tagged(binance, delta) <==>
              (binance.Some? && t == TaggedTrade(binance.value, Binance)) || (delta.Some? && t == TaggedTrade(delta.value, Delta))
  {
  }

  /** `combineTrades`: the latest trade of each exchange that has one, newest first. */
  function CombineTrades(binance: Option<Trade>, delta: Option<Trade>): (r: seq<TaggedTrade>)
    ensures |r| == (if binance.Some? then 1 else 0) + (if delta.Some? then 1 else 0)
    ensures |r| <= MaxRecentTrades
    ensures multiset(r) == multiset(Tagged(binance, delta))
    ensures forall i, j :: 0 <= i < j < |r| ==> r[i].trade.timestamp >= r[j].trade.timestamp
  {
    var all := Tagged(binance, delta);
    assert |all| == (if binance.Some? then 1 else 0) + (if delta.Some? then 1 else 0);
    var r := SortedPrefix(all, NewestFirst, MaxRecentTrades);
    NewestFirstOrder(r);
    r
  }

  lemma NewestFirstOrder(r: seq<TaggedTrade>)
    requires SortedBy(r, NewestFirst)
    ensures forall i, j :: 0 <= i < j < |r| ==> r[i].trade.timestamp >= r[j].trade.timestamp
  {
    forall i, j | 0 <= i < j < |r| ensures r[i].trade.timestamp >= r[j].trade.timestamp {
      assert NewestFirst(r[i]) <= NewestFirst(r[j]);
    }
  }

  /** Each present trade appears once, tagged with its exchange, and nothing else does. */
  lemma CombineTradesMembers(binance: Option<Trade>, delta: Option<Trade>)
    ensures forall t :: t in CombineTrades(binance, delta) <==>
              (binance.Some? && t == TaggedTrade(binance.value, Binance)) || (delta.Some? && t == TaggedTrade(delta.value, Delta))
  {
    TaggedMembers(binance, delta);
    SameMembers(CombineTrades(binance, delta), Tagged(binance, delta));
  }

  /** On equal timestamps the sort is stable, so the Binance trade stays first. */
  lemma EqualTimesKeepBinanceFirst(binance: Trade, delta: Trade)
    requires binance.timestamp == delta.timestamp
    ensures CombineTrades(Some(binance), Some(delta)) == [TaggedTrade(binance, Binance), TaggedTrade(delta, Delta)]
  {
    var b, d := TaggedTrade(binance, Binance), TaggedTrade(delta, Delta);
    assert Tagged(Some(binance), Some(delta)) == [b, d];
    assert [b, d][1..] == [d];
    assert SortBy([d], NewestFirst) == [d];
    assert SortBy([b, d], NewestFirst) == Insert(b, [d], NewestFirst) == [b, d];
    assert SortedPrefix([b, d], NewestFirst, MaxRecentTrades) == [b, d];
  }

  // ------------------------------------------------------------ fused view

  /** `Math.max(binance.lastUpdate || 0, delta.lastUpdate || 0, dapp.lastDAPPUpdate || 0)`. */
  function FusedLastUpdate(binance: Millis, delta: Millis, dapp: Millis): (t: Millis)
    ensures t >= binance && t >= delta && t >= dapp
    ensures t == binance || t == delta || t == dapp
  {
    Max(Max(binance, delta), dapp)
  }

  datatype Aggregated = Aggregated(
    ticker: Option<AggregatedTicker>,
    orderBook: Option<AggregatedBook>,
    recentTrades: seq<TaggedTrade>,
    sentiment: Option<Sentiment>,
    volatility: Option<VolatilityEntry>,
    accountBalance: Option<AccountBalance>,
    lastUpdate: Millis)

  /** `symbolData[source] || {}`. */
  function SlotOf(symbolData: map<string, Slot>, source: string): Slot
  {
    if source in symbolData then symbolData[source] else map[]
  }

  /** `aggregateData`: the fused ticker, book and trades of the two exchanges, the
      pipeline's sentiment, volatility and balance, and the latest update time. */
  function Aggregate(symbolData: map<string, Slot>): Aggregated
  {
    var binance, delta, dapp := SlotOf(symbolData, "binance"), SlotOf(symbolData, "delta"), SlotOf(symbolData, "dapp");
    Aggregated(
      AggregateTicker(TickerAt(binance, "ticker"), TickerAt(delta, "ticker")),
      AggregateOrderBook(BookAt(binance, "orderBook"), BookAt(delta, "orderBook")),
      CombineTrades(TradeAt(binance, "trade"), TradeAt(delta, "trade")),
      SentimentAt(dapp, "sentiment"),
      VolatilityAt(dapp, "volatility"),
      BalanceAt(dapp, "accountBalance"),
      FusedLastUpdate(TimeOrZero(binance, "lastUpdate"), TimeOrZero(delta, "lastUpdate"), TimeOrZero(dapp, "lastDAPPUpdate")))
  }

  /** `getMarketData(symbol)`: the raw exchange slots (null when absent) and the fused view. */
  datatype MarketView = MarketView(symbol: string, binance: Option<Slot>, delta: Option<Slot>, aggregated: Aggregated)

  function View(symbol: string, symbolData: map<string, Slot>): MarketView
  {
    MarketView(symbol,
               if "binance" in symbolData then Some(symbolData["binance"]) else None,
               if "delta" in symbolData then Some(symbolData["delta"]) else None,
               Aggregate(symbolData))
  }

  /** `updateData(source, symbol, patch)` on the whole data map: the symbol's entry is
      created if missing and its `source` slot becomes `{...slot, ...patch, lastUpdate}`. */
  function Updated(data: map<string, map<string, Slot>>, source: string, symbol: string, patch: Slot, now: Millis)
    : map<string, map<string, Slot>>
  {
    var symbolData := if symbol in data then data[symbol] else map[];
    data[symbol := symbolData[source := Merge(SlotOf(symbolData, source), patch, now)]]
  }

  /** `updateData` touches one slot of one symbol and merges the patch into it. */
  lemma UpdatedTouchesOneSlot(data: map<string, map<string, Slot>>, source: string, symbol: string, patch: Slot, now: Millis)
    ensures var d := Updated(data, source, symbol, patch, now);
            && d.Keys == data.Keys + {symbol}
            && (forall s | s in data && s != symbol :: d[s] == data[s])
            && d[symbol].Keys == (if symbol in data then data[symbol].Keys else {}) + {source}
            && (forall src | symbol in data && src in data[symbol] && src != source :: d[symbol][src] == data[symbol][src])
            && d[symbol][source] == Merge(SlotOf(if symbol in data then data[symbol] else map[], source), patch, now)
  {
  }

  /** A ticker pushed by the Binance feed becomes the headline of the fused ticker. */
  lemma BinanceTickerLeads(data: map<string, map<string, Slot>>, symbol: string, t: Ticker, patch: Slot, now: Millis)
    requires "ticker" in patch && patch["ticker"] == TickerValue(t)
    ensures var agg := View(symbol, Updated(data, "binance", symbol, patch, now)[symbol]).aggregated;
            agg.ticker.Some? && agg.ticker.value.price == t.price && agg.ticker.value.symbol == t.symbol
            && agg.ticker.value.binance == Some(TickerSummary(t.price, t.volume))
  {
    var sd := Updated(data, "binance", symbol, patch, now)[symbol];
    assert SlotOf(sd, "binance")["ticker"] == TickerValue(t);
  }

  /** After any exchange update the fused `lastUpdate` is at least the update time. */
  lemma ExchangeUpdateAdvancesLastUpdate(data: map<string, map<string, Slot>>, source: string, symbol: string, patch: Slot, now: Millis)
    requires source == "binance" || source == "delta"
    ensures View(symbol, Updated(data, source, symbol, patch, now)[symbol]).aggregated.lastUpdate >= now
  {
    var sd := Updated(data, source, symbol, patch, now)[symbol];
    assert TimeOrZero(SlotOf(sd, source), "lastUpdate") == now;
  }

  /** A pipeline update stamped `lastDAPPUpdate` raises the fused `lastUpdate` to at least that stamp. */
  lemma PipelineUpdateAdvancesLastUpdate(data: map<string, map<string, Slot>>, symbol: string, patch: Slot, stamp: Millis, now: Millis)
    requires "lastDAPPUpdate" in patch && patch["lastDAPPUpdate"] == TimeValue(stamp)
    ensures View(symbol, Updated(data, "dapp", symbol, patch, now)[symbol]).aggregated.lastUpdate >= stamp
  {
    var sd := Updated(data, "dapp", symbol, patch, now)[symbol];
    assert TimeOrZero(SlotOf(sd, "dapp"), "lastDAPPUpdate") == stamp;
  }

  // -------------------------------------------------------- subscriptions

  /** A call into an exchange client: `subscribe(symbol, callback)` or `unsubscribe(symbol)`. */
  datatype FeedCall = FeedSubscribe(exchange: Exchange, symbol: string) | FeedUnsubscribe(exchange: Exchange, symbol: string)

  /** `{ binance, delta }`: which exchange feeds are running for a symbol. */
  datatype Active = Active(binance: bool, delta: bool)
  {
    function Flag(e: Exchange): bool
    {
      match e
      case Binance => binance
      case Delta => delta
    }
  }

  /** The feeds `ensureSubscription` starts: exactly the exchanges not yet running. */
  function StartCalls(active: Active, symbol: string): (calls: seq<FeedCall>)
    ensures forall e: Exchange :: FeedSubscribe(e, symbol) in calls <==> !active.Flag(e)
    ensures forall c | c in calls :: c == FeedSubscribe(c.exchange, symbol)
    ensures |calls| <= 2
  {
    (if !active.binance then [FeedSubscribe(Binance, symbol)] else [])
    + (if !active.delta then [FeedSubscribe(Delta, symbol)] else [])
  }

  /** The feeds `cleanupSubscription` stops: exactly the exchanges that are running. */
  function StopCalls(active: Active, symbol: string): (calls: seq<FeedCall>)
    ensures forall e: Exchange :: FeedUnsubscribe(e, symbol) in calls <==> active.Flag(e)
    ensures forall c | c in calls :: c == FeedUnsubscribe(c.exchange, symbol)
    ensures |calls| <= 2
  {
    (if active.binance then [FeedUnsubscribe(Binance, symbol)] else [])
    + (if active.delta then [FeedUnsubscribe(Delta, symbol)] else [])
  }

  /** Every subscribed symbol has at least one subscriber and both feeds running,
      and no feed runs for a symbol nobody is subscribed to. */
  predicate Consistent(subscribers: map<string, set<SocketId>>, active: map<string, Active>)
  {
    && (forall s | s in subscribers :: subscribers[s] != {})
    && active.Keys == subscribers.Keys
    && (forall s | s in active :: active[s] == Active(true, true))
  }

  /** A subscription keeps the bookkeeping consistent; a symbol already subscribed
      has both feeds running, so no feed is started for it. */
  lemma SubscribeConsistent(subscribers: map<string, set<SocketId>>, active: map<string, Active>,
                            symbol: string, sockets: set<SocketId>)
    requires Consistent(subscribers, active) && sockets != {}
    ensures Consistent(subscribers[symbol := sockets], active[symbol := Active(true, true)])
    ensures symbol in subscribers ==> symbol in active && StartCalls(active[symbol], symbol) == []
    ensures symbol !in subscribers ==> symbol !in active
  {
  }

  class MarketContext {
    /** symbol -> source ('binance', 'delta', 'dapp') -> slot */
    var data: map<string, map<string, Slot>>
    /** symbol -> ids of the subscribed sockets */
    var subscribers: map<string, set<SocketId>>
    /** symbol -> which exchange feeds are running */
    var activeSubscriptions: map<string, Active>

    /** The bookkeeping maps are consistent (see Consistent). */
    ghost predicate Valid()
      reads this
    {
      Consistent(subscribers, activeSubscriptions)
    }

    constructor ()
      ensures Valid()
      ensures data == map[] && subscribers == map[] && activeSubscriptions == map[]
    {
      data := map[];
      subscribers := map[];
      activeSubscriptions := map[];
    }

    function SymbolData(symbol: string): map<string, Slot>
      reads this
    {
      if symbol in data then data[symbol] else map[]
    }

    function SubscribersOf(symbol: string): set<SocketId>
      reads this
    {
      if symbol in subscribers then subscribers[symbol] else {}
    }

    function GetMarketData(symbol: string): MarketView
      reads this
    {
      View(symbol, SymbolData(symbol))
    }

    /** The view `getMarketData(symbol)` returns now. */
    method CurrentView(symbol: string) returns (view: MarketView)
      ensures view == GetMarketData(symbol)
    {
      view := GetMarketData(symbol);
    }

    /** `broadcastUpdate`: one 'market-update' with the current view to each subscriber
        whose socket is still connected, and nothing when the symbol has none. */
    method BroadcastUpdate(symbol: string, connected: set<SocketId>) returns (recipients: seq<SocketId>, view: MarketView)
      ensures view == GetMarketData(symbol)
      ensures forall id :: id in recipients <==> id in SubscribersOf(symbol) && id in connected
      ensures forall i, j :: 0 <= i < j < |recipients| ==> recipients[i] != recipients[j]
    {
      recipients := [];
      view := GetMarketData(symbol);
      if symbol in subscribers && |subscribers[symbol]| > 0 {
        var pending := subscribers[symbol];
        while pending != {}
          invariant pending <= subscribers[symbol]
          invariant forall id :: id in recipients <==> id in subscribers[symbol] - pending && id in connected
          invariant forall i, j :: 0 <= i < j < |recipients| ==> recipients[i] != recipients[j]
          decreases pending
        {
          var id :| id in pending;
          if id in connected {
            recipients := recipients + [id];
          }
          pending := pending - {id};
        }
      }
    }

    /** `updateData(source, symbol, patch)` at time `now`, then the broadcast. */
    method UpdateData(source: string, symbol: string, patch: Slot, now: Millis, connected: set<SocketId>)
      returns (recipients: seq<SocketId>, view: MarketView)
      requires Valid()
      modifies this
      ensures Valid()
      ensures data == Updated(old(data), source, symbol, patch, now)
      ensures subscribers == old(subscribers) && activeSubscriptions == old(activeSubscriptions)
      ensures view == GetMarketData(symbol)
      ensures forall id :: id in recipients <==> id in SubscribersOf(symbol) && id in connected
    {
      StoreSlot(source, symbol, patch, now);
      recipients, view := BroadcastUpdate(symbol, connected);
    }

    /** The storing half of `updateData`: the merged slot replaces the old one. */
    method StoreSlot(source: string, symbol: string, patch: Slot, now: Millis)
      modifies this`data
      ensures data == Updated(old(data), source, symbol, patch, now)
    {
      var symbolData := SymbolData(symbol);
      data := data[symbol := symbolData[source := Merge(SlotOf(symbolData, source), patch, now)]];
    }

    /** `ensureSubscription`: starts the feeds not yet running and marks both running. */
    method EnsureSubscription(symbol: string) returns (calls: seq<FeedCall>)
      modifies this`activeSubscriptions
      ensures activeSubscriptions == old(activeSubscriptions)[symbol := Active(true, true)]
      ensures calls == StartCalls(if symbol in old(activeSubscriptions) then old(activeSubscriptions)[symbol] else Active(false, false), symbol)
    {
      var active := if symbol in activeSubscriptions then activeSubscriptions[symbol] else Active(false, false);
      calls := [];
      if !active.binance {
        calls := calls + [FeedSubscribe(Binance, symbol)];
        active := active.(binance := true);
      }
      if !active.delta {
        calls := calls + [FeedSubscribe(Delta, symbol)];
        active := active.(delta := true);
      }
      activeSubscriptions := activeSubscriptions[symbol := active];
    }

    /** `subscribe(socket, symbol)`: records the socket, starts missing feeds and
        returns the view the socket is sent. */
    method Subscribe(socketId: SocketId, symbol: string) returns (calls: seq<FeedCall>, view: MarketView)
      requires Valid()
      modifies this
      ensures Valid()
      ensures subscribers == old(subscribers)[symbol := old(SubscribersOf(symbol)) + {socketId}]
      ensures activeSubscriptions == old(activeSubscriptions)[symbol := Active(true, true)]
      ensures data == old(data)
      ensures symbol in old(subscribers) ==> calls == []
      ensures symbol !in old(subscribers) ==> calls == [FeedSubscribe(Binance, symbol), FeedSubscribe(Delta, symbol)]
      ensures view == GetMarketData(symbol)
    {
      calls := AddSubscriber(socketId, symbol);
      view := CurrentView(symbol);
    }

    /** The bookkeeping half of `subscribe`: the socket is recorded and missing feeds started. */
    method AddSubscriber(socketId: SocketId, symbol: string) returns (calls: seq<FeedCall>)
      requires Valid()
      modifies this
      ensures Valid()
      ensures subscribers == old(subscribers)[symbol := old(SubscribersOf(symbol)) + {socketId}]
      ensures activeSubscriptions == old(activeSubscriptions)[symbol := Active(true, true)]
      ensures data == old(data)
      ensures symbol in old(subscribers) ==> calls == []
      ensures symbol !in old(subscribers) ==> calls == [FeedSubscribe(Binance, symbol), FeedSubscribe(Delta, symbol)]
    {
      SubscribeConsistent(subscribers, activeSubscriptions, symbol, SubscribersOf(symbol) + {socketId});
      subscribers := subscribers[symbol := SubscribersOf(symbol) + {socketId}];
      calls := EnsureSubscription(symbol);
    }

    /** `cleanupSubscription`: stops the running feeds and forgets the symbol. */
    method CleanupSubscription(symbol: string) returns (calls: seq<FeedCall>)
      modifies this
      ensures calls == if symbol in old(activeSubscriptions) then StopCalls(old(activeSubscriptions)[symbol], symbol) else []
      ensures activeSubscriptions == old(activeSubscriptions) - {symbol}
      ensures subscribers == old(subscribers) - {symbol}
      ensures data == old(data) - {symbol}
    {
      calls := [];
      if symbol in activeSubscriptions {
        var active := activeSubscriptions[symbol];
        if active.binance {
          calls := calls + [FeedUnsubscribe(Binance, symbol)];
        }
        if active.delta {
          calls := calls + [FeedUnsubscribe(Delta, symbol)];
        }
        activeSubscriptions := activeSubscriptions - {symbol};
      }
      subscribers := subscribers - {symbol};
      data := data - {symbol};
    }

    /** `unsubscribe(socket, symbol)`: removes the socket; the last one out tears the symbol down. */
    method Unsubscribe(socketId: SocketId, symbol: string) returns (calls: seq<FeedCall>)
      requires Valid()
      modifies this
      ensures Valid()
      ensures symbol !in old(subscribers) ==>
                subscribers == old(subscribers) && activeSubscriptions == old(activeSubscriptions)
                && data == old(data) && calls == []
      ensures symbol in old(subscribers) && old(subscribers)[symbol] - {socketId} != {} ==>
                subscribers == old(subscribers)[symbol := old(subscribers)[symbol] - {socketId}]
                && activeSubscriptions == old(activeSubscriptions) && data == old(data) && calls == []
      ensures symbol in old(subscribers) && old(subscribers)[symbol] - {socketId} == {} ==>
                subscribers == old(subscribers) - {symbol} && activeSubscriptions == old(activeSubscriptions) - {symbol}
                && data == old(data) - {symbol}
                && calls == [FeedUnsubscribe(Binance, symbol), FeedUnsubscribe(Delta, symbol)]
    {
      calls := [];
      if symbol in subscribers {
        var remaining := subscribers[symbol] - {socketId};
        subscribers := subscribers[symbol := remaining];
        if |remaining| == 0 {
          calls := CleanupSubscription(symbol);
        }
      }
    }

    /** The 'disconnect' handler: unsubscribes the socket from every symbol it is on. */
    method Disconnect(socketId: SocketId) returns (calls: seq<FeedCall>)
      requires Valid()
      modifies this
      ensures Valid()
      ensures subscribers == map s | s in old(subscribers) && old(subscribers)[s] != {socketId} :: old(subscribers)[s] - {socketId}
      ensures data == map s | s in old(data) && !(s in old(subscribers) && old(subscribers)[s] == {socketId}) :: old(data)[s]
      ensures forall c :: c in calls <==>
                c.FeedUnsubscribe? && c.symbol in old(subscribers) && old(subscribers)[c.symbol] == {socketId}
    {
      ghost var start, startData := subscribers, data;
      ghost var done: set<string> := {};
      var pending := subscribers.Keys;
      calls := [];
      while pending != {}
        invariant Valid()
        invariant pending == start.Keys - done && done <= start.Keys
        invariant forall s | s in start :: start[s] != {}
        invariant subscribers == SubscribersLeft(start, done, socketId)
        invariant data == DataLeft(startData, start, done, socketId)
        invariant forall c :: c in calls <==> TornDown(start, done, socketId, c)
        decreases pending
      {
        var symbol :| symbol in pending;
        LeaveOne(start, startData, done, symbol, socketId);
        if socketId in subscribers[symbol] {
          var stopped := Unsubscribe(socketId, symbol);
          TornDownStep(start, done, symbol, socketId, stopped);
          calls := calls + stopped;
        }
        pending := pending - {symbol};
        done := done + {symbol};
      }
    }
  }

  /** The subscriber map once `socketId` has left every symbol in `done`. */
  ghost function SubscribersLeft(start: map<string, set<SocketId>>, done: set<string>, socketId: SocketId)
    : map<string, set<SocketId>>
  {
    map s | s in start && (s !in done || start[s] != {socketId}) :: if s in done then start[s] - {socketId} else start[s]
  }

  /** The data map once `socketId` has left every symbol in `done`: symbols it was the last subscriber of are gone. */
  ghost function DataLeft(startData: map<string, map<string, Slot>>, start: map<string, set<SocketId>>, done: set<string>, socketId: SocketId)
    : map<string, map<string, Slot>>
  {
    map s | s in startData && !(s in start && s in done && start[s] == {socketId}) :: startData[s]
  }

  /** `c` stops a feed of a symbol in `done` that `socketId` was the last subscriber of. */
  ghost predicate TornDown(start: map<string, set<SocketId>>, done: set<string>, socketId: SocketId, c: FeedCall)
  {
    c.FeedUnsubscribe? && c.symbol in start && c.symbol in done && start[c.symbol] == {socketId}
  }

  /** Leaving one more symbol changes the two maps exactly as one `unsubscribe` does. */
  lemma LeaveOne(start: map<string, set<SocketId>>, startData: map<string, map<string, Slot>>, done: set<string>,
                 symbol: string, socketId: SocketId)
    requires symbol in start && symbol !in done && start[symbol] != {}
    ensures var before, after := SubscribersLeft(start, done, socketId), SubscribersLeft(start, done + {symbol}, socketId);
            && symbol in before && before[symbol] == start[symbol]
            && (socketId !in start[symbol] ==> after == before)
            && (socketId in start[symbol] && start[symbol] - {socketId} != {} ==> after == before[symbol := start[symbol] - {socketId}])
            && (socketId in start[symbol] && start[symbol] - {socketId} == {} ==> after == before - {symbol})
    ensures var before, after := DataLeft(startData, start, done, socketId), DataLeft(startData, start, done + {symbol}, socketId);
            && (start[symbol] != {socketId} ==> after == before)
            && (start[symbol] == {socketId} ==> after == before - {symbol})
  {
    if socketId !in start[symbol] {
      assert start[symbol] - {socketId} == start[symbol];
    }
    if socketId in start[symbol] && start[symbol] - {socketId} == {} {
      assert start[symbol] == {socketId};
    }
  }

  /** The feeds stopped when `socketId` leaves `symbol` are exactly the newly torn-down ones. */
  lemma TornDownStep(start: map<string, set<SocketId>>, done: set<string>, symbol: string, socketId: SocketId, stopped: seq<FeedCall>)
    requires symbol in start && symbol !in done && socketId in start[symbol]
    requires start[symbol] - {socketId} != {} ==> stopped == []
    requires start[symbol] - {socketId} == {} ==> stopped == [FeedUnsubscribe(Binance, symbol), FeedUnsubscribe(Delta, symbol)]
    ensures forall c :: c in stopped <==> TornDown(start, done + {symbol}, socketId, c) && !TornDown(start, done, socketId, c)
  {
    if start[symbol] - {socketId} == {} {
      assert start[symbol] == {socketId};
      forall c: FeedCall | TornDown(start, done + {symbol}, socketId, c) && !TornDown(start, done, socketId, c) ensures c in stopped {
        match c.exchange
        case Binance => assert c == stopped[0];
        case Delta => assert c == stopped[1];
      }
    } else {
      assert start[symbol] != {socketId};
    }
  }

  // ---------------------------------------------------------- socket events

  const RateLimitMessage: string := "Subscription rate limit exceeded. Please try again later."

  datatype SubscribeOutcome = Rejected(message: string) | Subscribed(calls: seq<FeedCall>, view: MarketView)

  /** The 'subscribe-market' handler: the rate limiter decides, then `subscribe`. */
  method SubscribeMarket(context: MarketContext, limiter: RateLimit.WebSocketRateLimiter,
                         socketId: SocketId, symbol: string, now: Millis)
    returns (outcome: SubscribeOutcome)
    requires context.Valid() && limiter.Valid()
    modifies context, limiter
    ensures context.Valid() && limiter.Valid()
    ensures var d := RateLimit.Decide(if socketId in old(limiter.subscriptions) then Some(old(limiter.subscriptions)[socketId]) else None, now);
            limiter.subscriptions == old(limiter.subscriptions)[socketId := d.entry] && (outcome.Subscribed? <==> d.allowed)
    ensures outcome.Rejected? ==>
              outcome.message == RateLimitMessage && context.subscribers == old(context.subscribers)
              && context.activeSubscriptions == old(context.activeSubscriptions) && context.data == old(context.data)
    ensures outcome.Subscribed? ==> context.subscribers == old(context.subscribers)[symbol := old(context.SubscribersOf(symbol)) + {socketId}]
  {
    var allowed := limiter.CanSubscribe(socketId, now);
    if !allowed {
      return Rejected(RateLimitMessage);
    }
    var calls, view := context.Subscribe(socketId, symbol);
    outcome := Subscribed(calls, view);
  }

  /** `data?.limit || 50`: a missing or zero limit reads as 50. */
  function AlertHistoryLimit(limit: Option<int>): (n: int)
    ensures n != 0
    ensures limit.Some? && limit.value != 0 ==> n == limit.value
    ensures limit.None? || limit.value == 0 ==> n == AlertManager.DefaultRecentLimit
  {
    if limit.None? || limit.value == 0 then AlertManager.DefaultRecentLimit else limit.value
  }

  /** The 'get-alert-history' handler. Since the limit is never 0, it never falls into
      `slice(-0)`, which would return the whole history. */
  method GetAlertHistory(manager: AlertManager.AlertManager, limit: Option<int>) returns (alerts: seq<AlertManager.Alert>)
    ensures AlertHistoryLimit(limit) > 0 ==> alerts == LastN(manager.alerts, AlertHistoryLimit(limit))
    ensures AlertHistoryLimit(limit) < 0 ==> |alerts| <= |manager.alerts| && alerts == manager.alerts[|manager.alerts| - |alerts|..]
    ensures limit.None? ==> |alerts| == if |manager.alerts| < 50 then |manager.alerts| else 50
  {
    alerts := manager.GetRecentAlerts(AlertHistoryLimit(limit));
  }
}

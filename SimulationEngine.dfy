/** The paper-trading portfolio (server/modules/simulationEngine.js): balance, open
    positions keyed by `${type}_${strike}`, the trade history, and the performance
    counters.

    The portfolio object, which `resetSimulation` replaces wholesale, is the value
    `Portfolio`; the engine is a class holding it and the market prices.  Each step is a
    function on portfolios, and the class methods perform the same updates in place. */
module SimulationEngine {
  import opened Common

  /** `options.initialBalance || 10000` and the like: a zero option falls back to the default. */
  datatype Config = Config(initialBalance: real, feeRate: real, maxDrawdown: real)

  /** An open position. `currentPrice` is set once a market price has been applied. */
  datatype Position = Position(
    key: string,
    tradeType: string,
    strike: int,
    quantity: real,
    entryPrice: real,
    fees: real,
    exchange: string,
    hedgeAction: string,
    hedgeQuantity: real,
    currentPnL: real,
    unrealizedPnL: real,
    currentPrice: Option<real>)

  /** A trade-history record; ids and timestamps are not modelled. */
  datatype TradeRecord =
    | Entry(symbol: string, tradeType: string, quantity: real, price: real, fees: real, balance: real)
    | Exit(symbol: string, quantity: real, entryPrice: real, exitPrice: real,
           grossPnL: real, netPnL: real, fees: real, balance: real)

  /** A drawdown as `calculatePerformanceMetrics` keeps it: a number, or the +Infinity
      that dividing by a peak of 0 gives for a balance below it (possible only when the
      initial balance is negative). */
  datatype DrawdownValue = Finite(value: real) | Infinite

  /** The performance counters; the Sharpe ratio is not modelled. */
  datatype Performance = Performance(
    totalPnL: real,
    winRate: real,
    totalTrades: nat,
    winningTrades: nat,
    maxDrawdown: DrawdownValue,
    tradeReturns: seq<real>)

  datatype Portfolio = Portfolio(
    balance: real,
    positions: seq<Position>,
    tradeHistory: seq<TradeRecord>,
    performance: Performance,
    isActive: bool)

  /** The fields of the trade object `executeTrade` reads. */
  datatype TradeRequest = TradeRequest(
    tradeType: string,
    strike: int,
    quantity: real,
    hedgeAction: string,
    hedgeQuantity: real,
    exchange: string)

  /** What `executeTrade` returns besides `success`: the new position and balance. */
  datatype Execution = Execution(position: Position, newBalance: real)

  /** What `closePosition` returns besides `success`. */
  datatype Closing = Closing(netPnL: real, newBalance: real)

  const ZeroPerformance := Performance(0.0, 0.0, 0, 0, Finite(0.0), [])

  function InitialPortfolio(c: Config): (p: Portfolio)
    ensures p.balance == c.initialBalance && p.positions == [] && p.tradeHistory == []
    ensures p.performance == ZeroPerformance && !p.isActive
  {
    Portfolio(c.initialBalance, [], [], ZeroPerformance, false)
  }

  /** `${trade_type}_${strike_price}`. */
  function PositionKey(tradeType: string, strike: int): string
  {
    tradeType + "_" + IntToString(strike)
  }

  // ------------------------------------------------------ positions (a Map)

  /** The index of the position stored under `key`, if any. */
  function Find(positions: seq<Position>, key: string): (r: Option<nat>)
    ensures r.Some? ==> r.value < |positions| && positions[r.value].key == key
    ensures r.None? ==> forall i :: 0 <= i < |positions| ==> positions[i].key != key
  {
    if positions == [] then None
    else if positions[0].key == key then Some(0)
    else match Find(positions[1..], key)
      case None => None
      case Some(i) => Some(i + 1)
  }

  predicate DistinctKeys(positions: seq<Position>)
  {
    forall i, j :: 0 <= i < j < |positions| ==> positions[i].key != positions[j].key
  }

  /** `positions.set(p.key, p)`: an existing entry is replaced where it stands, a new one
      goes last. */
  function SetPosition(positions: seq<Position>, p: Position): (r: seq<Position>)
    requires DistinctKeys(positions)
    ensures DistinctKeys(r)
    ensures Find(r, p.key).Some? && r[Find(r, p.key).value] == p
  {
    match Find(positions, p.key)
    case Some(i) =>
      var r := positions[i := p];
      FindUnique(r, i);
      r
    case None =>
      var r := positions + [p];
      FindUnique(r, |positions|);
      r
  }

  /** With distinct keys, the key at index `i` is found at index `i`. */
  lemma FindUnique(positions: seq<Position>, i: nat)
    requires DistinctKeys(positions) && i < |positions|
    ensures Find(positions, positions[i].key) == Some(i)
  {
  }

  /** Setting one key leaves the positions under every other key as they were. */
  lemma SetPositionKeepsOthers(positions: seq<Position>, p: Position)
    requires DistinctKeys(positions)
    ensures forall q :: q in SetPosition(positions, p) && q.key != p.key <==> q in positions && q.key != p.key
  {
    var r := SetPosition(positions, p);
    forall q
      ensures q in r && q.key != p.key <==> q in positions && q.key != p.key
    {
      if q in r && q.key != p.key {
        var k :| 0 <= k < |r| && r[k] == q;
        assert positions[k] == q;
      }
      if q in positions && q.key != p.key {
        var k :| 0 <= k < |positions| && positions[k] == q;
        assert r[k] == q;
      }
    }
  }

  /** `positions.delete(key)` for the position at index `i`. */
  function RemoveAt(positions: seq<Position>, i: nat): (r: seq<Position>)
    requires i < |positions| && DistinctKeys(positions)
    ensures DistinctKeys(r) && Find(r, positions[i].key).None?
  {
    var r := positions[..i] + positions[i + 1..];
    assert forall k :: 0 <= k < |r| ==> r[k] == (if k < i then positions[k] else positions[k + 1]);
    r
  }

  /** Deleting one key leaves exactly the positions under the other keys. */
  lemma RemoveAtKeepsOthers(positions: seq<Position>, i: nat)
    requires i < |positions| && DistinctKeys(positions)
    ensures forall q :: q in RemoveAt(positions, i) <==> q in positions && q.key != positions[i].key
  {
    var r := RemoveAt(positions, i);
    assert forall k :: 0 <= k < |r| ==> r[k] == (if k < i then positions[k] else positions[k + 1]);
    forall q | q in positions && q.key != positions[i].key
      ensures q in r
    {
      var k :| 0 <= k < |positions| && positions[k] == q;
      assert k != i;
      assert r[if k < i then k else k - 1] == q;
    }
  }

  // ---------------------------------------------------- history and counters

  function CountEntries(h: seq<TradeRecord>): nat
  {
    if h == [] then 0 else CountEntries(h[..|h| - 1]) + (if h[|h| - 1].Entry? then 1 else 0)
  }

  function CountExits(h: seq<TradeRecord>): nat
  {
    if h == [] then 0 else CountExits(h[..|h| - 1]) + (if h[|h| - 1].Exit? then 1 else 0)
  }

  function CountWins(h: seq<TradeRecord>): nat
  {
    if h == [] then 0 else CountWins(h[..|h| - 1]) + (if h[|h| - 1].Exit? && h[|h| - 1].netPnL > 0.0 then 1 else 0)
  }

  lemma CountsAppend(h: seq<TradeRecord>, r: TradeRecord)
    ensures CountEntries(h + [r]) == CountEntries(h) + (if r.Entry? then 1 else 0)
    ensures CountExits(h + [r]) == CountExits(h) + (if r.Exit? then 1 else 0)
    ensures CountWins(h + [r]) == CountWins(h) + (if r.Exit? && r.netPnL > 0.0 then 1 else 0)
  {
    assert (h + [r])[..|h + [r]| - 1] == h;
  }

  lemma {:induction false} WinsAtMostExits(h: seq<TradeRecord>)
    ensures CountWins(h) <= CountExits(h)
    decreases |h|
  {
    if h != [] {
      WinsAtMostExits(h[..|h| - 1]);
    }
  }

  /** What the engine keeps true: distinct position keys, one `totalTrades` per ENTRY
      record and one `winningTrades` per profitable EXIT record. */
  predicate Consistent(p: Portfolio)
  {
    DistinctKeys(p.positions)
    && p.performance.totalTrades == CountEntries(p.tradeHistory)
    && p.performance.winningTrades == CountWins(p.tradeHistory)
  }

  // ------------------------------------------------------------ executeTrade

  /** `strike_price * quantity`. */
  function TradeValue(t: TradeRequest): real
  {
    t.strike as real * t.quantity
  }

  function EntryFees(c: Config, t: TradeRequest): real
  {
    TradeValue(t) * c.feeRate
  }

  /** The trade value plus its fee. */
  function EntryCost(c: Config, t: TradeRequest): real
  {
    TradeValue(t) + EntryFees(c, t)
  }

  /** How far the balance has fallen below the initial balance, as a fraction of it. */
  function Drawdown(c: Config, balance: real): real
    requires c.initialBalance != 0.0
  {
    (c.initialBalance - balance) / c.initialBalance
  }

  /** The position an entry stores: the quantity of an existing position on the same
      key is carried over and added to, every other field (the fees included) is the
      new trade's. */
  function OpenedPosition(c: Config, positions: seq<Position>, t: TradeRequest): (pos: Position)
    ensures pos.key == PositionKey(t.tradeType, t.strike)
    ensures pos.quantity == (match Find(positions, pos.key)
                               case Some(i) => positions[i].quantity + t.quantity
                               case None => t.quantity)
    ensures pos.entryPrice == t.strike as real && pos.fees == EntryFees(c, t)
  {
    var key := PositionKey(t.tradeType, t.strike);
    var existing := Find(positions, key);
    var quantity := if existing.Some? then positions[existing.value].quantity + t.quantity else t.quantity;
    Position(key, t.tradeType, t.strike, quantity, t.strike as real, EntryFees(c, t),
             t.exchange, t.hedgeAction, t.hedgeQuantity, 0.0, 0.0, None)
  }

  /** `executeTrade(trade)` on portfolio `p`: refused while inactive, when the cost with
      fees exceeds the balance, or when the drawdown from the initial balance is already
      past the limit, in that order. */
  function EnterTrade(c: Config, p: Portfolio, t: TradeRequest): (r: Result<(Portfolio, Execution), string>)
    requires c.initialBalance != 0.0 && DistinctKeys(p.positions)
    ensures r.Ok? <==> p.isActive && EntryCost(c, t) <= p.balance && Drawdown(c, p.balance) <= c.maxDrawdown
    ensures !p.isActive ==> r == Err("Simulation not active")
    ensures p.isActive && EntryCost(c, t) > p.balance ==> r == Err("Insufficient balance for trade")
    ensures (p.isActive && EntryCost(c, t) <= p.balance && Drawdown(c, p.balance) > c.maxDrawdown)
              ==> r == Err("Maximum drawdown exceeded")
  {
    if !p.isActive then Err("Simulation not active")
    else if EntryCost(c, t) > p.balance then Err("Insufficient balance for trade")
    else if Drawdown(c, p.balance) > c.maxDrawdown then Err("Maximum drawdown exceeded")
    else
      var position := OpenedPosition(c, p.positions, t);
      var balance := p.balance - EntryCost(c, t);
      var record := Entry(position.key, t.tradeType, t.quantity, t.strike as real, EntryFees(c, t), balance);
      Ok((p.(positions := SetPosition(p.positions, position), balance := balance,
             tradeHistory := p.tradeHistory + [record],
             performance := p.performance.(totalTrades := p.performance.totalTrades + 1)),
          Execution(position, balance)))
  }

  /** A successful entry debits the cost with fees, never below zero, stores the opened
      position under its key with every other position kept, appends one ENTRY record
      carrying the new balance and counts one more trade. */
  lemma EntryEffect(c: Config, p: Portfolio, t: TradeRequest)
    requires c.initialBalance != 0.0 && DistinctKeys(p.positions)
    requires EnterTrade(c, p, t).Ok?
    ensures var (q, e) := EnterTrade(c, p, t).value;
            var key := PositionKey(t.tradeType, t.strike);
            q.balance == p.balance - EntryCost(c, t) == e.newBalance && q.balance >= 0.0
            && e.position == OpenedPosition(c, p.positions, t)
            && Find(q.positions, key).Some? && q.positions[Find(q.positions, key).value] == e.position
            && (forall x :: x in q.positions && x.key != key <==> x in p.positions && x.key != key)
            && q.tradeHistory == p.tradeHistory
                 + [Entry(key, t.tradeType, t.quantity, t.strike as real, EntryFees(c, t), q.balance)]
            && q.performance == p.performance.(totalTrades := p.performance.totalTrades + 1)
            && q.isActive
  {
    SetPositionKeepsOthers(p.positions, OpenedPosition(c, p.positions, t));
  }

  lemma EnterTradeConsistent(c: Config, p: Portfolio, t: TradeRequest)
    requires c.initialBalance != 0.0 && Consistent(p)
    ensures EnterTrade(c, p, t).Ok? ==> Consistent(EnterTrade(c, p, t).value.0)
  {
    if EnterTrade(c, p, t).Ok? {
      var q := EnterTrade(c, p, t).value.0;
      var record := q.tradeHistory[|p.tradeHistory|];
      assert q.tradeHistory == p.tradeHistory + [record];
      CountsAppend(p.tradeHistory, record);
    }
  }

  /** Two successful entries on the same type and strike, the first on a fresh key,
      leave one position whose quantity is the sum of both. */
  lemma RepeatedEntriesAccumulate(c: Config, p: Portfolio, t1: TradeRequest, t2: TradeRequest)
    requires c.initialBalance != 0.0 && DistinctKeys(p.positions)
    requires t1.tradeType == t2.tradeType && t1.strike == t2.strike
    requires Find(p.positions, PositionKey(t1.tradeType, t1.strike)).None?
    requires EnterTrade(c, p, t1).Ok?
    requires EnterTrade(c, EnterTrade(c, p, t1).value.0, t2).Ok?
    ensures var q := EnterTrade(c, EnterTrade(c, p, t1).value.0, t2).value.0;
            var key := PositionKey(t1.tradeType, t1.strike);
            Find(q.positions, key).Some? && q.positions[Find(q.positions, key).value].quantity == t1.quantity + t2.quantity
  {
    var p1 := EnterTrade(c, p, t1).value.0;
    EntryEffect(c, p, t1);
    EntryEffect(c, p1, t2);
  }

  // ----------------------------------------------------------- closePosition

  /** `exitPrice * |quantity|`. */
  function ExitValue(quantity: real, exitPrice: real): real
  {
    exitPrice * Abs(quantity)
  }

  function ExitFees(c: Config, quantity: real, exitPrice: real): real
  {
    ExitValue(quantity, exitPrice) * c.feeRate
  }

  /** `exitPrice * quantity - entryPrice * quantity`: signed by the quantity. */
  function GrossPnL(quantity: real, entryPrice: real, exitPrice: real): real
  {
    exitPrice * quantity - entryPrice * quantity
  }

  /** The gross P&L less the stored entry fees and the exit fees. */
  function NetPnL(c: Config, pos: Position, exitPrice: real): real
  {
    GrossPnL(pos.quantity, pos.entryPrice, exitPrice) - pos.fees - ExitFees(c, pos.quantity, exitPrice)
  }

  /** `closePosition(key, exitPrice)`: fails for an unknown key and otherwise closes the
      position stored under it.  It does not check `isActive`. */
  function ClosePosition(c: Config, p: Portfolio, key: string, exitPrice: real): (r: Result<(Portfolio, Closing), string>)
    requires DistinctKeys(p.positions)
    ensures r.Err? <==> Find(p.positions, key).None?
    ensures r.Err? ==> r.error == "Position not found"
  {
    match Find(p.positions, key)
    case None => Err("Position not found")
    case Some(i) =>
      var pos := p.positions[i];
      var fees := ExitFees(c, pos.quantity, exitPrice);
      var netPnL := NetPnL(c, pos, exitPrice);
      var balance := p.balance + (ExitValue(pos.quantity, exitPrice) - fees);
      var performance := p.performance.(totalPnL := p.performance.totalPnL + netPnL,
                                         winningTrades := p.performance.winningTrades + (if netPnL > 0.0 then 1 else 0));
      var record := Exit(key, pos.quantity, pos.entryPrice, exitPrice, GrossPnL(pos.quantity, pos.entryPrice, exitPrice), netPnL, fees, balance);
      Ok((p.(balance := balance, performance := performance, tradeHistory := p.tradeHistory + [record],
             positions := RemoveAt(p.positions, i)),
          Closing(netPnL, balance)))
  }

  /** A successful close credits the exit value net of the exit fee, books the net P&L
      into the total, counts a win exactly when that P&L is positive, appends one EXIT
      record carrying it and the new balance, and deletes only that position. */
  lemma CloseEffect(c: Config, p: Portfolio, key: string, exitPrice: real)
    requires DistinctKeys(p.positions) && Find(p.positions, key).Some?
    ensures var pos := p.positions[Find(p.positions, key).value];
            var (q, closing) := ClosePosition(c, p, key, exitPrice).value;
            var net := NetPnL(c, pos, exitPrice);
            q.balance == p.balance + ExitValue(pos.quantity, exitPrice) - ExitFees(c, pos.quantity, exitPrice) == closing.newBalance
            && closing.netPnL == net
            && q.performance == p.performance.(totalPnL := p.performance.totalPnL + net,
                                                winningTrades := p.performance.winningTrades + (if net > 0.0 then 1 else 0))
            && Find(q.positions, key).None?
            && (forall x :: x in q.positions <==> x in p.positions && x.key != key)
            && |q.tradeHistory| == |p.tradeHistory| + 1 && q.tradeHistory[..|p.tradeHistory|] == p.tradeHistory
            && q.tradeHistory[|p.tradeHistory|].Exit? && q.tradeHistory[|p.tradeHistory|].netPnL == net
            && q.tradeHistory[|p.tradeHistory|].balance == q.balance
            && q.isActive == p.isActive
  {
    var q := ClosePosition(c, p, key, exitPrice).value.0;
    RemoveAtKeepsOthers(p.positions, Find(p.positions, key).value);
    assert q.tradeHistory[..|p.tradeHistory|] == p.tradeHistory;
  }

  lemma ClosePositionConsistent(c: Config, p: Portfolio, key: string, exitPrice: real)
    requires Consistent(p)
    ensures ClosePosition(c, p, key, exitPrice).Ok? ==> Consistent(ClosePosition(c, p, key, exitPrice).value.0)
  {
    if ClosePosition(c, p, key, exitPrice).Ok? {
      var q := ClosePosition(c, p, key, exitPrice).value.0;
      var last := q.tradeHistory[|p.tradeHistory|];
      assert q.tradeHistory == p.tradeHistory + [last];
      CountsAppend(p.tradeHistory, last);
    }
  }

  /** Opening a fresh position and closing it at `exitPrice` moves the balance by the
      exit proceeds net of the exit fee less the entry cost with its fee, books the
      gross P&L from strike to exit less both fees as the trade's net P&L, and leaves no
      position under the key. */
  lemma RoundTrip(c: Config, p: Portfolio, t: TradeRequest, exitPrice: real)
    requires c.initialBalance != 0.0 && DistinctKeys(p.positions)
    requires Find(p.positions, PositionKey(t.tradeType, t.strike)).None?
    requires EnterTrade(c, p, t).Ok?
    ensures var p1 := EnterTrade(c, p, t).value.0;
            var key := PositionKey(t.tradeType, t.strike);
            var closed := ClosePosition(c, p1, key, exitPrice);
            closed.Ok?
            && closed.value.0.balance
               == p.balance - EntryCost(c, t) + (ExitValue(t.quantity, exitPrice) - ExitFees(c, t.quantity, exitPrice))
            && closed.value.1.netPnL
               == GrossPnL(t.quantity, t.strike as real, exitPrice) - EntryFees(c, t) - ExitFees(c, t.quantity, exitPrice)
            && Find(closed.value.0.positions, key).None?
  {
    var p1 := EnterTrade(c, p, t).value.0;
    var key := PositionKey(t.tradeType, t.strike);
    EntryEffect(c, p, t);
    var pos := p1.positions[Find(p1.positions, key).value];
    assert pos.quantity == t.quantity && pos.entryPrice == t.strike as real && pos.fees == EntryFees(c, t);
    CloseEffect(c, p1, key, exitPrice);
  }

  /** The proceeds of a close are `exitPrice·|qty|·(1 - feeRate)`, and the gross P&L is
      the price move times the signed quantity. */
  lemma CloseArithmetic(c: Config, quantity: real, entryPrice: real, exitPrice: real)
    ensures ExitValue(quantity, exitPrice) - ExitFees(c, quantity, exitPrice) == exitPrice * Abs(quantity) * (1.0 - c.feeRate)
    ensures GrossPnL(quantity, entryPrice, exitPrice) == (exitPrice - entryPrice) * quantity
  {
  }

  // ------------------------------------------------------- updatePositionPnL

  /** The unrealised P&L a price gives a position: value at that price less entry value
      and entry fees. */
  function UnrealizedAt(pos: Position, price: real): real
  {
    price * pos.quantity - pos.entryPrice * pos.quantity - pos.fees
  }

  /** `updatePositionPnL(symbol)`: when there is a price for `symbol` and a position
      stored under that same key, its unrealised P&L and current price are refreshed. */
  function UpdatePositionPnL(p: Portfolio, marketData: map<string, real>, symbol: string): (q: Portfolio)
    ensures q.balance == p.balance && q.tradeHistory == p.tradeHistory && q.performance == p.performance
    ensures q.isActive == p.isActive && |q.positions| == |p.positions|
    ensures forall i :: 0 <= i < |p.positions| ==> q.positions[i].key == p.positions[i].key
    ensures symbol !in marketData || Find(p.positions, symbol).None? ==> q == p
  {
    if symbol !in marketData then p
    else match Find(p.positions, symbol)
      case None => p
      case Some(i) =>
        var pos := p.positions[i];
        var price := marketData[symbol];
        p.(positions := p.positions[i := pos.(unrealizedPnL := UnrealizedAt(pos, price), currentPrice := Some(price))])
  }

  /** A price update changes no key, so a consistent portfolio stays consistent. */
  lemma UpdatePositionPnLConsistent(p: Portfolio, marketData: map<string, real>, symbol: string)
    requires Consistent(p)
    ensures Consistent(UpdatePositionPnL(p, marketData, symbol))
  {
    var q := UpdatePositionPnL(p, marketData, symbol);
    assert forall i :: 0 <= i < |q.positions| ==> q.positions[i].key == p.positions[i].key;
  }

  // ------------------------------------------------------- getPortfolioStatus

  function SumUnrealized(positions: seq<Position>): real
  {
    if positions == [] then 0.0
    else SumUnrealized(positions[..|positions| - 1]) + positions[|positions| - 1].unrealizedPnL
  }

  /** Changing one position's unrealised P&L changes the total by the same amount. */
  lemma {:induction false} SumUnrealizedUpdate(positions: seq<Position>, i: nat, pos: Position)
    requires i < |positions|
    ensures SumUnrealized(positions[i := pos])
            == SumUnrealized(positions) - positions[i].unrealizedPnL + pos.unrealizedPnL
    decreases |positions|
  {
    var n := |positions| - 1;
    var updated := positions[i := pos];
    if i < n {
      SumUnrealizedUpdate(positions[..n], i, pos);
      assert updated[..n] == positions[..n][i := pos];
    } else {
      assert updated[..n] == positions[..n];
    }
  }

  datatype PortfolioStatus = PortfolioStatus(
    isActive: bool,
    balance: real,
    totalValue: real,
    totalPnL: real,
    positions: seq<Position>,
    tradeCount: nat,
    performance: Performance)

  /** `getPortfolioStatus()`: balance plus the open positions' unrealised P&L. */
  function Status(p: Portfolio): (s: PortfolioStatus)
    ensures s.isActive == p.isActive && s.balance == p.balance && s.performance == p.performance
    ensures s.totalValue == p.balance + SumUnrealized(p.positions)
    ensures s.totalPnL == p.performance.totalPnL + SumUnrealized(p.positions)
    ensures s.totalValue - s.balance == s.totalPnL - p.performance.totalPnL
    ensures p.positions == [] ==> s.totalValue == p.balance && s.totalPnL == p.performance.totalPnL
    ensures s.tradeCount == |p.tradeHistory| && s.positions == p.positions
  {
    var unrealized := SumUnrealized(p.positions);
    PortfolioStatus(p.isActive, p.balance, p.balance + unrealized, p.performance.totalPnL + unrealized,
                    p.positions, |p.tradeHistory|, p.performance)
  }

  /** A price update moves the portfolio's total value by exactly the change in the
      updated position's unrealised P&L. */
  lemma PriceUpdateMovesTotalValue(p: Portfolio, marketData: map<string, real>, symbol: string)
    requires symbol in marketData && Find(p.positions, symbol).Some?
    ensures var pos := p.positions[Find(p.positions, symbol).value];
            Status(UpdatePositionPnL(p, marketData, symbol)).totalValue
            == Status(p).totalValue - pos.unrealizedPnL + UnrealizedAt(pos, marketData[symbol])
  {
    var i := Find(p.positions, symbol).value;
    var pos := p.positions[i];
    SumUnrealizedUpdate(p.positions, i,
      pos.(unrealizedPnL := UnrealizedAt(pos, marketData[symbol]), currentPrice := Some(marketData[symbol])));
  }

  // ----------------------------------------------- calculatePerformanceMetrics

  /** The running peak of the balances in the history, starting from the initial balance. */
  function PeakOf(initial: real, h: seq<TradeRecord>): (r: real)
    ensures r >= initial
    ensures forall i :: 0 <= i < |h| ==> h[i].balance <= r
  {
    if h == [] then initial
    else
      var prev := PeakOf(initial, h[..|h| - 1]);
      assert forall i :: 0 <= i < |h| - 1 ==> h[i] == h[..|h| - 1][i];
      MaxReal(prev, h[|h| - 1].balance)
  }

  /** The drawdown after record `h[|h|-1]`: its distance below the running peak, as a
      fraction of the peak. */
  function DrawdownAt(initial: real, h: seq<TradeRecord>): real
    requires h != [] && PeakOf(initial, h) != 0.0
  {
    var peak := PeakOf(initial, h);
    (peak - h[|h| - 1].balance) / peak
  }

  /** The largest drawdown seen along the history, 0 for an empty one. A drawdown is
      kept when it exceeds the largest so far. At a peak of 0 the drawdown of a balance
      of 0 is NaN, which exceeds nothing, and that of a lower balance +Infinity, which
      nothing exceeds afterwards. */
  function MaxDrawdownOf(initial: real, h: seq<TradeRecord>): (r: DrawdownValue)
    ensures r.Finite? ==> r.value >= 0.0
    ensures initial > 0.0 ==> r.Finite?
  {
    if h == [] then Finite(0.0)
    else
      var prev := MaxDrawdownOf(initial, h[..|h| - 1]);
      if PeakOf(initial, h) == 0.0 then
        (if h[|h| - 1].balance < 0.0 then Infinite else prev)
      else if prev.Finite? then Finite(MaxReal(prev.value, DrawdownAt(initial, h)))
      else prev
  }

  /** The maximum drawdown is at least the drawdown after every record. */
  lemma {:induction false} MaxDrawdownDominates(initial: real, h: seq<TradeRecord>, i: nat)
    requires initial > 0.0 && i < |h|
    ensures DrawdownAt(initial, h[..i + 1]) <= MaxDrawdownOf(initial, h).value
    decreases |h|
  {
    if i < |h| - 1 {
      MaxDrawdownDominates(initial, h[..|h| - 1], i);
      assert h[..|h| - 1][..i + 1] == h[..i + 1];
    } else {
      assert h[..i + 1] == h;
    }
  }

  /** With a positive initial balance and no negative balance recorded, the maximum
      drawdown is a fraction in [0, 1]. */
  lemma {:induction false} MaxDrawdownAtMostOne(initial: real, h: seq<TradeRecord>)
    requires initial > 0.0
    requires forall i :: 0 <= i < |h| ==> h[i].balance >= 0.0
    ensures 0.0 <= MaxDrawdownOf(initial, h).value <= 1.0
    decreases |h|
  {
    if h != [] {
      MaxDrawdownAtMostOne(initial, h[..|h| - 1]);
      var peak := PeakOf(initial, h);
      var b := h[|h| - 1].balance;
      assert 0.0 <= peak - b <= peak;
      FractionAtMostOne(peak - b, peak);
    }
  }

  lemma FractionAtMostOne(x: real, y: real)
    requires y > 0.0 && 0.0 <= x <= y
    ensures x / y <= 1.0
  {
  }

  /** `trades.map(t => t.netPnL / initialBalance)` over the EXIT records. */
  function Returns(initial: real, h: seq<TradeRecord>): (r: seq<real>)
    requires initial != 0.0
    ensures |r| == CountExits(h)
  {
    if h == [] then []
    else
      var last := h[|h| - 1];
      Returns(initial, h[..|h| - 1]) + (if last.Exit? then [last.netPnL / initial] else [])
  }

  /** `calculatePerformanceMetrics()`: without EXIT records nothing changes; otherwise the
      win rate, the maximum drawdown and the per-exit returns are recomputed. */
  function PerformanceMetrics(c: Config, p: Portfolio): (q: Portfolio)
    requires c.initialBalance != 0.0
    ensures CountExits(p.tradeHistory) == 0 ==> q == p
    ensures q.balance == p.balance && q.positions == p.positions && q.tradeHistory == p.tradeHistory
    ensures q.isActive == p.isActive
    ensures q.performance.totalTrades == p.performance.totalTrades
    ensures q.performance.winningTrades == p.performance.winningTrades
    ensures q.performance.totalPnL == p.performance.totalPnL
    ensures CountExits(p.tradeHistory) > 0 ==>
              q.performance.winRate == p.performance.winningTrades as real / CountExits(p.tradeHistory) as real
              && q.performance.maxDrawdown == MaxDrawdownOf(c.initialBalance, p.tradeHistory)
              && q.performance.tradeReturns == Returns(c.initialBalance, p.tradeHistory)
  {
    var exits := CountExits(p.tradeHistory);
    if exits == 0 then p
    else p.(performance := p.performance.(
              winRate := p.performance.winningTrades as real / exits as real,
              maxDrawdown := MaxDrawdownOf(c.initialBalance, p.tradeHistory),
              tradeReturns := Returns(c.initialBalance, p.tradeHistory)))
  }

  /** In a consistent portfolio the win rate is the share of profitable exits, a
      fraction in [0, 1]. */
  lemma WinRateIsFraction(c: Config, p: Portfolio)
    requires c.initialBalance != 0.0 && Consistent(p) && CountExits(p.tradeHistory) > 0
    ensures var q := PerformanceMetrics(c, p);
            q.performance.winRate == CountWins(p.tradeHistory) as real / CountExits(p.tradeHistory) as real
            && 0.0 <= q.performance.winRate <= 1.0
  {
    WinsAtMostExits(p.tradeHistory);
    FractionAtMostOne(CountWins(p.tradeHistory) as real, CountExits(p.tradeHistory) as real);
  }

  // ----------------------------------------------------------- getTradeHistory

  /** `tradeHistory.slice(-limit)`: the last `limit` records, or all of them for a
      limit of 0, since `slice(-0)` is `slice(0)`. */
  function TradeHistory(h: seq<TradeRecord>, limit: nat): (r: seq<TradeRecord>)
    ensures limit >= 1 ==> r == LastN(h, limit)
    ensures limit == 0 ==> r == h
  {
    SliceFrom(h, -(limit as int))
  }

  // ---------------------------------------------------------------- the class

  class SimulationEngine {
    const initialBalance: real
    const feeRate: real
    const maxDrawdown: real
    var portfolio: Portfolio
    /** Latest price per symbol. */
    var marketData: map<string, real>

    function Settings(): Config
    {
      Config(initialBalance, feeRate, maxDrawdown)
    }

    ghost predicate Valid()
      reads this
    {
      initialBalance != 0.0 && Consistent(portfolio)
    }

    /** `new SimulationEngine(options)`: a balance, fee rate or drawdown limit that is
        missing or zero takes its default (10000, 0.001, 0.1). */
    constructor (initial: Option<real>, fee: Option<real>, drawdownLimit: Option<real>)
      ensures Valid()
      ensures initialBalance == (if initial.Some? && initial.value != 0.0 then initial.value else 10000.0)
      ensures feeRate == (if fee.Some? && fee.value != 0.0 then fee.value else 0.001)
      ensures maxDrawdown == (if drawdownLimit.Some? && drawdownLimit.value != 0.0 then drawdownLimit.value else 0.1)
      ensures portfolio == InitialPortfolio(Settings()) && marketData == map[]
    {
      initialBalance := if initial.Some? && initial.value != 0.0 then initial.value else 10000.0;
      feeRate := if fee.Some? && fee.value != 0.0 then fee.value else 0.001;
      maxDrawdown := if drawdownLimit.Some? && drawdownLimit.value != 0.0 then drawdownLimit.value else 0.1;
      new;
      portfolio := InitialPortfolio(Settings());
      marketData := map[];
    }

    /** `startSimulation()`. */
    method StartSimulation() returns (startingBalance: real)
      requires Valid()
      modifies this
      ensures Valid()
      ensures portfolio == old(portfolio).(isActive := true) && marketData == old(marketData)
      ensures startingBalance == initialBalance
    {
      portfolio := portfolio.(isActive := true);
      startingBalance := initialBalance;
    }

    /** `stopSimulation()`: deactivates, recomputes the metrics, and reports the final
        balance and realised P&L. */
    method StopSimulation() returns (finalBalance: real, totalPnL: real)
      requires Valid()
      modifies this
      ensures Valid()
      ensures portfolio == PerformanceMetrics(Settings(), old(portfolio).(isActive := false))
      ensures finalBalance == portfolio.balance && totalPnL == portfolio.performance.totalPnL
      ensures marketData == old(marketData)
    {
      portfolio := portfolio.(isActive := false);
      CalculatePerformanceMetrics();
      finalBalance := portfolio.balance;
      totalPnL := portfolio.performance.totalPnL;
    }

    /** `resetSimulation()`: a fresh portfolio and no market data. */
    method ResetSimulation() returns (startingBalance: real)
      requires Valid()
      modifies this
      ensures Valid()
      ensures portfolio == InitialPortfolio(Settings()) && marketData == map[]
      ensures startingBalance == initialBalance
    {
      portfolio := InitialPortfolio(Settings());
      marketData := map[];
      startingBalance := initialBalance;
    }

    /** `updateMarketData(symbol, data)` with the data's price. */
    method UpdateMarketData(symbol: string, price: real)
      requires Valid()
      modifies this
      ensures Valid()
      ensures marketData == old(marketData)[symbol := price]
      ensures portfolio == UpdatePositionPnL(old(portfolio), marketData, symbol)
    {
      marketData := marketData[symbol := price];
      UpdatePositionPnLStep(symbol);
    }

    /** `updatePositionPnL(symbol)`. */
    method UpdatePositionPnLStep(symbol: string)
      requires Valid()
      modifies this
      ensures Valid()
      ensures portfolio == UpdatePositionPnL(old(portfolio), marketData, symbol) && marketData == old(marketData)
    {
      if symbol !in marketData {
        return;
      }
      var found := Find(portfolio.positions, symbol);
      if found.None? {
        return;
      }
      var i := found.value;
      var position := portfolio.positions[i];
      var currentPrice := marketData[symbol];
      var entryValue := position.entryPrice * position.quantity;
      var currentValue := currentPrice * position.quantity;
      assert currentValue - entryValue - position.fees == UnrealizedAt(position, currentPrice);
      position := position.(unrealizedPnL := currentValue - entryValue - position.fees, currentPrice := Some(currentPrice));
      portfolio := portfolio.(positions := portfolio.positions[i := position]);
      assert DistinctKeys(portfolio.positions) by {
        assert forall k :: 0 <= k < |portfolio.positions| ==> portfolio.positions[k].key == old(portfolio).positions[k].key;
      }
    }

    /** `executeTrade(trade)`. */
    method ExecuteTrade(t: TradeRequest) returns (r: Result<Execution, string>)
      requires Valid()
      modifies this
      ensures Valid()
      ensures var e := EnterTrade(Settings(), old(portfolio), t);
              (e.Err? ==> r == Err(e.error) && portfolio == old(portfolio))
              && (e.Ok? ==> r == Ok(e.value.1) && portfolio == e.value.0)
      ensures marketData == old(marketData)
    {
      var c := Settings();
      ghost var e := EnterTrade(c, portfolio, t);
      if !portfolio.isActive {
        return Err("Simulation not active");
      }
      var tradeValue := t.strike as real * t.quantity;
      var fees := tradeValue * feeRate;
      var totalCost := tradeValue + fees;
      assert fees == EntryFees(c, t) && totalCost == EntryCost(c, t);
      if totalCost > portfolio.balance {
        return Err("Insufficient balance for trade");
      }
      var currentDrawdown := (initialBalance - portfolio.balance) / initialBalance;
      assert currentDrawdown == Drawdown(c, portfolio.balance);
      if currentDrawdown > maxDrawdown {
        return Err("Maximum drawdown exceeded");
      }
      EnterTradeConsistent(c, portfolio, t);
      var position := OpenedPosition(c, portfolio.positions, t);
      var balance := portfolio.balance - totalCost;
      var record := Entry(position.key, t.tradeType, t.quantity, t.strike as real, fees, balance);
      portfolio := portfolio.(positions := SetPosition(portfolio.positions, position), balance := balance,
                              tradeHistory := portfolio.tradeHistory + [record],
                              performance := portfolio.performance.(totalTrades := portfolio.performance.totalTrades + 1));
      r := Ok(Execution(position, balance));
      assert e == Ok((portfolio, r.value));
    }

    /** `closePosition(positionKey, exitPrice)`. */
    method ClosePositionStep(key: string, exitPrice: real) returns (r: Result<Closing, string>)
      requires Valid()
      modifies this
      ensures Valid()
      ensures var e := ClosePosition(Settings(), old(portfolio), key, exitPrice);
              (e.Err? ==> r == Err(e.error) && portfolio == old(portfolio))
              && (e.Ok? ==> r == Ok(e.value.1) && portfolio == e.value.0)
      ensures marketData == old(marketData)
    {
      var c := Settings();
      ghost var e := ClosePosition(c, portfolio, key, exitPrice);
      var found := Find(portfolio.positions, key);
      if found.None? {
        return Err("Position not found");
      }
      ClosePositionConsistent(c, portfolio, key, exitPrice);
      var position := portfolio.positions[found.value];
      var fees := ExitFees(c, position.quantity, exitPrice);
      var netPnL := NetPnL(c, position, exitPrice);
      var balance := portfolio.balance + (ExitValue(position.quantity, exitPrice) - fees);
      var performance := portfolio.performance.(totalPnL := portfolio.performance.totalPnL + netPnL);
      if netPnL > 0.0 {
        performance := performance.(winningTrades := performance.winningTrades + 1);
      }
      var record := Exit(key, position.quantity, position.entryPrice, exitPrice, GrossPnL(position.quantity, position.entryPrice, exitPrice),
                         netPnL, fees, balance);
      portfolio := portfolio.(balance := balance, performance := performance,
                              tradeHistory := portfolio.tradeHistory + [record],
                              positions := RemoveAt(portfolio.positions, found.value));
      r := Ok(Closing(netPnL, balance));
      assert e == Ok((portfolio, r.value));
    }

    /** `getPortfolioStatus()`. */
    function GetPortfolioStatus(): (s: PortfolioStatus)
      reads this
      ensures s == Status(portfolio)
    {
      Status(portfolio)
    }

    /** `calculatePerformanceMetrics()`: the win rate, then one pass over the history
        tracking the running peak and the largest drawdown below it. */
    method CalculatePerformanceMetrics()
      requires Valid()
      modifies this
      ensures Valid()
      ensures portfolio == PerformanceMetrics(Settings(), old(portfolio)) && marketData == old(marketData)
    {
      var h := portfolio.tradeHistory;
      var exits := CountExits(h);
      if exits == 0 {
        return;
      }
      var winRate := portfolio.performance.winningTrades as real / exits as real;
      var peak := initialBalance;
      var maxDD := Finite(0.0);
      var currentBalance := initialBalance;
      for i := 0 to |h|
        invariant peak == PeakOf(initialBalance, h[..i])
        invariant maxDD == MaxDrawdownOf(initialBalance, h[..i])
      {
        assert h[..i + 1][..i] == h[..i];
        currentBalance := h[i].balance;
        if currentBalance > peak {
          peak := currentBalance;
        }
        if peak == 0.0 {
          // `(0 - currentBalance) / 0`: NaN for a balance of 0, +Infinity below it.
          if currentBalance < 0.0 {
            maxDD := Infinite;
          }
        } else {
          var drawdown := (peak - currentBalance) / peak;
          if maxDD.Finite? && drawdown > maxDD.value {
            maxDD := Finite(drawdown);
          }
        }
      }
      assert h[..|h|] == h;
      var tradeReturns := Returns(initialBalance, h);
      portfolio := portfolio.(performance := portfolio.performance.(winRate := winRate, maxDrawdown := maxDD, tradeReturns := tradeReturns));
    }

    /** `getTradeHistory(limit)`. */
    function GetTradeHistory(limit: nat := 50): (r: seq<TradeRecord>)
      reads this
      ensures r == TradeHistory(portfolio.tradeHistory, limit)
    {
      TradeHistory(portfolio.tradeHistory, limit)
    }
  }
}

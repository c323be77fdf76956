/** What the Binance and Delta clients share: the WebSocket object each symbol's
    connection is, and the reconnection policy run by a socket's close handler
    (exponential back-off from one second, giving up after five attempts). */
module ExchangeSocket {
  import opened Common

  /** A `{ name, symbol }` channel entry of a Delta subscribe or unsubscribe message. */
  datatype Channel = Channel(name: string, symbol: string)

  /** A JSON message a client sends on a socket: `{ type, payload: { channels } }`. */
  datatype SocketMessage = SocketMessage(kind: string, channels: seq<Channel>)

  /** One `new WebSocket(url)`: the messages sent on it and whether it was closed. */
  class WebSocket {
    const url: string
    var sent: seq<SocketMessage>
    var closed: bool

    constructor (url: string)
      ensures this.url == url && sent == [] && !closed
    {
      this.url := url;
      sent := [];
      closed := false;
    }

    method Send(message: SocketMessage)
      modifies this
      ensures sent == old(sent) + [message] && closed == old(closed)
    {
      sent := sent + [message];
    }

    method Close()
      modifies this
      ensures closed && sent == old(sent)
    {
      closed := true;
    }
  }

  const MaxReconnectAttempts: nat := 5
  const ReconnectDelay: nat := 1000

  /** A reconnect scheduled with setTimeout: after `delay` ms the attempt counter
      becomes `attempts + 1` and the symbol is connected again. */
  datatype Retry = Retry(delay: nat, attempts: nat)

  /** The back-off decision for a counter value: `reconnectDelay * 2^attempts`
      while fewer than `maxReconnectAttempts` attempts were made. */
  function Backoff(attempts: nat): (r: Option<Retry>)
    ensures r.Some? <==> attempts < MaxReconnectAttempts
    ensures r.Some? ==> r.value.attempts == attempts
  {
    if attempts < MaxReconnectAttempts then Some(Retry(ReconnectDelay * Pow2(attempts), attempts)) else None
  }

  /** The possible delays are exactly one, two, four, eight and sixteen seconds. */
  lemma BackoffDelays(attempts: nat)
    requires attempts < MaxReconnectAttempts
    ensures Backoff(attempts).value.delay == [1000, 2000, 4000, 8000, 16000][attempts]
  {
    if attempts > 0 { assert Pow2(attempts) == 2 * Pow2(attempts - 1); }
    if attempts > 1 { assert Pow2(attempts - 1) == 2 * Pow2(attempts - 2); }
    if attempts > 2 { assert Pow2(attempts - 2) == 2 * Pow2(attempts - 3); }
    if attempts > 3 { assert Pow2(attempts - 3) == 2 * Pow2(attempts - 4); }
  }

  /** Each retry waits twice as long as the one before it. */
  lemma BackoffDoubles(attempts: nat)
    requires attempts + 1 < MaxReconnectAttempts
    ensures Backoff(attempts + 1).value.delay == 2 * Backoff(attempts).value.delay
  {
  }

  /** Number of retries a socket that never opens again gets from counter value
      `attempts`: each fired retry advances the counter by one. */
  function RetriesLeft(attempts: nat): nat
    decreases MaxReconnectAttempts - attempts
  {
    if Backoff(attempts).Some? then 1 + RetriesLeft(attempts + 1) else 0
  }

  /** The policy gives up: from counter value `attempts` at most `5 - attempts`
      reconnects follow before the close handler stops scheduling them. */
  lemma {:induction false} RetriesAreBounded(attempts: nat)
    ensures RetriesLeft(attempts) == if attempts < MaxReconnectAttempts then MaxReconnectAttempts - attempts else 0
    decreases MaxReconnectAttempts - attempts
  {
    if attempts < MaxReconnectAttempts {
      RetriesAreBounded(attempts + 1);
    }
  }

  /** `reconnectAttempts.get(symbol) || 0`. */
  function AttemptsOf(reconnectAttempts: map<string, nat>, symbol: string): nat
  {
    if symbol in reconnectAttempts then reconnectAttempts[symbol] else 0
  }

  /** The close handler as written: it consults only the attempt counter, so a
      socket closed by `unsubscribe` (which deleted the counter) is reconnected. */
  function ReconnectPlanAsWritten(reconnectAttempts: map<string, nat>, symbol: string): (r: Option<Retry>)
    ensures symbol !in reconnectAttempts ==> r == Some(Retry(ReconnectDelay, 0))
  {
    Backoff(AttemptsOf(reconnectAttempts, symbol))
  }

  /** After `unsubscribe` the counter is gone, and the as-written close handler
      schedules a reconnect one second later for a symbol nobody wants. */
  lemma UnsubscribedSymbolIsReconnected(reconnectAttempts: map<string, nat>, symbol: string)
    requires symbol !in reconnectAttempts
    ensures ReconnectPlanAsWritten(reconnectAttempts, symbol).Some?
    ensures ReconnectPlanAsWritten(reconnectAttempts, symbol).value.delay == 1000
  {
  }

  /** The close handler as intended: only a symbol that still has a data
      callback (is still subscribed) is reconnected, with the same back-off. */
  function ReconnectPlan(reconnectAttempts: map<string, nat>, subscribed: set<string>, symbol: string): (r: Option<Retry>)
    ensures symbol !in subscribed ==> r.None?
    ensures r.Some? <==> symbol in subscribed && AttemptsOf(reconnectAttempts, symbol) < MaxReconnectAttempts
    ensures r.Some? ==> r == ReconnectPlanAsWritten(reconnectAttempts, symbol)
  {
    if symbol in subscribed then ReconnectPlanAsWritten(reconnectAttempts, symbol) else None
  }

  /** The `close` handler's decision, shared by both exchange clients, as written:
      the back-off for the attempt counter, whether or not the symbol is still
      subscribed. */
  method ScheduleReconnect(reconnectAttempts: map<string, nat>, symbol: string)
    returns (retry: Option<Retry>)
    ensures retry == ReconnectPlanAsWritten(reconnectAttempts, symbol)
    ensures retry.Some? <==> AttemptsOf(reconnectAttempts, symbol) < MaxReconnectAttempts
    ensures retry.Some? ==> retry.value.delay == ReconnectDelay * Pow2(retry.value.attempts)
  {
    var attempts := if symbol in reconnectAttempts then reconnectAttempts[symbol] else 0;
    if attempts < MaxReconnectAttempts {
      retry := Some(Retry(ReconnectDelay * Pow2(attempts), attempts));
    } else {
      retry := None;
    }
  }

}

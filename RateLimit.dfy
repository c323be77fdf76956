/** The per-socket subscription limiter for WebSocket messages: at most five
    subscriptions per socket in a one-minute window that starts at the first
    subscription after the previous window ran out. The HTTP limiters built with
    express-rate-limit are configuration only and are not modelled. */
module RateLimit {
  import opened Common

  type SocketId = string

  const MaxSubscriptionsPerMinute: nat := 5
  const WindowMs: int := 60000

  /** `{ count, resetTime }` for one socket. */
  datatype Limit = Limit(count: nat, resetTime: int)

  /** Decision and new entry of `canSubscribe` for one socket at time `now`. */
  datatype Decision = Decision(allowed: bool, entry: Limit)

  function Decide(entry: Option<Limit>, now: int): Decision
  {
    if entry.None? || now > entry.value.resetTime then Decision(true, Limit(1, now + WindowMs))
    else if entry.value.count >= MaxSubscriptionsPerMinute then Decision(false, entry.value)
    else Decision(true, entry.value.(count := entry.value.count + 1))
  }

  /** A well-formed entry: it has counted at least one and at most five subscriptions. */
  predicate WellFormed(l: Limit)
  {
    1 <= l.count <= MaxSubscriptionsPerMinute
  }

  lemma DecideKeepsWellFormed(entry: Option<Limit>, now: int)
    requires entry.Some? ==> WellFormed(entry.value)
    ensures WellFormed(Decide(entry, now).entry)
  {
  }

  /** Number of requests allowed when a socket asks at each of `times`, in order. */
  function AllowedCount(entry: Option<Limit>, times: seq<int>): nat
    decreases |times|
  {
    if times == [] then 0
    else
      var d := Decide(entry, times[0]);
      (if d.allowed then 1 else 0) + AllowedCount(Some(d.entry), times[1..])
  }

  /** Within the window of an existing entry, no more than the remaining budget is allowed. */
  lemma {:induction false} AllowedWithinWindow(l: Limit, times: seq<int>)
    requires l.count <= MaxSubscriptionsPerMinute
    requires forall i :: 0 <= i < |times| ==> times[i] <= l.resetTime
    ensures AllowedCount(Some(l), times) <= MaxSubscriptionsPerMinute - l.count
    decreases |times|
  {
    if times != [] {
      var d := Decide(Some(l), times[0]);
      assert d.entry.resetTime == l.resetTime;
      AllowedWithinWindow(d.entry, times[1..]);
    }
  }

  /** The limiter's promise: a socket that starts a fresh window at `start` gets at
      most five subscriptions accepted until the window closes sixty seconds later. */
  lemma AtMostFivePerWindow(entry: Option<Limit>, start: int, times: seq<int>)
    requires entry.None? || start > entry.value.resetTime
    requires forall i :: 0 <= i < |times| ==> start <= times[i] <= start + WindowMs
    ensures AllowedCount(entry, [start] + times) <= MaxSubscriptionsPerMinute
  {
    assert ([start] + times)[1..] == times;
    AllowedWithinWindow(Limit(1, start + WindowMs), times);
  }

  /** Once the window has run out the socket is always let through again. */
  lemma AllowedAfterWindow(l: Limit, now: int)
    requires now > l.resetTime
    ensures Decide(Some(l), now) == Decision(true, Limit(1, now + WindowMs))
  {
  }

  class WebSocketRateLimiter {
    /** socketId -> { count, resetTime } */
    var subscriptions: map<SocketId, Limit>

    ghost predicate Valid()
      reads this
    {
      forall id | id in subscriptions :: WellFormed(subscriptions[id])
    }

    constructor ()
      ensures Valid() && subscriptions == map[]
    {
      subscriptions := map[];
    }

    /** Whether the socket may subscribe at `now`; counts the subscription if so. */
    method CanSubscribe(socketId: SocketId, now: int) returns (allowed: bool)
      requires Valid()
      modifies this
      ensures Valid()
      ensures var d := Decide(if socketId in old(subscriptions) then Some(old(subscriptions)[socketId]) else None, now);
              allowed == d.allowed && subscriptions == old(subscriptions)[socketId := d.entry]
    {
      if socketId !in subscriptions {
        subscriptions := subscriptions[socketId := Limit(1, now + WindowMs)];
        return true;
      }
      var userLimit := subscriptions[socketId];
      if now > userLimit.resetTime {
        subscriptions := subscriptions[socketId := Limit(1, now + WindowMs)];
        return true;
      }
      if userLimit.count >= MaxSubscriptionsPerMinute {
        return false;
      }
      subscriptions := subscriptions[socketId := userLimit.(count := userLimit.count + 1)];
      allowed := true;
    }

    /** Drops every entry whose window has run out at `now`. */
    method Cleanup(now: int)
      requires Valid()
      modifies this
      ensures Valid()
      ensures subscriptions == map id | id in old(subscriptions) && now <= old(subscriptions)[id].resetTime :: old(subscriptions)[id]
    {
      var pending := subscriptions.Keys;
      ghost var start := subscriptions;
      while pending != {}
        invariant pending <= start.Keys
        invariant subscriptions == map id | id in start && (id in pending || now <= start[id].resetTime) :: start[id]
        decreases pending
      {
        var id :| id in pending;
        if now > subscriptions[id].resetTime {
          subscriptions := subscriptions - {id};
        }
        pending := pending - {id};
      }
    }
  }
}

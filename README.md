# NuralML AI PipeLine — a verified model of its core

This project models the server-side core of NuralML AI PipeLine in Dafny, together with the
client's technical-indicator library. NuralML AI PipeLine is a crypto-options trading assistant. It
merges Binance and Delta Exchange market feeds, computes volatility and sentiment, asks a chain of
AI agents for a trade, and simulates or backtests that trade. Each source file of the core has its
own Dafny module:

| module | source | form |
|---|---|---|
| `MarketContext` | server/websocket/socketHandler.js | class over the `data`, `subscribers` and `activeSubscriptions` maps; the aggregation is pure functions |
| `AlertManager` | server/modules/alertManager.js | class: the previous-value map, the alert history and the thresholds |
| `ErrorHandler` | server/middleware/errorHandler.js | `CircuitBreaker` class; the status choice and `gracefulResponse` are functions |
| `VolatilityEngine` | server/modules/volatilityEngine.js | loop methods (historical volatility, Newton–Raphson IV, average IV) proved against functions; Black–Scholes and vega are functions |
| `DataAcquisitionPipeline` | server/modules/dataAcquisitionPipeline.js | class with the running flag, the cache, the market context and `lastUpdate` |
| `ExchangeSocket`, `BinanceClient`, `DeltaClient` | server/apiClients/binanceClient.js, deltaClient.js | the shared connection bookkeeping of the two WebSocket clients as a class; message normalisation as functions |
| `Retry` | server/utils/retry.js | the retry loop as a method proved against a recursive definition; `RetryWithCircuitBreaker` as a class |
| `RateLimit` | server/middleware/rateLimit.js | the `WebSocketRateLimiter` class |
| `SentimentAnalyzer` | server/modules/sentimentAnalyzer.js | score mapping and aggregation as functions; the cache as a class |
| `SimulationEngine` | server/modules/simulationEngine.js | class over the portfolio: balance, positions, trade history, performance |
| `BacktestingEngine` | server/modules/backtestingEngine.js | indicator loops as methods proved against functions; `runBacktest`/`stopBacktest` as a class |
| `TechnicalIndicators` | client/src/utils/indicators.js | every series indicator as a loop method proved against a function of the prices |
| `AIAgentChain` | server/modules/aiAgentChain.js | the rate limiter, JSON validation and highest-confidence selection; the chain as a class method |
| `UserRoutes` | server/routes/userRoutes.js | `maskApiKey` and the API-key validation as functions |
| `Common`, `Sorting`, `MarketTypes` | — | shared helpers: option/result types, JavaScript string and slice behaviour, the stable sort behind `Array.prototype.sort`, and the market value types |

The outside world comes in through parameters. The current time `now` is an argument of every
operation that reads the clock. Exchange, news and AI responses are arguments too, or oracle
functions (`fn` in the retry loop, the trade agent in `executeChain`). Timers and sockets are not
executed: an operation returns the timer it would schedule or the frame it would send. The
transcendental functions (`Math.log`, `Math.exp`, the error function, `Math.sqrt`) are the fields of
a `Math` value. Only the laws the proofs need are assumed of it. `Lawful` assumes that `sqrt` is
non-negative on non-negative input, positive on positive input and 0 at 0, that `exp` is positive,
and that the log of a non-zero number's ratio to itself is 0. Where a contract says so, `ErfOdd`
assumes that erf is odd and `ErfBounded` that erf lies in [-1, 1].
JavaScript numbers are exact reals, and `NaN`, `null` and `undefined` are explicit `Option` or
result cases.

## Model

| member | source | states |
|---|---|---|
| UserRoutes.MaskApiKey | server/routes/userRoutes.js:161-164 | a missing, empty or shorter-than-8 key masks to `****`; any other key masks to exactly 12 characters: its first four, `****`, its last four |
| UserRoutes.MaskHidesMiddle | server/routes/userRoutes.js:161-164 | two keys of length at least 8 that share their first and last four characters have the same mask |
| UserRoutes.MaskRevealsEightCharacterKey | server/routes/userRoutes.js:162-163 | for a key of exactly 8 characters the mask's visible parts are the whole key |
| UserRoutes.ListApiKeys | server/routes/userRoutes.js:45-60 | a database failure answers 500; otherwise 200 with one entry per stored row, in order, both keys masked and status `configured` |
| UserRoutes.SaveApiKeys | server/routes/userRoutes.js:63-81 | a missing field answers 400 before the exchange check; an exchange whose lower-case form is not binance or delta answers 400; success (200) happens exactly when all fields are present, the exchange is supported and the database works, and only then is the pair stored under the lower-case name; every failure leaves the store as it was |
| UserRoutes.DeleteApiKeys | server/routes/userRoutes.js:84-102 | an unsupported exchange answers 400; 200 exactly when the lower-case row exists (and it is removed), 404 exactly when it does not; nothing else changes |
| UserRoutes.SaveThenDelete | server/routes/userRoutes.js:63-102 | saving under one spelling of an exchange and deleting under another spelling with the same lower case both succeed and remove exactly that row |
| UserRoutes.SavedKeysAreNormalised | server/routes/userRoutes.js:71-75 | after any save every stored exchange name is supported and already lower-case |
| Retry.Delay | server/utils/retry.js:33 | the delay is the smaller of `baseDelay * backoffFactor^attempt` and `maxDelay`, so never above `maxDelay` |
| Retry.DelayNonDecreasing | server/utils/retry.js:33 | with a non-negative base delay and a factor of at least 1 the delays never shrink from one retry to the next and stay within `maxDelay` |
| Retry.AttemptsShape | server/utils/retry.js:21-47 | from any attempt on, the loop calls `fn` at most up to attempt `maxRetries`; the last call decides the result; a thrown error was rejected by the condition or came from the final attempt; every earlier call failed retryably and left exactly one retry record, after the earlier ones |
| Retry.RetryCharacterised | server/utils/retry.js:21-47 | `fn` runs between 1 and `maxRetries + 1` times; the result is the last call's; one `onRetry`/wait per failed attempt before it, carrying the 1-based attempt number, the error and that attempt's delay |
| Retry.FirstSuccessReturned | server/utils/retry.js:21-23 | when every earlier attempt failed retryably, the first success is returned after exactly that many calls |
| Retry.NonRetryableStopsAtOnce | server/utils/retry.js:28-30 | an error the condition rejects is thrown right after its attempt, with no further call, delay or `onRetry` for it |
| Retry.ExhaustedThrowsLastError | server/utils/retry.js:28-47 | when every attempt fails retryably, `fn` runs `maxRetries + 1` times, there are `maxRetries` retries, and the final attempt's error is thrown |
| Retry.RetryWithBackoff | server/utils/retry.js:9-48 | the attempt loop returns exactly the result, call count and retries of the loop's specification `RetryOutcome` |
| Retry.RetryableStatuses | server/utils/retry.js:53-74 | when neither the code nor the message qualifies, an error with a response is retryable exactly for a status of at least 500 or equal to 429 |
| Retry.NetworkCodesRetryable | server/utils/retry.js:55-57 | ECONNRESET, ETIMEDOUT and ENOTFOUND are retryable whatever the message and response |
| Retry.BreakerRetryOptions | server/utils/retry.js:80-87 | the breaker's retry options default `maxRetries` to 3 and `baseDelay` to 1000, take any given value, and leave the other options at the loop's defaults |
| Retry.RetryWithCircuitBreaker.Execute | server/utils/retry.js:89-94 | the whole retry loop is one breaker action: the breaker's result and new state are those of one `execute` on the loop's outcome, and `fn` runs not at all when the breaker did not invoke the action |
| Retry.AsAction | server/utils/retry.js:89-94 | the loop's rejection reaches the breaker as its message, a resolution as its value |
| Retry.RetriesCountOnceAgainstBreaker | server/utils/retry.js:89-94 | a closed breaker counts a retry loop that gives up as a single failure, however many attempts it made |
| Retry.RetryWithCircuitBreaker.constructor | server/utils/retry.js:80-87 | the wrapper keeps the breaker it is given and the retry options it will run `fn` with |
| ErrorHandler.Respond | server/middleware/errorHandler.js:6-66 | the response always has a non-zero status and a non-empty message; it is degraded exactly when the message mentions `API error` or `timeout`, and then it is the 503 cached-data answer; otherwise a message mentioning `rate limit` gives the 429 answer |
| ErrorHandler.UnrecognisedErrorKeepsItsOwn | server/middleware/errorHandler.js:64-66 | an error that no check recognises keeps its own status and message, or falls back to 500 and `Internal Server Error` |
| ErrorHandler.ExpiredTokenIsUnauthorised | server/middleware/errorHandler.js:45-48 | a `TokenExpiredError` without rate-limit or external-failure wording is answered 401 `Token expired`, whatever its code |
| ErrorHandler.EmptyValidationError | server/middleware/errorHandler.js:34-37 | a validation error with no field messages gets status 400 and the generic message |
| ErrorHandler.GracefulResponse | server/middleware/errorHandler.js:102-125 | success exactly when data or fallback data is present; degraded exactly when the data is missing; data present gives the requested status and message, fallback only gives 206 with the fallback, neither gives 503 with no data |
| ErrorHandler.Run | server/middleware/errorHandler.js:142-182 | the action is skipped exactly when the breaker is open and the recovery timeout has not passed; then nothing changes and the result is the fallback when one is given, else the "Circuit breaker is OPEN" error. A success returns the value, resets the count, closes and keeps the failure time. A failure counts one more and records the time; the breaker is then open once the count reaches the threshold, half-open if it was probing from open, and otherwise keeps its state; the result is the fallback exactly when one is given and the breaker is open, else the original error is rethrown. Threshold and timeout never change |
| ErrorHandler.ExecuteKeepsConsistent | server/middleware/errorHandler.js:142-182 | `execute` keeps a breaker consistent: it is open or half-open only with at least `failureThreshold` failures and a recorded failure time |
| ErrorHandler.FailedProbeReopens | server/middleware/errorHandler.js:143-179 | a failed probe after the recovery timeout reaches the service and reopens the breaker with a fresh failure time |
| ErrorHandler.ConsecutiveFailuresOpen | server/middleware/errorHandler.js:174-179 | a closed breaker opens after exactly `failureThreshold - failureCount` more consecutive failures, with the count at the threshold |
| ErrorHandler.FewFailuresStayClosed | server/middleware/errorHandler.js:174-179 | fewer failures than that leave it closed, with each failure counted |
| ErrorHandler.CircuitBreaker.constructor | server/middleware/errorHandler.js:134-140 | a new breaker is closed with no failures and no failure time, with the given threshold and timeout (defaults 5 and 60000) |
| ErrorHandler.CircuitBreaker.Execute | server/middleware/errorHandler.js:142-167 | result, whether the action ran, and the new fields are exactly those of `Run` on the old fields |
| ErrorHandler.CircuitBreaker.OnSuccessStep | server/middleware/errorHandler.js:169-172 | the count is reset and the breaker closed; nothing else changes |
| ErrorHandler.CircuitBreaker.OnFailureStep | server/middleware/errorHandler.js:174-182 | the count goes up by one, the failure time is `now`, and the breaker opens when the count reaches the threshold |
| RateLimit.DecideKeepsWellFormed | server/middleware/rateLimit.js:42-63 | every entry the limiter writes has counted between one and five subscriptions |
| RateLimit.AllowedWithinWindow | server/middleware/rateLimit.js:51-62 | inside an entry's window no more requests are allowed than its remaining budget `5 - count` |
| RateLimit.AtMostFivePerWindow | server/middleware/rateLimit.js:38-62 | a socket that opens a fresh window at `start` has at most five subscriptions accepted in the sixty seconds that follow |
| RateLimit.AllowedAfterWindow | server/middleware/rateLimit.js:51-55 | once the window has run out the request is allowed and a fresh window with count 1 starts |
| RateLimit.WebSocketRateLimiter.constructor | server/middleware/rateLimit.js:36-40 | the limiter starts with no entries |
| RateLimit.WebSocketRateLimiter.CanSubscribe | server/middleware/rateLimit.js:42-63 | the answer and the socket's new entry are those of the window rule `Decide`; no other socket's entry changes |
| RateLimit.WebSocketRateLimiter.Cleanup | server/middleware/rateLimit.js:65-72 | exactly the entries whose window has run out are removed; the others are kept unchanged |
| AlertManager.Detect | server/modules/alertManager.js:20-96 | at most three alerts, all for the symbol; a volatility spike is raised exactly when a volatility is given and exceeds a truthy previous value by more than the spike threshold; a sentiment shift exactly when a sentiment is given and differs from a defined previous value by more than the shift threshold; a price gap exactly when a price is given and moves more than the gap threshold in percent from a truthy previous price; only the sentiment shift has medium severity; the alerts come in the order volatility, sentiment, price, at most one of each kind, and each carries the reading's value as current and the stored value as previous |
| AlertManager.SuffixKeysDistinct | server/modules/alertManager.js:25-74 | the three keys `symbol_volatility`, `symbol_sentiment` and `symbol_price` are distinct |
| AlertManager.RememberStoresReading | server/modules/alertManager.js:43-95 | after a reading each of the symbol's three keys holds the new value when one was given and keeps the old one otherwise; every other key is untouched |
| AlertManager.FirstReadingRaisesNothing | server/modules/alertManager.js:25-75 | a symbol's first reading raises no alert |
| AlertManager.RepeatedReadingRaisesNothing | server/modules/alertManager.js:26-77 | with non-negative thresholds and volatility, repeating the stored values raises no alert |
| AlertManager.ExactlyFiftyPercentIsNoSpike | server/modules/alertManager.js:9-26 | with the default thresholds a rise from 40 to exactly 60 is not a spike and a rise to 60.5 is |
| AlertManager.ZeroPreviousIsIgnored | server/modules/alertManager.js:26-75 | a previous volatility or price of 0 is falsy and never triggers a spike or a gap |
| AlertManager.ApplyPatch | server/modules/alertManager.js:138 | every threshold the patch gives replaces the old one; the others are kept |
| AlertManager.KeepLastPush | server/modules/alertManager.js:111-116 | dropping the oldest alert after each push keeps exactly the last 100 alerts of the whole history |
| AlertManager.AlertManager.constructor | server/modules/alertManager.js:4-13 | no alerts, no previous data, thresholds 50, 20 and 10 |
| AlertManager.AlertManager.CheckForAlerts | server/modules/alertManager.js:20-104 | returns the alerts `Detect` gives on the old previous values, stores the reading with `Remember`, and the alert list becomes the last 100 of the old list followed by the new alerts; the thresholds are unchanged |
| AlertManager.AlertManager.EmitAll | server/modules/alertManager.js:99-101 | emitting the alerts one by one leaves the last 100 of the old list followed by all of them |
| AlertManager.AlertManager.CompareAndRemember | server/modules/alertManager.js:23-96 | the comparisons, each followed by storing its value, give exactly `Detect` on the old values and `Remember` |
| AlertManager.AlertManager.EmitAlert | server/modules/alertManager.js:110-122 | the alert list becomes the last 100 of the old list plus the new alert |
| AlertManager.AlertManager.GetRecentAlerts | server/modules/alertManager.js:129-131 | a positive limit gives the last `limit` alerts, 0 gives all of them, and a negative limit drops the first `-limit` |
| AlertManager.AlertManager.UpdateThresholds | server/modules/alertManager.js:137-140 | the thresholds become the old ones overridden by the patch |
| AlertManager.AlertManager.ClearSymbolData | server/modules/alertManager.js:146-155 | exactly the keys starting with `symbol_` are removed; the other entries are unchanged |
| SentimentAnalyzer.MissingLabelScoresZero | server/modules/sentimentAnalyzer.js:32-39 | a label that no item of the response carries (after lower-casing) scores 0 |
| SentimentAnalyzer.LastLabelWins | server/modules/sentimentAnalyzer.js:32-34 | the last item carrying a label decides that label's score; labels that differ only in case are the same label |
| SentimentAnalyzer.AnalyzeSentiment | server/modules/sentimentAnalyzer.js:18-55 | a classifier response gives the positive, negative and neutral scores of its last items with those labels (0 when missing) and `compound = positive - negative`; a failure gives the neutral 0.33/0.33/0.34/0 reading carrying the error message |
| SentimentAnalyzer.Analyze | server/modules/sentimentAnalyzer.js:36-53 | every analysis, classified or fallback, has `compound = positive - negative` |
| SentimentAnalyzer.TotalsAreSums | server/modules/sentimentAnalyzer.js:146-152 | each field of the `reduce` total is the sum of that field over the analyses |
| SentimentAnalyzer.AggregateSentiments | server/modules/sentimentAnalyzer.js:137-166 | the aggregate counts every analysis, is stamped `now`, and carries no error |
| SentimentAnalyzer.AggregateIsMean | server/modules/sentimentAnalyzer.js:154-162 | each overall field of a non-empty aggregate is the arithmetic mean of that field |
| SentimentAnalyzer.AggregateKeepsCompound | server/modules/sentimentAnalyzer.js:146-162 | when every analysis has `compound = positive - negative`, so does the aggregate |
| SentimentAnalyzer.TotalsCompound | server/modules/sentimentAnalyzer.js:146-152 | the totals keep `compound = positive - negative` |
| SentimentAnalyzer.MeanInUnitInterval | server/modules/sentimentAnalyzer.js:158-160 | the mean of values in [0, 1] is in [0, 1] |
| SentimentAnalyzer.AggregateBounded | server/modules/sentimentAnalyzer.js:137-166 | probabilities in [0, 1] average to overall probabilities in [0, 1] |
| SentimentAnalyzer.ArticleText | server/modules/sentimentAnalyzer.js:90 | the text sent for an article is at most 512 characters, a prefix of title, space and description, and the whole of it when that fits |
| SentimentAnalyzer.AnalyzeAll | server/modules/sentimentAnalyzer.js:89-94 | one analysis per article, in article order, each of that article's text |
| SentimentAnalyzer.MarketSentiment | server/modules/sentimentAnalyzer.js:63-130 | a cached entry younger than five minutes is returned without calling the news service and with the cache unchanged; the cache changes only after a search that found articles, and then holds the result under `sentiment_<query>_<pageSize>` stamped `now` |
| SentimentAnalyzer.FetchedSentimentIsCached | server/modules/sentimentAnalyzer.js:83-105 | without a fresh cache entry, a search with articles returns the aggregate of one analysis per article, counting them all, and caches it |
| SentimentAnalyzer.FailureReturnsStaleCache | server/modules/sentimentAnalyzer.js:84-115 | a failed search, or one with no articles, returns the cached entry however old it is and leaves the cache alone |
| SentimentAnalyzer.FailureWithoutCacheIsNeutral | server/modules/sentimentAnalyzer.js:84-128 | without a cached entry such a failure returns the neutral reading with no articles and the failure's message, and does not throw |
| SentimentAnalyzer.SentimentAnalyzer.constructor | server/modules/sentimentAnalyzer.js:4-11 | the cache starts empty |
| SentimentAnalyzer.SentimentAnalyzer.GetMarketSentiment | server/modules/sentimentAnalyzer.js:63-130 | result, whether the news service was called, and the new cache are exactly those of `MarketSentiment` on the old cache |
| SentimentAnalyzer.SentimentAnalyzer.GetAssetSentiment | server/modules/sentimentAnalyzer.js:173-176 | the market sentiment for the query `<asset> cryptocurrency OR <asset> crypto OR <asset> price` with 15 articles |
| SentimentAnalyzer.SentimentAnalyzer.ClearCache | server/modules/sentimentAnalyzer.js:181-183 | the cache becomes empty |
| ExchangeSocket.WebSocket.constructor | server/apiClients/binanceClient.js:57 | a new socket has the given URL, has sent nothing and is open |
| ExchangeSocket.WebSocket.Send | server/apiClients/deltaClient.js:105 | the message is appended to what the socket has sent |
| ExchangeSocket.WebSocket.Close | server/apiClients/binanceClient.js:154 | the socket is closed and what it sent is unchanged |
| ExchangeSocket.Backoff | server/apiClients/binanceClient.js:87-100 | a reconnect is scheduled exactly while fewer than five attempts were made, carrying the counter value it was scheduled at |
| ExchangeSocket.BackoffDelays | server/apiClients/binanceClient.js:90 | the possible delays are exactly 1, 2, 4, 8 and 16 seconds |
| ExchangeSocket.BackoffDoubles | server/apiClients/binanceClient.js:90 | each reconnect waits twice as long as the one before it |
| ExchangeSocket.RetriesAreBounded | server/apiClients/binanceClient.js:88-99 | a socket that never opens again is reconnected exactly `5 - attempts` more times (none from five on), then the handler gives up |
| ExchangeSocket.ReconnectPlanAsWritten | server/apiClients/binanceClient.js:77-96 | the close handler as written: a symbol with no attempt counter is reconnected one second later |
| ExchangeSocket.UnsubscribedSymbolIsReconnected | server/apiClients/binanceClient.js:151-159 | after `unsubscribe` has deleted the counter and closed the socket, the close handler schedules a reconnect of the symbol one second later |
| ExchangeSocket.ReconnectPlan | server/apiClients/binanceClient.js:87-100 | the intended close handler: a symbol without a data callback is never reconnected; a subscribed symbol is reconnected exactly when fewer than five attempts were made, with the same back-off as written |
| ExchangeSocket.ScheduleReconnect | server/apiClients/binanceClient.js:87-100 | the close handler's decision that both clients share, as written: `ReconnectPlanAsWritten`, a retry exactly while fewer than five attempts are recorded, after 1000·2^attempts ms, whether or not the symbol is still subscribed |
| BinanceClient.StreamName | server/apiClients/binanceClient.js:47-53 | `ticker`, `depth` and `trade` become `<symbol>@ticker`, `<symbol>@depth@100ms` and `<symbol>@trade` with the symbol lower-cased; any other stream passes through unchanged |
| BinanceClient.StreamNamesDistinct | server/apiClients/binanceClient.js:47-53 | the three known streams of a symbol get three different stream names |
| BinanceClient.StreamUrl | server/apiClients/binanceClient.js:47-56 | the connection URL starts with `wss://stream.binance.com:9443/ws/` |
| BinanceClient.Normalize | server/apiClients/binanceClient.js:102-140 | a frame gives at most one part; a ticker exactly when the stream name mentions `ticker`; an order book exactly when it mentions `depth` and not `ticker`; a trade exactly when it mentions `trade` and neither of the others; each part carries the frame's fields as the source maps them |
| BinanceClient.TickerFrameUpdatesOnlyTicker | server/apiClients/binanceClient.js:107-117 | merged into the exchange's market data, a ticker frame replaces the ticker and leaves the order book and the last trade as they were |
| BinanceClient.MergeTickerOnly | server/websocket/socketHandler.js:24-28 | merging a patch that carries only a ticker replaces the ticker and leaves the order book and trade alone |
| BinanceClient.BinanceClient.constructor | server/apiClients/binanceClient.js:6-17 | all four bookkeeping maps start empty |
| BinanceClient.BinanceClient.Connect | server/apiClients/binanceClient.js:42-85 | an existing connection is returned unchanged; otherwise a fresh open socket on the stream URL is recorded with the requested streams as a set; the attempt counters and callbacks are untouched |
| BinanceClient.BinanceClient.OnOpen | server/apiClients/binanceClient.js:59-62 | the symbol's attempt counter becomes 0; nothing else changes |
| BinanceClient.BinanceClient.HandleReconnect | server/apiClients/binanceClient.js:87-100 | the reconnect scheduled is the as-written plan: a retry exactly while fewer than five attempts are recorded, also for a symbol that was unsubscribed; for a symbol with a data callback it is the intended `ReconnectPlan` |
| BinanceClient.BinanceClient.FireReconnect | server/apiClients/binanceClient.js:92-96 | the counter becomes one more than the scheduled attempt, the old connection is dropped and a fresh socket is opened on the stream URL with the requested streams, whether or not the symbol is still subscribed; the callbacks are untouched |
| BinanceClient.BinanceClient.HandleMessage | server/apiClients/binanceClient.js:102-144 | the callback receives the normalised frame exactly when the symbol has one |
| BinanceClient.BinanceClient.Subscribe | server/apiClients/binanceClient.js:146-149 | the callback is registered and the symbol is connected as by `Connect` |
| BinanceClient.BinanceClient.Unsubscribe | server/apiClients/binanceClient.js:151-160 | a symbol with a connection has its socket closed and all four entries removed; a symbol without one is left alone |
| DeltaClient.DaysToExpiration | server/apiClients/deltaClient.js:70-76 | days until expiry clamped at zero: 0 for an expiry not after `now`, otherwise the positive number of days whose product with 86400000 is the remaining time; an unparseable date gives NaN (None) |
| DeltaClient.FormatOption | server/apiClients/deltaClient.js:52-61 | the option type is the lower-cased contract type; the price is the mark price, or the last price when there is no mark price; days to expiry as `DaysToExpiration`; expiry date and strike copied |
| DeltaClient.FormatAndFilter | server/apiClients/deltaClient.js:52-62 | the result is the formatted entries filtered for tradability, in the entries' order and with repeats kept (the map-then-filter reference `KeepTradable(MapFormat(..))`); an option is kept exactly when it is the formatting of some entry and has a positive price and positive days to expiry |
| DeltaClient.GetOptionsData | server/apiClients/deltaClient.js:39-68 | every option returned is tradable; a failed request, a missing `result` or an entry without a contract type gives []; otherwise the result is the entries formatted and then filtered, in order and with repeats, so an option is returned exactly when it is a tradable formatting of an entry |
| DeltaClient.KeepTradableCounts | server/apiClients/deltaClient.js:62 | the filter keeps each tradable option as many times as it occurs and drops every other one |
| DeltaClient.KeepTradableMembers | server/apiClients/deltaClient.js:62 | an option survives the filter exactly when it is tradable and was in the list |
| DeltaClient.Channels | server/apiClients/deltaClient.js:94-101 | one `{ name, symbol }` channel per stream, in order, naming the stream and the symbol |
| DeltaClient.Normalize | server/apiClients/deltaClient.js:151-187 | at most one part, chosen by exact channel name (`ticker`, `l2_orderbook`, `trades`); book levels are the parsed pairs; a trade is buyer-maker exactly when its side is `sell` |
| DeltaClient.DeltaClient.constructor | server/apiClients/deltaClient.js:6-17 | all four bookkeeping maps start empty |
| DeltaClient.DeltaClient.Connect | server/apiClients/deltaClient.js:79-129 | an existing connection is returned unchanged; otherwise a fresh open socket on `wss://socket.delta.exchange` is recorded with the streams as a set; counters and callbacks are untouched |
| DeltaClient.DeltaClient.OnOpen | server/apiClients/deltaClient.js:86-106 | the attempt counter becomes 0 and exactly one `subscribe` message naming every requested stream is sent |
| DeltaClient.DeltaClient.HandleReconnect | server/apiClients/deltaClient.js:131-144 | the reconnect scheduled is the as-written plan: a retry exactly while fewer than five attempts are recorded, also for a symbol that was unsubscribed; for a symbol with a data callback it is the intended `ReconnectPlan` |
| DeltaClient.DeltaClient.FireReconnect | server/apiClients/deltaClient.js:136-140 | the counter becomes one more than the scheduled attempt, the old connection is dropped and a fresh socket is opened on the Delta URL with the requested streams, whether or not the symbol is still subscribed; the callbacks are untouched |
| DeltaClient.DeltaClient.HandleMessage | server/apiClients/deltaClient.js:146-191 | the callback receives the normalised frame exactly when the symbol has one and the frame's type is `data` |
| DeltaClient.DeltaClient.Subscribe | server/apiClients/deltaClient.js:193-196 | the callback is registered and the symbol is connected as by `Connect` |
| DeltaClient.DeltaClient.Unsubscribe | server/apiClients/deltaClient.js:198-219 | a connected symbol's socket is sent one `unsubscribe` message for its stored streams and then closed, and all four entries are removed; an unconnected symbol is left alone |
| MarketTypes.ToLevels | server/apiClients/binanceClient.js:121-128 | one level per `[price, quantity]` pair, in order, carrying that pair's price and quantity |
| MarketTypes.Merge | server/websocket/socketHandler.js:24-28 | the merged slot has the properties of both plus `lastUpdate`; `lastUpdate` is `now`; a patched property takes the patch's value and every other property keeps its old value |
| MarketContext.Summary | server/websocket/socketHandler.js:109-116 | an exchange's `{ price, volume }` summary exists exactly when it has a ticker, and copies its price and volume |
| MarketContext.AggregateTicker | server/websocket/socketHandler.js:93-120 | null exactly when neither exchange has a ticker; the headline fields and timestamp come from the Binance ticker when there is one, else from the Delta one; each exchange's summary is present exactly when that exchange has a ticker |
| MarketContext.TopBids | server/websocket/socketHandler.js:140 | at most 20 bids (all of them when fewer), highest price first, drawn from the combined bids |
| MarketContext.TopAsks | server/websocket/socketHandler.js:141 | at most 20 asks (all of them when fewer), lowest price first, drawn from the combined asks |
| MarketContext.TopLevelsKeepBest | server/websocket/socketHandler.js:140-141 | the cut drops no bid priced above, and no ask priced below, one it keeps |
| MarketContext.AggregateOrderBook | server/websocket/socketHandler.js:122-151 | null exactly when neither exchange has a book; otherwise at most 20 bids sorted highest first and 20 asks sorted lowest first, each drawn from the Binance then Delta levels, stamped with the later of the two book times |
| MarketContext.TaggedMembers | server/websocket/socketHandler.js:156-168 | the trades before sorting are exactly the present trades, each tagged with its exchange |
| MarketContext.CombineTrades | server/websocket/socketHandler.js:153-172 | one entry per exchange that has a trade, a permutation of the tagged trades, newest first |
| MarketContext.NewestFirstOrder | server/websocket/socketHandler.js:171 | ascending in the sort key means descending in timestamp |
| MarketContext.CombineTradesMembers | server/websocket/socketHandler.js:153-172 | each present trade appears once, tagged with its exchange, and nothing else does |
| MarketContext.EqualTimesKeepBinanceFirst | server/websocket/socketHandler.js:171 | two trades with equal timestamps keep their insertion order, Binance first, because the sort is stable |
| MarketContext.FusedLastUpdate | server/websocket/socketHandler.js:85-89 | the fused `lastUpdate` is the largest of the three update times |
| MarketContext.UpdatedTouchesOneSlot | server/websocket/socketHandler.js:18-28 | `updateData` creates the symbol's entry if needed, merges the patch into exactly one source slot of that symbol, and leaves every other symbol and source unchanged |
| MarketContext.BinanceTickerLeads | server/websocket/socketHandler.js:93-119 | after a Binance ticker update the fused ticker shows that ticker's symbol and price and its Binance summary |
| MarketContext.ExchangeUpdateAdvancesLastUpdate | server/websocket/socketHandler.js:85-89 | after any exchange update the fused `lastUpdate` is at least the update time |
| MarketContext.PipelineUpdateAdvancesLastUpdate | server/websocket/socketHandler.js:85-89 | a pipeline update stamped `lastDAPPUpdate` raises the fused `lastUpdate` to at least that stamp |
| MarketContext.StartCalls | server/websocket/socketHandler.js:198-216 | the feeds started are exactly the exchanges not yet running for the symbol, at most two |
| MarketContext.StopCalls | server/websocket/socketHandler.js:218-228 | the feeds stopped are exactly the exchanges running for the symbol, at most two |
| MarketContext.SubscribeConsistent | server/websocket/socketHandler.js:174-216 | a subscription keeps every subscribed symbol with subscribers and both feeds running and no feed for an unsubscribed symbol; a symbol already subscribed starts no feed |
| MarketContext.MarketContext.constructor | server/websocket/socketHandler.js:12-16 | the three maps start empty |
| MarketContext.MarketContext.CurrentView | server/websocket/socketHandler.js:47-57 | the view is `getMarketData` of the current state |
| MarketContext.MarketContext.BroadcastUpdate | server/websocket/socketHandler.js:34-45 | exactly the subscribers whose socket is still connected receive the current view, each once |
| MarketContext.MarketContext.UpdateData | server/websocket/socketHandler.js:18-32 | the data becomes `Updated` of the old data; subscribers and feeds are unchanged; the connected subscribers of the symbol receive the new view |
| MarketContext.MarketContext.StoreSlot | server/websocket/socketHandler.js:19-28 | the data becomes `Updated` of the old data |
| MarketContext.MarketContext.EnsureSubscription | server/websocket/socketHandler.js:198-216 | both feeds are marked running and the calls are exactly `StartCalls` of the old flags |
| MarketContext.MarketContext.Subscribe | server/websocket/socketHandler.js:174-186 | the socket joins the symbol's subscribers; both feeds run; a new symbol starts the Binance then the Delta feed and a known one starts none; data is unchanged; the socket is sent the current view |
| MarketContext.MarketContext.AddSubscriber | server/websocket/socketHandler.js:175-181 | the bookkeeping of `subscribe`, with the same new state and calls |
| MarketContext.MarketContext.CleanupSubscription | server/websocket/socketHandler.js:218-231 | the running feeds are stopped and the symbol is removed from all three maps |
| MarketContext.MarketContext.Unsubscribe | server/websocket/socketHandler.js:188-196 | an unknown symbol changes nothing; a socket that was not the last leaves the others subscribed and nothing is stopped; the last socket out stops both feeds and removes the symbol's subscribers, flags and data |
| MarketContext.MarketContext.Disconnect | server/websocket/socketHandler.js:295-303 | the socket leaves every symbol; symbols it was the only subscriber of are removed with their data and exactly their feeds are stopped; every other symbol keeps its other subscribers and data |
| MarketContext.LeaveOne | server/websocket/socketHandler.js:298-302 | leaving one more symbol changes the subscriber and data maps exactly as one `unsubscribe` does |
| MarketContext.TornDownStep | server/websocket/socketHandler.js:298-302 | the feeds stopped when the socket leaves one symbol are exactly the newly torn-down ones |
| MarketContext.SubscribeMarket | server/websocket/socketHandler.js:249-260 | the rate limiter's entry is updated as `Decide` says; the socket is subscribed exactly when the limiter allows it; a rejection sends the rate-limit message and leaves the market state alone |
| MarketContext.AlertHistoryLimit | server/websocket/socketHandler.js:278 | the limit is never 0: a missing or zero limit reads as 50, any other is kept |
| MarketContext.GetAlertHistory | server/websocket/socketHandler.js:277-281 | a positive limit gives the last `limit` alerts; a negative one gives a suffix of the alerts; no limit gives the last 50 |
| VolatilityEngine.LogReturns | server/modules/volatilityEngine.js:21-25 | one log return per consecutive pair of prices, `log(prices[i+1] / prices[i])`, in order |
| VolatilityEngine.VarianceNonNegative | server/modules/volatilityEngine.js:32 | the uncorrected variance is never negative |
| VolatilityEngine.AnnualisedVolatilityNonNegative | server/modules/volatilityEngine.js:33-38 | the annualised volatility in percent is never negative |
| VolatilityEngine.ConstantPricesHaveZeroReturns | server/modules/volatilityEngine.js:21-25 | a price series that never moves has only zero log returns |
| VolatilityEngine.ConstantPricesHaveZeroVolatility | server/modules/volatilityEngine.js:15-39 | a price series that never moves has zero historical volatility |
| VolatilityEngine.CalculateLogReturns | server/modules/volatilityEngine.js:21-25 | the loop builds exactly `LogReturns` of the prices |
| VolatilityEngine.CalculateHistoricalVolatility | server/modules/volatilityEngine.js:15-39 | throws `Insufficient data for historical volatility calculation` exactly when there are fewer than `window + 1` prices; otherwise returns the annualised standard deviation, in percent, of the last `window` log returns, which is not negative |
| VolatilityEngine.NormCdf | server/modules/volatilityEngine.js:46-48 | the normal distribution function lies in [0, 1] when erf lies in [-1, 1], and is 1/2 at 0 when erf is odd |
| VolatilityEngine.D1 | server/modules/volatilityEngine.js:62 | for positive time and volatility, `d1` is positive at the money (spot equal to a non-zero strike) with a non-negative rate |
| VolatilityEngine.PositiveDrift | server/modules/volatilityEngine.js:62 | with a non-negative rate the drift term `(r + sigma^2 / 2) * T` is positive for positive time and volatility |
| VolatilityEngine.D2 | server/modules/volatilityEngine.js:63 | `d2` lies strictly below `d1`, by `sigma * sqrt(T)` |
| VolatilityEngine.BlackScholesCall | server/modules/volatilityEngine.js:59-66 | the call is worth 0 without time or volatility, and for a non-negative spot and strike never more than the spot |
| VolatilityEngine.BlackScholesPut | server/modules/volatilityEngine.js:77-84 | the put is worth 0 without time or volatility, and for a non-negative spot and strike never more than the discounted strike |
| VolatilityEngine.Vega | server/modules/volatilityEngine.js:96-103 | vega is 0 without time or volatility and never negative for a non-negative spot; the call/put flag does not change it |
| VolatilityEngine.NormCdfSymmetric | server/modules/volatilityEngine.js:46-48 | `N(x) + N(-x) = 1` for an odd `erf` |
| VolatilityEngine.PutCallParity | server/modules/volatilityEngine.js:59-84 | for positive time and volatility, call minus put equals `S - K e^(-rT)` |
| VolatilityEngine.VegaPositive | server/modules/volatilityEngine.js:96-103 | vega is positive for a positive spot, time and volatility |
| VolatilityEngine.NewtonPositive | server/modules/volatilityEngine.js:121-151 | every volatility the Newton iteration reaches from a positive start is positive, because a step to zero or below restarts at 1% |
| VolatilityEngine.ImpliedVolatilitySign | server/modules/volatilityEngine.js:117-152 | the implied volatility is positive exactly when the option has not expired, and 0 when it has |
| VolatilityEngine.CalculateImpliedVolatility | server/modules/volatilityEngine.js:117-152 | the loop returns the Newton-Raphson specification `ImpliedVolatility` (converged, stopped on a tiny vega, or out of iterations), which is positive exactly when `T > 0` |
| VolatilityEngine.AcceptedIVs | server/modules/volatilityEngine.js:164-181 | every kept volatility is strictly between 0 and 500; none is kept exactly when no option has a reasonable one |
| VolatilityEngine.QuoteImpliedVolatility | server/modules/volatilityEngine.js:166-174 | one option's implied volatility with `T = expiration / 365` and the call flag from its type; NaN when the expiration is not a number |
| VolatilityEngine.CollectIVs | server/modules/volatilityEngine.js:162-181 | the loop keeps exactly `AcceptedIVs`, in option order |
| VolatilityEngine.CalculateAverageIV | server/modules/volatilityEngine.js:161-186 | null exactly when no option has a volatility strictly between 0 and 500; otherwise the mean of the accepted volatilities, itself strictly between 0 and 500 |
| DataAcquisitionPipeline.FallbackSentiment | server/modules/dataAcquisitionPipeline.js:336-348 | the fallback sentiment is neutral (scores 0.33/0.33/0.34 summing to one, compound 0), counts no articles, carries the error message and is stamped now |
| DataAcquisitionPipeline.AccountBalancePlaceholder | server/modules/dataAcquisitionPipeline.js:262-271 | the placeholder balance totals 10000 and splits into available plus in-orders |
| DataAcquisitionPipeline.AssetKey | server/modules/dataAcquisitionPipeline.js:281-282 | the asset a symbol is looked up under is the symbol with its first "USDT" removed and lower-cased, with btc and eth renamed bitcoin and ethereum |
| DataAcquisitionPipeline.OptionsSymbol | server/modules/dataAcquisitionPipeline.js:242-247 | only ethereum queries ETHUSD; every other asset, known or not, queries BTCUSD |
| DataAcquisitionPipeline.OptionsKeyDistinct | server/modules/dataAcquisitionPipeline.js:119-236 | an asset's options cache key never collides with the history or sentiment keys |
| DataAcquisitionPipeline.PricePoints | server/modules/dataAcquisitionPipeline.js:136-139 | each `[timestamp, price]` pair becomes one point with that timestamp and price, in order |
| DataAcquisitionPipeline.AssetEntry | server/modules/dataAcquisitionPipeline.js:127-145 | an asset's entry is error-free exactly when the breaker returned a price series, whose points it then holds; a failure or the fallback array leaves no points and an error |
| DataAcquisitionPipeline.FetchAll | server/modules/dataAcquisitionPipeline.js:125-146 | one entry per configured asset, in order, each naming its asset; an entry with an error has no points |
| DataAcquisitionPipeline.FetchAllIsolatesAssets | server/modules/dataAcquisitionPipeline.js:125-146 | each asset's entry is what its own breaker call produced, so one asset's failure touches no other asset's entry |
| DataAcquisitionPipeline.Quotes | server/modules/dataAcquisitionPipeline.js:205-211 | the corrected quotes: one per formatted option, each with its expiry given in days |
| DataAcquisitionPipeline.QuotesAsWritten | server/modules/dataAcquisitionPipeline.js:205-211 | as written: each quote's expiry is the ISO date string, which turns `expiration / 365` into NaN |
| DataAcquisitionPipeline.AsWrittenImpliedVolatilityIsNull | server/modules/dataAcquisitionPipeline.js:208-211 | as written, no quote ever gives a reasonable implied volatility, so the average is always null |
| DataAcquisitionPipeline.ImpliedVolatilityOf | server/modules/dataAcquisitionPipeline.js:208-211 | the corrected implied volatility, with the expiry taken in days: with no options the implied volatility is null; otherwise it is the mean of the accepted values and lies strictly between 0 and the reasonable maximum |
| DataAcquisitionPipeline.ImpliedVolatilityAsWritten | server/modules/dataAcquisitionPipeline.js:205-211 | the implied volatility the pipeline records, from the quotes as the source builds them: always null |
| DataAcquisitionPipeline.PricesOf | server/modules/dataAcquisitionPipeline.js:195 | the prices of the points, in order |
| DataAcquisitionPipeline.LastQualifying | server/modules/dataAcquisitionPipeline.js:190-218 | the entry whose metrics an asset ends up with is one of its own entries with at least 21 points |
| DataAcquisitionPipeline.Metrics | server/modules/dataAcquisitionPipeline.js:195-218 | an asset with at least 21 points gets the historical volatility of its prices (non-negative), the last price as spot price, the time stamp now and, as the source is written, no implied volatility (Findings row 1) |
| DataAcquisitionPipeline.CachedOptions | server/modules/dataAcquisitionPipeline.js:249 | the options read back from the cache are the ones stored for the asset, and all of them are tradable |
| DataAcquisitionPipeline.Selected | server/modules/dataAcquisitionPipeline.js:190-213 | the assets given metrics are keyed by their own name and each has at least 21 points |
| DataAcquisitionPipeline.SelectedAt | server/modules/dataAcquisitionPipeline.js:190-213 | an asset gets metrics exactly when one of its entries has at least 21 points, and then from the last such entry |
| DataAcquisitionPipeline.Inputs | server/modules/dataAcquisitionPipeline.js:205 | each selected asset's metrics are computed from its entry and the options cached for it |
| DataAcquisitionPipeline.MetricsOf | server/modules/dataAcquisitionPipeline.js:188-229 | there is one metrics entry per selected asset and no other |
| DataAcquisitionPipeline.MetricsOfUpdate | server/modules/dataAcquisitionPipeline.js:213 | changing one asset's inputs changes only that asset's metrics |
| DataAcquisitionPipeline.VolatilityStep | server/modules/dataAcquisitionPipeline.js:190-218 | one pass of the loop over an entry with enough points adds exactly that asset's metrics, read with its freshly cached options |
| DataAcquisitionPipeline.VolatilitySkip | server/modules/dataAcquisitionPipeline.js:193 | an entry with fewer than 21 points changes nothing |
| DataAcquisitionPipeline.DappPatch | server/modules/dataAcquisitionPipeline.js:284-289 | the patch for a symbol carries the cycle's sentiment and balance, the stamp now, and its asset's volatility, which is `undefined` exactly when the asset has no metrics |
| DataAcquisitionPipeline.DappUpdatesAt | server/modules/dataAcquisitionPipeline.js:279-292 | after the cycle every configured symbol's 'dapp' slot holds this cycle's sentiment, balance, stamp and volatility; its exchange slots and every symbol not configured are unchanged |
| DataAcquisitionPipeline.DappMergeFits | server/modules/dataAcquisitionPipeline.js:292 | merging the patch into whatever 'dapp' slot was there leaves the patch's values |
| DataAcquisitionPipeline.AlertReading | server/modules/dataAcquisitionPipeline.js:295-301 | the alert check sees the compound sentiment, and a volatility and price exactly when the asset has error-free metrics |
| DataAcquisitionPipeline.AlertRound | server/modules/dataAcquisitionPipeline.js:279-302 | checking the symbols in order raises at most three alerts per symbol |
| DataAcquisitionPipeline.AlertLogNext | server/modules/dataAcquisitionPipeline.js:295-302 | capping the alert log after each symbol gives the same log as capping once after the whole round |
| DataAcquisitionPipeline.ErrorResults | server/modules/dataAcquisitionPipeline.js:315-325 | the error path reports no volatility, the cached sentiment or else the fallback, and the placeholder balance |
| DataAcquisitionPipeline.ErrorPathClearsVolatility | server/modules/dataAcquisitionPipeline.js:309-331 | after the error path every configured symbol's fused view shows no volatility |
| DataAcquisitionPipeline.FetchEach | server/modules/dataAcquisitionPipeline.js:125-146 | the loop over the assets gives exactly FetchAll's entries and leaves the breaker in FetchAll's state |
| DataAcquisitionPipeline.DataAcquisitionPipeline.constructor | server/modules/dataAcquisitionPipeline.js:11-40 | absent options take their defaults (a zero interval too); the three breakers start closed with thresholds 5/60 s, 5/60 s and 3/300 s; empty cache, not running, no context |
| DataAcquisitionPipeline.DataAcquisitionPipeline.Start | server/modules/dataAcquisitionPipeline.js:46-64 | a second start changes nothing; otherwise the context and the timer are stored and the pipeline runs |
| DataAcquisitionPipeline.DataAcquisitionPipeline.Stop | server/modules/dataAcquisitionPipeline.js:69-76 | the timer is cleared and the pipeline stops; context and cache are kept |
| DataAcquisitionPipeline.DataAcquisitionPipeline.FetchHistoricalData | server/modules/dataAcquisitionPipeline.js:118-152 | cached history is returned without calling the breaker; otherwise the result is FetchAll's and is cached |
| DataAcquisitionPipeline.DataAcquisitionPipeline.FetchMarketSentiment | server/modules/dataAcquisitionPipeline.js:157-180 | cached sentiment is returned as is; otherwise the breaker's result is returned and cached, and when the call fails the fallback is returned and nothing is cached |
| DataAcquisitionPipeline.DataAcquisitionPipeline.FetchOptionsData | server/modules/dataAcquisitionPipeline.js:235-257 | cached options are returned as is; otherwise Delta's formatted chain for the asset's underlying is returned and cached, even when empty |
| DataAcquisitionPipeline.DataAcquisitionPipeline.CalculateVolatilityMetrics | server/modules/dataAcquisitionPipeline.js:185-230 | the result is the metrics of the selected assets from their cached options, each with implied volatility null as the source computes it; every selected asset's options are now cached, and nothing cached before is lost |
| DataAcquisitionPipeline.DataAcquisitionPipeline.AddAssetMetrics | server/modules/dataAcquisitionPipeline.js:195-218 | one loop step over an entry with enough points extends the metrics to the entries seen so far |
| DataAcquisitionPipeline.DataAcquisitionPipeline.AssetMetrics | server/modules/dataAcquisitionPipeline.js:195-218 | the metrics of one asset are Metrics of its entry and the options now cached for it: historical volatility of its prices, its last price as spot, and implied volatility null because the ISO expiry divided by 365 is NaN |
| DataAcquisitionPipeline.DataAcquisitionPipeline.UpdateMarketContext | server/modules/dataAcquisitionPipeline.js:276-304 | the context's data is the result of the 'dapp' updates of all configured symbols in order, with subscriptions untouched; with an alert manager its state is the alert round's, capped at the log limit; without a context nothing happens |
| DataAcquisitionPipeline.DataAcquisitionPipeline.UpdateSymbol | server/modules/dataAcquisitionPipeline.js:280-302 | one symbol: its patch is merged into the context, and its reading is checked and remembered by the alert manager |
| DataAcquisitionPipeline.DataAcquisitionPipeline.HandlePipelineError | server/modules/dataAcquisitionPipeline.js:309-331 | with cached history or sentiment the context gets the error results for every symbol and the alert manager's alerts and previous values are those of the alert round over the error results; with neither, or without a context, the context and the alert manager are unchanged |
| DataAcquisitionPipeline.DataAcquisitionPipeline.Run | server/modules/dataAcquisitionPipeline.js:81-113 | one cycle reports the fetched history (cached, or one breaker call per asset) and sentiment (cached, the breaker's answer, or the fallback), the placeholder balance and the selected assets' metrics, pushes them to every configured symbol, leaves the alert manager in the alert round's state over the results (unchanged without a context) and records the time |
| DataAcquisitionPipeline.DataAcquisitionPipeline.Collect | server/modules/dataAcquisitionPipeline.js:85-99 | the fetching half of a cycle: the history is the cached one or the per-asset breaker results, the sentiment the cached one, the breaker's answer or the fallback, then the selected assets' metrics and the placeholder balance |
| DataAcquisitionPipeline.DataAcquisitionPipeline.GetStatus | server/modules/dataAcquisitionPipeline.js:353-362 | reports the running flag, interval, assets, symbols and last update |
| DataAcquisitionPipeline.DataAcquisitionPipeline.ClearCache | server/modules/dataAcquisitionPipeline.js:367-371 | the cache is empty afterwards |
| DataAcquisitionPipeline.DataAcquisitionPipeline.Expire | server/modules/dataAcquisitionPipeline.js:15 | a cache entry that reaches its time-to-live disappears and nothing else does |
| SimulationEngine.InitialPortfolio | server/modules/simulationEngine.js:11-25 | a fresh portfolio holds the initial balance, no positions, no trades, zeroed counters and is inactive |
| SimulationEngine.Find | server/modules/simulationEngine.js:137 | a position is found exactly when one is stored under the key, and the index found holds that key |
| SimulationEngine.SetPosition | server/modules/simulationEngine.js:154 | after `positions.set` the key holds the new position and keys stay distinct |
| SimulationEngine.SetPositionKeepsOthers | server/modules/simulationEngine.js:154 | `positions.set` leaves every position under another key as it was, and adds none |
| SimulationEngine.RemoveAt | server/modules/simulationEngine.js:230 | after `positions.delete` the key is gone and keys stay distinct |
| SimulationEngine.RemoveAtKeepsOthers | server/modules/simulationEngine.js:230 | `positions.delete` keeps exactly the positions under the other keys |
| SimulationEngine.WinsAtMostExits | server/modules/simulationEngine.js:208-210 | the winning trades never outnumber the EXIT records |
| SimulationEngine.OpenedPosition | server/modules/simulationEngine.js:136-152 | the stored position sits under `${type}_${strike}`, adds the quantity to an existing position's, and takes the strike as entry price and the new trade's fee |
| SimulationEngine.EnterTrade | server/modules/simulationEngine.js:104-133 | a trade succeeds exactly when the simulation is active, the cost with fees fits the balance and the drawdown is within the limit; each refusal has its own message, checked in that order |
| SimulationEngine.EntryEffect | server/modules/simulationEngine.js:136-180 | a successful entry debits the cost with fees (the balance stays non-negative), stores the position with all others kept, appends one ENTRY record with the new balance and counts one trade |
| SimulationEngine.EnterTradeConsistent | server/modules/simulationEngine.js:154-171 | an entry keeps position keys distinct and the trade counter equal to the number of ENTRY records |
| SimulationEngine.RepeatedEntriesAccumulate | server/modules/simulationEngine.js:136-143 | two entries with the same type and strike leave one position holding both quantities |
| SimulationEngine.ClosePosition | server/modules/simulationEngine.js:188-192 | closing fails with "Position not found" exactly when no position is stored under the key |
| SimulationEngine.CloseEffect | server/modules/simulationEngine.js:194-239 | a close credits the exit value less its fee, adds the net P&L to the total, counts a win exactly when that P&L is positive, appends one EXIT record and deletes only that position |
| SimulationEngine.ClosePositionConsistent | server/modules/simulationEngine.js:204-230 | a close keeps position keys distinct and the win counter equal to the number of profitable EXIT records |
| SimulationEngine.RoundTrip | server/modules/simulationEngine.js:104-240 | opening a fresh position and closing it costs the entry cost, returns the exit proceeds less fee, and books the price move less both fees as net P&L |
| SimulationEngine.CloseArithmetic | server/modules/simulationEngine.js:194-200 | the proceeds are `exitPrice·|qty|·(1 − feeRate)` and the gross P&L is the price move times the signed quantity |
| SimulationEngine.UpdatePositionPnL | server/modules/simulationEngine.js:246-258 | only the position under the symbol's key changes, and only with a price for it; balance, history and counters stay |
| SimulationEngine.UpdatePositionPnLConsistent | server/modules/simulationEngine.js:246-258 | a price update keeps the portfolio consistent |
| SimulationEngine.SumUnrealizedUpdate | server/modules/simulationEngine.js:265 | changing one position's unrealised P&L changes the total by exactly the difference |
| SimulationEngine.Status | server/modules/simulationEngine.js:263-277 | the total value is the balance plus the open positions' unrealised P&L, and the total P&L the realised P&L plus the same sum; the active flag, balance and performance are the portfolio's; with no positions total value and balance agree; the trade count is the history's length |
| SimulationEngine.PriceUpdateMovesTotalValue | server/modules/simulationEngine.js:246-277 | a price update moves the reported total value by exactly the change in that position's unrealised P&L |
| SimulationEngine.PeakOf | server/modules/simulationEngine.js:291-299 | the running peak is at least the initial balance and every recorded balance |
| SimulationEngine.MaxDrawdownOf | server/modules/simulationEngine.js:291-306 | the maximum drawdown is never negative, and finite for a positive initial balance; with a negative initial balance a peak of 0 makes it +Infinity for a balance below it and skips the NaN of a balance of 0 |
| SimulationEngine.MaxDrawdownDominates | server/modules/simulationEngine.js:295-304 | the maximum drawdown is at least the drawdown after every record |
| SimulationEngine.MaxDrawdownAtMostOne | server/modules/simulationEngine.js:291-306 | with no negative balance recorded the maximum drawdown lies in [0, 1] |
| SimulationEngine.Returns | server/modules/simulationEngine.js:309-317 | there is one return per EXIT record |
| SimulationEngine.PerformanceMetrics | server/modules/simulationEngine.js:282-318 | without EXIT records nothing changes; otherwise the win rate becomes the winning trades over the exits, the maximum drawdown the largest drop below the running peak (MaxDrawdownOf), the returns each exit's net P&L over the initial balance (Returns), and nothing else changes, the realised P&L included |
| SimulationEngine.WinRateIsFraction | server/modules/simulationEngine.js:288 | the win rate is the share of profitable exits and lies in [0, 1] |
| SimulationEngine.TradeHistory | server/modules/simulationEngine.js:324-326 | the last `limit` records, and the whole history for a limit of 0 |
| SimulationEngine.SimulationEngine.constructor | server/modules/simulationEngine.js:4-28 | a missing or zero balance, fee rate or drawdown limit takes its default (10000, 0.001, 0.1), any other value, negative included, is kept; the portfolio is fresh and there is no market data |
| SimulationEngine.SimulationEngine.StartSimulation | server/modules/simulationEngine.js:33-42 | only the active flag changes; the initial balance is reported |
| SimulationEngine.SimulationEngine.StopSimulation | server/modules/simulationEngine.js:47-58 | the portfolio is deactivated and its metrics recomputed; the final balance and realised P&L are reported |
| SimulationEngine.SimulationEngine.ResetSimulation | server/modules/simulationEngine.js:63-83 | a fresh portfolio and no market data |
| SimulationEngine.SimulationEngine.UpdateMarketData | server/modules/simulationEngine.js:90-98 | the price is recorded under the symbol and the matching position's P&L refreshed |
| SimulationEngine.SimulationEngine.UpdatePositionPnLStep | server/modules/simulationEngine.js:246-258 | the portfolio becomes UpdatePositionPnL of the old one, in place |
| SimulationEngine.SimulationEngine.ExecuteTrade | server/modules/simulationEngine.js:104-181 | a refused trade changes nothing and reports EnterTrade's error; an accepted one leaves EnterTrade's portfolio, and the portfolio stays consistent |
| SimulationEngine.SimulationEngine.ClosePositionStep | server/modules/simulationEngine.js:188-240 | an unknown key changes nothing; otherwise the portfolio becomes ClosePosition's, and stays consistent |
| SimulationEngine.SimulationEngine.GetPortfolioStatus | server/modules/simulationEngine.js:263-277 | the status is Status of the current portfolio: total value the balance plus the unrealised P&L |
| SimulationEngine.SimulationEngine.CalculatePerformanceMetrics | server/modules/simulationEngine.js:282-318 | the loop over the history leaves exactly PerformanceMetrics' portfolio: running peak and largest drawdown below it |
| SimulationEngine.SimulationEngine.GetTradeHistory | server/modules/simulationEngine.js:324-326 | the history as TradeHistory cuts it (50 records by default) |
| BacktestingEngine.Sma | server/modules/backtestingEngine.js:234-238 | the SMA is null exactly when there are fewer prices than the period; otherwise period times it is the sum of the last `period` prices |
| BacktestingEngine.SmaBetween | server/modules/backtestingEngine.js:234-238 | the SMA lies between any bounds of the prices it averages |
| BacktestingEngine.Gains | server/modules/backtestingEngine.js:249-253 | one non-negative gain per step between consecutive prices |
| BacktestingEngine.Losses | server/modules/backtestingEngine.js:249-253 | one non-negative loss per step between consecutive prices |
| BacktestingEngine.StepAt | server/modules/backtestingEngine.js:249-253 | entry `j` of the gains and losses is the rise and the fall from price `j` to price `j + 1` |
| BacktestingEngine.WindowAverage | server/modules/backtestingEngine.js:255-256 | the average over the window is non-negative, and zero exactly when the window sums to zero |
| BacktestingEngine.RsiOfAverages | server/modules/backtestingEngine.js:258-260 | the index lies in [0, 100]; it is 100 exactly when the average loss is 0, and 0 when there are losses and no gains |
| BacktestingEngine.Rsi | server/modules/backtestingEngine.js:243-244 | the RSI is null exactly when there are fewer than `period + 1` prices |
| BacktestingEngine.RsiRange | server/modules/backtestingEngine.js:243-261 | the RSI lies in [0, 100] and is 100 exactly when no step in the window was a fall |
| BacktestingEngine.RsiOfFallingPrices | server/modules/backtestingEngine.js:243-261 | prices that fell at every step of the window have an RSI of 0 |
| BacktestingEngine.RsiOfRisingPrices | server/modules/backtestingEngine.js:243-261 | prices that never fell in the window have an RSI of 100 |
| BacktestingEngine.CalculateRsi | server/modules/backtestingEngine.js:243-261 | the loop collecting each step's gain and loss gives exactly Rsi |
| BacktestingEngine.Multiplier | server/modules/backtestingEngine.js:287 | the smoothing factor `2 / (period + 1)` lies in (0, 1] |
| BacktestingEngine.Ema | server/modules/backtestingEngine.js:284-285 | the EMA is null exactly when there are fewer prices than the period |
| BacktestingEngine.EmaStepBetween | server/modules/backtestingEngine.js:291 | one smoothing step stays between any bounds of the EMA and the price |
| BacktestingEngine.EmaFoldBetween | server/modules/backtestingEngine.js:290-292 | smoothing over a list stays within any bounds of the seed and the list |
| BacktestingEngine.EmaBetween | server/modules/backtestingEngine.js:284-295 | the EMA lies within any bounds of the prices |
| BacktestingEngine.CalculateEma | server/modules/backtestingEngine.js:284-295 | the smoothing loop seeded with the mean of the first `period` prices gives exactly Ema |
| BacktestingEngine.MacdOf | server/modules/backtestingEngine.js:266-279 | fewer than 26 prices give zeros; the signal, an EMA of a one-element list, is always 0, so the histogram equals the MACD line |
| BacktestingEngine.MacdOfConstantPrices | server/modules/backtestingEngine.js:266-279 | constant prices have a zero MACD |
| BacktestingEngine.CalculateMacd | server/modules/backtestingEngine.js:266-279 | computing the MACD with the EMA loops gives exactly MacdOf |
| BacktestingEngine.ToUpper | server/modules/backtestingEngine.js:203 | upper-casing keeps the length and maps each ASCII letter to its capital |
| BacktestingEngine.LookbackWindow | server/modules/backtestingEngine.js:170-174 | the window is the last (at most) 21 prices up to and including the current point |
| BacktestingEngine.ContextAt | server/modules/backtestingEngine.js:168-229 | the context names the asset in capitals, carries the current price and the indicators of the look-back window |
| BacktestingEngine.ContextWindowFacts | server/modules/backtestingEngine.js:170-225 | with a 21-point window the 50-period SMA is always null and the MACD zero; the 20-period SMA and RSI appear from points 19 and 14 on; volatility is 0 before point 20; between every 24th point the fallback sentiment is used |
| BacktestingEngine.ContextVolatilityNonNegative | server/modules/backtestingEngine.js:177-184 | the context's volatility is never negative |
| BacktestingEngine.CreateMarketContext | server/modules/backtestingEngine.js:168-229 | the context built with the engine's own loops is exactly ContextAt |
| BacktestingEngine.PointSentiment | server/modules/backtestingEngine.js:187-199 | the sentiment is fetched only at every 24th point and used when it answers; otherwise the fallback with no articles |
| BacktestingEngine.LookbackVolatility | server/modules/backtestingEngine.js:177-184 | the historical volatility once the window holds 21 prices, 0 before |
| BacktestingEngine.CalculateIndicators | server/modules/backtestingEngine.js:220-225 | the indicators are SMA 20, SMA 50, RSI 14 and MACD of the window |
| BacktestingEngine.Start | server/modules/backtestingEngine.js:47-48 | the replay starts from an active simulation with no trades and the run's balance |
| BacktestingEngine.PointStep | server/modules/backtestingEngine.js:73-91 | one point keeps the simulated portfolio consistent |
| BacktestingEngine.Contexts | server/modules/backtestingEngine.js:61-68 | one context per point of the series |
| BacktestingEngine.ReplayAsset | server/modules/backtestingEngine.js:61-100 | replaying a series point by point keeps the portfolio consistent |
| BacktestingEngine.SeriesContexts | server/modules/backtestingEngine.js:58-68 | one list of contexts per asset series |
| BacktestingEngine.ReplayAll | server/modules/backtestingEngine.js:58-103 | replaying every series in turn keeps the portfolio consistent |
| BacktestingEngine.PointStepOpensOnly | server/modules/backtestingEngine.js:79-86 | a point never closes a position and never takes the balance below zero |
| BacktestingEngine.ReplayAssetOpensOnly | server/modules/backtestingEngine.js:61-100 | replaying a series records no exit and keeps the balance non-negative |
| BacktestingEngine.ReplayAllOpensOnly | server/modules/backtestingEngine.js:58-103 | replaying all series records no exit and keeps the balance non-negative |
| BacktestingEngine.TotalPointsPrefix | server/modules/backtestingEngine.js:55 | the points of the first assets never exceed the total, so the counter stays within it |
| BacktestingEngine.Progress | server/modules/backtestingEngine.js:94 | while points are replayed the progress stays between 10 and 90 |
| BacktestingEngine.ProgressAt | server/modules/backtestingEngine.js:93-94 | the progress recomputed after a point lies between 10 and 90 |
| BacktestingEngine.ProgressEnds | server/modules/backtestingEngine.js:52-94 | progress starts at 10, reaches 90 with the last point and never moves back |
| BacktestingEngine.EquityCurve | server/modules/backtestingEngine.js:339-356 | the curve starts at the initial balance and has one more point than there are trades |
| BacktestingEngine.EquityCurvePoints | server/modules/backtestingEngine.js:348-353 | every later point is the balance recorded with the matching trade |
| BacktestingEngine.EntryExtendsEquityCurve | server/modules/backtestingEngine.js:348-353 | entering a trade adds exactly one point, the balance after it |
| BacktestingEngine.ExitPnLs | server/modules/backtestingEngine.js:399 | one net P&L per EXIT record |
| BacktestingEngine.PositivePnLs | server/modules/backtestingEngine.js:402 | the profits are all positive and no more numerous than the exits |
| BacktestingEngine.NegativePnLs | server/modules/backtestingEngine.js:403 | the losses are all negative and no more numerous than the exits |
| BacktestingEngine.SeqMax | server/modules/backtestingEngine.js:412 | `Math.max(...xs)` is at least every element |
| BacktestingEngine.SeqMin | server/modules/backtestingEngine.js:413 | `Math.min(...xs)` is at most every element |
| BacktestingEngine.AnalysisOf | server/modules/backtestingEngine.js:402-415 | the analysis counts every exit and every profit, wins and losses together never exceed the exits, and the profit factor is infinite exactly when there are no losses |
| BacktestingEngine.Analyze | server/modules/backtestingEngine.js:396-416 | the analysis is empty exactly when no position was closed, and otherwise counts every exit |
| BacktestingEngine.PnLCounts | server/modules/backtestingEngine.js:402-403 | no P&L is both a profit and a loss |
| BacktestingEngine.WinsMatch | server/modules/backtestingEngine.js:402-407 | the wins the analysis counts are the wins the simulation counts |
| BacktestingEngine.AnalysisRates | server/modules/backtestingEngine.js:409-414 | the win rate lies in [0, 1] and a finite profit factor is non-negative |
| BacktestingEngine.AnalysisAverages | server/modules/backtestingEngine.js:410-413 | the average win lies in (0, largest win] and the average loss in [largest loss, 0) |
| BacktestingEngine.AnalysisMatchesPerformance | server/modules/backtestingEngine.js:396-416 | on a simulation's portfolio the analysis agrees with the simulation's own win and exit counts |
| BacktestingEngine.BacktestingEngine.constructor | server/modules/backtestingEngine.js:8-26 | missing or zero options take their defaults (both assets, 30 days, speed 1, 10000), any other balance, negative included, is kept; not running, no progress and no results |
| BacktestingEngine.BacktestingEngine.RunBacktest | server/modules/backtestingEngine.js:32-130 | a fresh simulation with the run's balance (any number; 0 falls back to 10000 in the simulation) replays every point of every series and is stopped; the results are its performance, progress is 100 and every point is counted |
| BacktestingEngine.BacktestingEngine.ReplayAllSeries | server/modules/backtestingEngine.js:55-103 | the outer loop leaves the simulation in ReplayAll's state and counts every point |
| BacktestingEngine.ReplaySeries | server/modules/backtestingEngine.js:61-100 | the inner loop leaves the simulation in ReplayAsset's state, counts the series' points and keeps progress within [10, 90] |
| BacktestingEngine.ReplayPoint | server/modules/backtestingEngine.js:64-91 | one point leaves the simulation in PointStep's state for the chain's answer to that point's context |
| BacktestingEngine.BacktestingEngine.StopBacktest | server/modules/backtestingEngine.js:300-306 | running stops and any simulation is stopped with its metrics recomputed |
| BacktestingEngine.BacktestingEngine.CalculateEquityCurve | server/modules/backtestingEngine.js:339-356 | empty before any run; otherwise the loop builds exactly EquityCurve from the engine's balance |
| BacktestingEngine.BacktestingEngine.AnalyzeTrades | server/modules/backtestingEngine.js:396-416 | empty before any run; otherwise Analyze of the simulation's history |
| BacktestingEngine.BacktestingEngine.GetResults | server/modules/backtestingEngine.js:323-334 | an error before any results; otherwise the results with the equity curve and the trade analysis |
| BacktestingEngine.BacktestClosesNothing | server/modules/backtestingEngine.js:32-130 | a finished backtest has never closed a position, so its trade analysis is always empty and its balance never negative |
| TechnicalIndicators.Nulls | client/src/utils/indicators.js:15 | `new Array(n).fill(null)`: n entries, all null |
| TechnicalIndicators.SmaAt | client/src/utils/indicators.js:19-25 | an SMA entry is null exactly before the first full window |
| TechnicalIndicators.CalculateSma | client/src/utils/indicators.js:13-28 | one entry per price, each the SMA of the window ending there (all null when there are fewer prices than the period) |
| TechnicalIndicators.SmaMatchesServer | client/src/utils/indicators.js:13-28 | the chart's last SMA equals the backtest's scalar SMA of the same prices |
| TechnicalIndicators.SmaWithinWindow | client/src/utils/indicators.js:23-24 | each SMA lies between any bounds of the prices of its window |
| TechnicalIndicators.EmaAt | client/src/utils/indicators.js:36-60 | an EMA entry is null exactly when there are fewer prices than the period or it precedes the first full window |
| TechnicalIndicators.CalculateEma | client/src/utils/indicators.js:36-60 | the pushes followed by the front padding give one entry per price, each EmaAt |
| TechnicalIndicators.EmaValueIsFold | client/src/utils/indicators.js:45-52 | the chart's EMA at a point is the seed, the mean of the first `period` prices, smoothed over the prices after it |
| TechnicalIndicators.EmaMatchesServer | client/src/utils/indicators.js:36-60 | the chart's last EMA equals the backtest's scalar EMA of the same prices |
| TechnicalIndicators.Smooth | client/src/utils/indicators.js:97-98 | Wilder's smoothing of non-negative values stays non-negative |
| TechnicalIndicators.SmoothedAverage | client/src/utils/indicators.js:85-98 | the smoothed average gain or loss is never negative |
| TechnicalIndicators.SmoothBetween | client/src/utils/indicators.js:97-98 | smoothing keeps the average between the previous average and the new step |
| TechnicalIndicators.RsiOfAverages | client/src/utils/indicators.js:93-100 | the index lies in [0, 100) and never reaches 100: without losses `rs` is 100, giving 10000/101; with losses and no gains it is 0 |
| TechnicalIndicators.RsiAt | client/src/utils/indicators.js:68-105 | an RSI entry is null exactly when there are fewer than `period + 1` prices or it precedes index `period`; every value lies in [0, 100) |
| TechnicalIndicators.CalculateRsi | client/src/utils/indicators.js:68-105 | the two passes give one entry per price, each RsiAt |
| TechnicalIndicators.PriceSteps | client/src/utils/indicators.js:78-82 | the first pass collects the same gains and losses as the backtest's RSI |
| TechnicalIndicators.FirstRsiMatchesServer | client/src/utils/indicators.js:85-94 | the chart's first RSI equals the backtest's RSI of the same window exactly when the backtest's is not 100; then the chart shows 10000/101 |
| TechnicalIndicators.MacdLine | client/src/utils/indicators.js:123-130 | one MACD-line entry per price |
| TechnicalIndicators.Present | client/src/utils/indicators.js:132 | filtering out the nulls never lengthens the list |
| TechnicalIndicators.PresentAfterNulls | client/src/utils/indicators.js:132 | filtering a list that is null exactly before position k leaves the values from k on, in order |
| TechnicalIndicators.MacdAt | client/src/utils/indicators.js:115-146 | all null with fewer than `slow` prices; the histogram exists exactly where both lines do and is their difference |
| TechnicalIndicators.MacdAlignment | client/src/utils/indicators.js:120-142 | with fast ≤ slow the MACD line starts at index slow − 1 as the difference of the two EMAs, and the signal starts `signal − 1` entries later when there are enough prices |
| TechnicalIndicators.CalculateMacd | client/src/utils/indicators.js:115-146 | one entry per price, each MacdAt |
| TechnicalIndicators.BandAt | client/src/utils/indicators.js:163-177 | the middle band is the SMA; the outer bands exist exactly when it does and lie `stdDev` standard deviations of the window above and below it |
| TechnicalIndicators.WindowVarianceIsPopulation | client/src/utils/indicators.js:167-169 | the band's variance is the population variance of the window |
| TechnicalIndicators.BandsOrdered | client/src/utils/indicators.js:172-176 | with a non-negative multiplier lower ≤ middle ≤ upper |
| TechnicalIndicators.FlatWindowCollapsesBands | client/src/utils/indicators.js:163-177 | a window of equal prices collapses all three bands onto that price |
| TechnicalIndicators.FlatWindowMoments | client/src/utils/indicators.js:167-169 | a window of equal prices has that price as SMA and zero variance |
| TechnicalIndicators.CalculateBollingerBands | client/src/utils/indicators.js:155-181 | one band per price, each BandAt |
| TechnicalIndicators.LowestPrice | client/src/utils/indicators.js:195-196 | the lowest price is at most every high and low |
| TechnicalIndicators.HighestPrice | client/src/utils/indicators.js:195-197 | the highest price is at least every high and low |
| TechnicalIndicators.Overlap | client/src/utils/indicators.js:224-228 | the overlap of a bin with a candle is never negative |
| TechnicalIndicators.ProfileGrid | client/src/utils/indicators.js:190-202 | a grid exists only for candles with a price range and at least one bin, starting at the lowest price with a positive bin size |
| TechnicalIndicators.VolumeProfile | client/src/utils/indicators.js:189-236 | the profile is empty exactly without candles, price range or bins; otherwise it has one level per bin, priced at the bin's centre; with the rule `AsWritten` a flat candle goes to the bin of its price only when that bin exists, as the source does |
| TechnicalIndicators.CalculateVolumeProfile | client/src/utils/indicators.js:189-236 | filling the array candle by candle gives exactly the `AsWritten` VolumeProfile, dropping a flat candle whose bin does not exist |
| TechnicalIndicators.DistributeCandle | client/src/utils/indicators.js:209-233 | one candle adds its `AsWritten` contribution to every bin (nothing for a flat candle whose bin index is `bins` or more) and changes nothing else |
| TechnicalIndicators.ContributionNonNegative | client/src/utils/indicators.js:210-231 | a candle with a non-negative volume adds a non-negative amount to every bin |
| TechnicalIndicators.ProfileVolumesNonNegative | client/src/utils/indicators.js:189-236 | candles with non-negative volumes give a profile with non-negative volumes |
| TechnicalIndicators.BinOfBounds | client/src/utils/indicators.js:213-221 | a price lies at or above its bin's start and below the next bin's |
| TechnicalIndicators.BinOfOrder | client/src/utils/indicators.js:220-223 | a bin starts at or below a price exactly when it is at most that price's bin |
| TechnicalIndicators.ContributionSpread | client/src/utils/indicators.js:219-231 | a candle with a range adds its volume-per-price share of the overlap to the bins from its low's to its high's (within the profile), and nothing elsewhere |
| TechnicalIndicators.SpreadTelescopes | client/src/utils/indicators.js:219-231 | the first n bins together take the candle's share of the part of its range they cover |
| TechnicalIndicators.FlatSpread | client/src/utils/indicators.js:211-216 | a flat candle adds its whole volume to exactly one bin when its bin exists, and nothing when its bin index is `bins` or more (as written, a flat candle at the highest price) |
| TechnicalIndicators.CandleConserved | client/src/utils/indicators.js:209-233 | a candle inside the profile's range hands over its whole volume, except that as written a flat candle at the highest price hands over nothing |
| TechnicalIndicators.WholeRangeCovered | client/src/utils/indicators.js:220-231 | all bins together cover a candle's whole range |
| TechnicalIndicators.BinsTotalByCandle | client/src/utils/indicators.js:209-233 | adding the profile bin by bin or candle by candle gives the same total |
| TechnicalIndicators.CandlesConserved | client/src/utils/indicators.js:209-233 | candles inside the profile's range hand over their whole volume, less, as written, that of the flat candles at the highest price |
| TechnicalIndicators.ProfileKeepsVolume | client/src/utils/indicators.js:189-236 | with every low at most its high, the profile's levels hold the volume the flat-candle rule keeps |
| TechnicalIndicators.ProfileLosesTopFlatVolume | client/src/utils/indicators.js:189-236 | as written, with every low at most its high, the levels hold the candles' total volume less exactly that of the flat candles at the highest price |
| TechnicalIndicators.ClampedProfileConservesVolume | client/src/utils/indicators.js:211-216 | with the flat-candle bin clamped to the last bin and every low at most its high, the levels hold exactly the candles' total volume |
| TechnicalIndicators.FlatCandleAtTopIsDropped | client/src/utils/indicators.js:213-214 | as written, a flat candle at the highest price falls one past the last bin; clamped, it lands in the last bin |
| TechnicalIndicators.FlatCandleAtTopExample | client/src/utils/indicators.js:211-216 | for `[{high 2, low 1, volume 4}, {high 2, low 2, volume 3}]` with 2 bins the flat candle's bin as written is 2, which does not exist, and the levels hold 4; clamped, they hold all 7 |
| TechnicalIndicators.AddLevelsContents | client/src/utils/indicators.js:248-251 | the fold adds one key per ratio holding its retracement and leaves other keys alone |
| TechnicalIndicators.FibonacciLevels | client/src/utils/indicators.js:244-252 | the levels are keyed by exactly the seven ratios, each holding `high − range·ratio` |
| TechnicalIndicators.FibonacciEnds | client/src/utils/indicators.js:244-252 | level 0 is the high, level 1 the low and level 0.5 halfway between |
| TechnicalIndicators.FibonacciOrdered | client/src/utils/indicators.js:244-252 | with high ≥ low, deeper ratios give lower prices and every level lies between low and high |
| TechnicalIndicators.WindowReturns | client/src/utils/indicators.js:272-276 | the window holds `window` log returns |
| TechnicalIndicators.HvAt | client/src/utils/indicators.js:260-290 | an entry is null exactly with fewer than `window + 1` prices or before index `window`; a value is NaN exactly when the window is 1; a window of 0 gives the annualised root of 0 |
| TechnicalIndicators.CalculateHistoricalVolatility | client/src/utils/indicators.js:260-290 | one entry per price, each HvAt |
| TechnicalIndicators.WindowVolatility | client/src/utils/indicators.js:270-286 | the loop body at a full window gives HvAt |
| TechnicalIndicators.CollectWindowReturns | client/src/utils/indicators.js:272-276 | the inner loop collects exactly the window's log returns, oldest first |
| TechnicalIndicators.SampleVarianceOf | client/src/utils/indicators.js:279-280 | the two reductions compute the sample variance |
| TechnicalIndicators.SampleVarianceCorrects | client/src/utils/indicators.js:280 | the chart's sample variance is the server's population variance scaled by n/(n − 1) |
| TechnicalIndicators.SampleVarianceNonNegative | client/src/utils/indicators.js:280 | the sample variance is never negative |
| TechnicalIndicators.WindowReturnsMatchServer | client/src/utils/indicators.js:272-276 | the chart's returns at a price are the last `window` log returns the server computes for the prices up to it |
| TechnicalIndicators.LastWindowMatchesServer | client/src/utils/indicators.js:272-276 | at the last price the chart's window of returns is the server's |
| TechnicalIndicators.ServerWindow | client/src/utils/indicators.js:272-276 | the server's window holds `window` returns |
| TechnicalIndicators.HvNonNegative | client/src/utils/indicators.js:279-285 | every volatility value is non-negative |
| TechnicalIndicators.EmptyWindowHasZeroHv | client/src/utils/indicators.js:272-285 | a window of 0 gives a zero volatility at every price: no returns, a variance of 0 over -1 |
| TechnicalIndicators.ConstantPricesHaveZeroHv | client/src/utils/indicators.js:260-290 | prices that never move have zero volatility wherever it is defined |
| AIAgentChain.MaxRequests | server/modules/aiAgentChain.js:222 | Gemini may make 10 requests a window, every other provider 5 |
| AIAgentChain.Recent | server/modules/aiAgentChain.js:229 | the filtered list holds exactly the stored times less than one 60 s window before `now`, and is no longer than the stored list |
| AIAgentChain.MinOf | server/modules/aiAgentChain.js:232 | `Math.min` of a non-empty list is one of its elements and no element is smaller |
| AIAgentChain.RateCheck | server/modules/aiAgentChain.js:228-238 | a check passes exactly when fewer than `max` recent times are stored; a passing check stores the recent times plus `now`, at most `max` of them, all within the window; a rejected check stores nothing new |
| AIAgentChain.CountFrom | server/modules/aiAgentChain.js:229 | the number of stored times at or after a moment never exceeds the number stored |
| AIAgentChain.RecentKeepsLate | server/modules/aiAgentChain.js:229 | filtering at a time less than a window after `lo` drops none of the times at or after `lo` |
| AIAgentChain.ChecksCounted | server/modules/aiAgentChain.js:219-239 | over a burst of checks all within one window after `lo`, the passes number at most `max` and are all still stored afterwards |
| AIAgentChain.WindowAdmitsAtMostMax | server/modules/aiAgentChain.js:219-239 | the sliding window: of any sequence of calls no more than one window apart, at most the provider's limit pass, whatever was stored before |
| AIAgentChain.RecheckAtSameTime | server/modules/aiAgentChain.js:222-236 | a second check at the same moment keeps the first check's list and adds `now` once more |
| AIAgentChain.FirstMissingFieldReported | server/modules/aiAgentChain.js:246-252 | for an object, the error names the first required field it lacks, whatever the schema type and the later fields |
| AIAgentChain.CheckRequiredFirstMissing | server/modules/aiAgentChain.js:246-252 | the required-field loop stops at the first absent field with "Missing required field: " and its name |
| AIAgentChain.CheckRequiredAllPresent | server/modules/aiAgentChain.js:246-252 | an object that has every required field passes the loop |
| AIAgentChain.ObjectValidIff | server/modules/aiAgentChain.js:244-264 | an object validates exactly when it has every required field and the schema does not ask for an array (both directions) |
| AIAgentChain.FirstAbsent | server/modules/aiAgentChain.js:246-252 | when some required field is absent there is a first one, with every earlier field present |
| AIAgentChain.ValidateJSON | server/modules/aiAgentChain.js:244-264 | the loop over the required fields and the two type checks give the result of the validation definition: a TypeError from `in` on a primitive or null, the first missing field, "Expected array", "Expected object", or success |
| AIAgentChain.ByConfidence | server/modules/aiAgentChain.js:145 | the sorted recommendations are a permutation of the input in non-increasing confidence |
| AIAgentChain.Highest | server/modules/aiAgentChain.js:145 | `[0]` of the sort is absent exactly for an empty list, and otherwise one of the recommendations with no recommendation more confident |
| AIAgentChain.Wrap | server/modules/aiAgentChain.js:158 | the rethrown message is "AI Agent Chain execution failed: " followed by the original message, unchanged |
| AIAgentChain.SelectHighest | server/modules/aiAgentChain.js:145 | the sort and `[0]` yield the confidence order and the most confident strategy |
| AIAgentChain.AIAgentChain.constructor | server/modules/aiAgentChain.js:120-124 | a new chain keeps both API keys and has no recorded requests |
| AIAgentChain.AIAgentChain.CheckRateLimit | server/modules/aiAgentChain.js:219-239 | passes exactly when the provider's rate check passes, then stores that check's list for this provider only; otherwise changes nothing and fails with the wait-time message; every stored list stays within its provider's limit |
| AIAgentChain.AIAgentChain.CallAgent | server/modules/aiAgentChain.js:165-166 | an agent step succeeds exactly when its provider's rate check passes and the agent answers, returning that answer; a failure carries the agent's error when the check passed and the wait-time message otherwise; the limiter gains the check's list for that provider when the check passes and is otherwise unchanged; result and limiter are those of `AgentStep` on the limiter before the call |
| AIAgentChain.AIAgentChain.IsConfigured | server/modules/aiAgentChain.js:269-271 | configured exactly when both the Gemini and the Cohere key are present and non-empty |
| AIAgentChain.AgentStep | server/modules/aiAgentChain.js:165-166 | one rate-checked agent call on a limiter: it succeeds exactly when the check passes and the agent answers; a passing check returns the agent's answer and stores the check's list for that provider; a rejected check leaves the limiter as it was |
| AIAgentChain.Chain | server/modules/aiAgentChain.js:132-160 | the chain on a limiter: every failure carries the chain's prefix; a success returns the market report, the strategies in confidence order, the most confident one as selected and the trade built for it; only the Gemini and Cohere lists can be added |
| AIAgentChain.ChainPaths | server/modules/aiAgentChain.js:132-160 | for each way out of the chain (first Gemini check rejected, report agent failed, second Gemini check rejected, strategy agent failed, Cohere check rejected, trade agent failed) the error rethrown with the chain's prefix, naming the wait time or carrying the agent's message, and the limiter left behind, holding every check that passed |
| AIAgentChain.ChainSucceeds | server/modules/aiAgentChain.js:132-160 | the chain succeeds exactly when both Gemini checks, the Cohere check and all three agents pass, and then leaves Gemini's recent times plus `now` twice and Cohere's recent times plus `now` once |
| AIAgentChain.AIAgentChain.ExecuteChain | server/modules/aiAgentChain.js:132-160 | the result and the new limiter are those of `Chain` on the limiter before the call; hence any failure comes back with the chain's prefix; the chain succeeds exactly when the first Gemini check, the report agent, the second Gemini check, the strategy agent, the Cohere check and the trade agent for the most confident strategy all pass; a success returns the market report, the strategies in confidence order, the most confident one as selected and the trade built for it, and leaves Gemini's recent times plus `now` twice and Cohere's recent times plus `now` once in the limiter; each failure path rethrows the rate-limit message or the agent's error behind the prefix and leaves the limiter with exactly the checks that passed before it; only those two lists can be added |
| Sorting.SortBy | server/modules/aiAgentChain.js:145 | the comparator sort returns a permutation of its input ordered by the key |
| Sorting.SortByStable | server/modules/aiAgentChain.js:145 | the sort is stable: elements with equal keys keep their input order |
| Sorting.SortedPrefixKeepsBest | server/websocket/socketHandler.js:140-141 | cutting the sorted list to its first `n` drops nothing that ranks before an element it keeps |

## Left out

- Floating point: every number is an exact real. Rounding, `Infinity` arithmetic and `NaN` propagation are modelled only where the source tests for them. The `profitFactor` of Infinity is an absent value.
- The transcendental functions are not defined. Magnitudes such as the Black–Scholes test values, Bollinger widths or the size of a volatility are not proved.
- The Sharpe ratio of `calculatePerformanceMetrics` (server/modules/simulationEngine.js:308-315) is left out because it is a floating-point magnitude.
- `getPerformanceReport` and the date-based `calculateMonthlyReturns` are left out. The first is a view over already-modelled state; the second depends on calendar dates.
- Timers, WebSocket callbacks and concurrency are not executed. `setInterval`, `setTimeout` and socket events become explicit steps that return the timer or frame they would create.
- `Promise.all` in `fetchHistoricalData` and `getMarketSentiment` is modelled as calls made one after the other, so interleavings are not captured.
- Each call reads the clock once. Code that calls `Date.now()` twice in one operation sees a single `now`.
- NodeCache TTL is modelled as presence or absence of a key. An explicit expiry step stands for a TTL running out.
- The AI agents' prompts, SDK calls and response schemas are left out. Their answers are parameters of `executeChain`.
- The REST ticker and candle calls and `throttleRequest` of the exchange clients are I/O and are left out, as is the `/api-keys/test` endpoint.
- The legacy `subscribe-price` socket event and the other socket events that only log are left out.
- The Express wiring is left out: the `express-rate-limit` instances at server/middleware/rateLimit.js:4-32, `asyncHandler`, the HTML error page and stack traces, and the account and authentication routes.
- Logging and `Date.now`-based alert and trade ids are left out.
- Case mapping (`toLowerCase`/`toUpperCase`) is ASCII-only.
- JavaScript `Map` and `Set` iteration order is modelled only where it is observable. Subscriber sets are Dafny sets, so the order in which subscribers receive a broadcast is not modelled.
- The simulation's positions are an insertion-ordered sequence of values. The source's in-place mutation of a shared position object (`position.unrealizedPnL = …`) is a replacement of that entry, so aliasing is not modelled.
- The sorts in `aggregateOrderBook`, `combineTrades` and `executeChain` are modelled on sequences with a stable insertion sort. The in-place array mutation is not modelled: the sorted sequence is what is returned or passed on.
- The position key `${type}_${strike}` is built for integral strikes only. JavaScript's rendering of fractional numbers is not modelled.
- `runBacktest` fetches through a parameter, and a failed fetch is an empty series. Its `speed` delay and the concurrent `stopBacktest` that the `isRunning` check observes between points are not modelled. The equity curve carries balances and no timestamps.
- The pipeline's `getStatus` cache statistics are left out.
- Indicators with `period` 0 produce `NaN`/division by zero in JavaScript. The model requires a positive period there.
- The Fibonacci levels map is keyed by the ratios as reals rather than by their decimal strings.
- The volume profile's bins are a sequence of (price, volume) pairs rather than objects.
- Historical volatility for a non-array input and the `NaN` logarithm of non-positive prices are left out.
- Delta's prices arrive as strings and are taken parsed. The choice between `mark_price` and `last_price` is made on presence, so it matches the source for string prices. A numeric 0, which JavaScript treats as falsy, is not distinguished.
- VolatilityEngine.ErfOdd: the oddness of erf is a hypothesis of the symmetry and put–call parity lemmas. It is not derived from a definition of erf.
- VolatilityEngine.ErfBounded: that erf lies in [-1, 1] is a hypothesis of the bounds on the normal distribution function and the option prices. It is not derived from a definition of erf.
- BacktestingEngine.ProgressAt: states only that the progress lies in [10, 90], not its exact value, which is `Progress`.
- DataAcquisitionPipeline.DataAcquisitionPipeline.ClearCache: empties the pipeline's own cache only. The source also flushes the sentiment analyser's cache (server/modules/dataAcquisitionPipeline.js:369). The pipeline here does not hold the analyser: its answer for a cycle arrives as the `sentiment` feed, so that cache is not part of the pipeline's state.
- AIAgentChain.HasField: sees only an object's own keys and an array's indices and `length`. JavaScript's `in` also finds inherited properties (`'toString' in {}`, `'map' in []`), which this reports missing, because the prototype chain is not modelled. Its TypeError text also omits the ` in <value>` suffix, because rendering an arbitrary value as text is not modelled.
- AIAgentChain.ValidateJSON: inherits both gaps of `HasField`. A required field that only the prototype supplies is reported missing, and the TypeError message lacks the ` in <value>` suffix.
- ErrorHandler.Respond: a `ValidationError` arrives with its list of messages. When it has no `errors`, `Object.values(undefined)` throws a TypeError inside the handler (server/middleware/errorHandler.js:35); that case is not modelled.
- Retry.IsRetryableError: an error's message is always a string here. An error without `message` makes `.includes` throw a TypeError (server/utils/retry.js:58); that case is not modelled.
- Quirks of the source that the model keeps as written, rather than treating as defects:
  - the client RSI caps `rs` at 100 when the average loss is 0, giving 10000/101, while the server RSI returns 100;
  - the client's historical volatility uses sample variance, the server's population variance;
  - a volume profile with 0 bins is empty;
  - a volatility window of 1 divides 0 by 0 (NaN), while a window of 0 divides the empty sum by -1 and gives 0;
  - `getRecentAlerts(0)` returns every alert, because `slice(-0)` is `slice(0)`;
  - `runBacktest` never resets `isRunning` after a normal completion;
  - `maskApiKey` of a key of exactly 8 characters reveals the whole key;
  - the breaker fallback of `fetchHistoricalData` is an array without `.prices`, which yields that asset's error entry.

## Findings

| source | as written | input that shows it | evidently intended | confidence | as-written member | corrected member |
|---|---|---|---|---|---|---|
| server/modules/dataAcquisitionPipeline.js:205-211 | the pipeline hands Delta's options to `calculateAverageIV`, which computes `option.expiration / 365` (server/modules/volatilityEngine.js:166); `expiration` is the ISO date string, so the time to expiry is `NaN`, every implied volatility is discarded and `impliedVolatility` is always null | any non-empty option list, e.g. one call with `expiration` "2024-12-27T08:00:00Z", `expirationDays` 30 and price 100 | the time to expiry is taken from `expirationDays` | not executed | DataAcquisitionPipeline.AsWrittenImpliedVolatilityIsNull | DataAcquisitionPipeline.ImpliedVolatilityOf |
| server/apiClients/binanceClient.js:151-159 | `unsubscribe` closes the socket and deletes the bookkeeping, but the socket's close handler (lines 77-80) still runs `handleReconnect`, which finds no attempts recorded and schedules a reconnect after 1000 ms for the symbol nobody wants; deltaClient.js has the same shape | subscribe to "BTCUSDT", then unsubscribe it | an unsubscribed symbol is not reconnected | not executed | ExchangeSocket.UnsubscribedSymbolIsReconnected | ExchangeSocket.ReconnectPlan |
| client/src/utils/indicators.js:213-214 | a zero-range candle whose price is the overall maximum gets `binIndex == bins`, fails `binIndex < bins` and its volume is dropped | candles {high 2, low 1, volume 4} and {high 2, low 2, volume 3} with 2 bins: the profile totals 4, not 7 | the top price falls into the last bin (`bins - 1`), so the profile conserves volume | not executed | TechnicalIndicators.FlatCandleAtTopExample | TechnicalIndicators.ClampedProfileConservesVolume |

# TSX trading simulator: verified model of the client-side core

This project models the client-side bookkeeping of a TSX (Toronto Stock
Exchange) trading simulator web app in Dafny and proves what that
bookkeeping promises. The backend (Supabase), the market-data HTTP API
(Alpha Vantage), the browser and the clock are inputs. Each call into them
becomes a parameter that holds what the promise settled to: a returned
value or a thrown error (`Base.Fetch`).

Modules:

- `RealTime` (`real_time.dfy`) is the live-data connection manager. It is a class with:
  - a four-state connection machine;
  - a reconnect counter, capped at 5, with exponential backoff;
  - an upper-cased subscription set;
  - at most one price-refresh interval and one heartbeat interval;
  - an event-name → callback registry.

  Every emitted event is appended to a ghost log. Beside each event the log
  records the callbacks that received it and the registry at that moment.
  Every public method that emits ensures `EmittedTo(listeners)`: each event it
  logged went to the registry as it then stood. `destroy()` ensures
  `EmittedTo(old(listeners))`, because it empties the registry only after its
  events.
  Each asynchronous step is split at its `await` into:
  - a method for the synchronous part;
  - a continuation method that takes the settled outcome.

  Pending `setTimeout`s are counters that "fired" methods consume.
- `MarketData` (`market_data.dfy`) is the service layer. It covers:
  - search validation and the popular-stock merge;
  - the quote guard;
  - batch quotes with per-symbol error isolation;
  - chart windows;
  - the persisted, case-insensitive watchlist;
  - the market-hours classifier.
- `StockApi` (`stock_api.dfy`) is the cached, rate-limited HTTP client. It covers:
  - TSX symbol formatting;
  - the rate-limit wait;
  - the cache and the order in which errors are checked;
  - the Canadian-listing filter sorted by match score;
  - the time-sorted series.
- `Auth` (`auth_store.dfy`) is the authentication store. It covers:
  - the user, session and profile fields;
  - the uniform error path;
  - sign-up metadata defaults;
  - the once-only initialisation and its listener;
  - local metadata updates for the current user;
  - the admin and approval predicates.

  `Json` (`json.dfy`) supplies JavaScript values, truthiness, `||` and object spread.
- `ConnectionView` (`connection_status.dfy`) is the connection indicator. It covers:
  - the status text, colour and icon;
  - the "time since last update" text;
  - the tooltip's symbol tags;
  - the handlers that keep the component's copy of the service state.
- `SearchBox` (`stock_search.dfy`) is the stock search box. It covers:
  - the keyboard selection state machine;
  - selection;
  - focus suggestions;
  - the debounced search.
- `UserManagement` (`user_management.dfy`) and `AdminStats` (`admin_stats.dfy`) are the admin views. They cover:
  - the user filters, the status badges and the filter-button counts;
  - the statistics counts, the two percentages and the five most recent users.
- Shared helpers: `Base`, `Text` (ASCII case mapping, trim over the JavaScript white-space set, substring search, decimal printing), `Sequences` (filter, count, de-duplication, insertion-ordered sets) and `Sorting` (insertion sort by an integer key, proved stable).

Numbers are integers. A match score is in units of 1/10000. Times are
integer milliseconds, except chart times, which are seconds.

## Model

| member | source | states |
|---|---|---|
| RealTime.RealTimeDataService.constructor | notes-app/src/services/realTimeDataService.js:7-30 | starts disconnected, with 0 attempts, no subscriptions, no intervals, no listeners, the given network flag and nothing pending |
| RealTime.RealTimeDataService.Emit | notes-app/src/services/realTimeDataService.js:351-362 | the event is logged once and is delivered to exactly the callbacks registered under its name, in registration order |
| RealTime.RealTimeDataService.On | notes-app/src/services/realTimeDataService.js:329-342 | the callback joins its event's set once, the set stays duplicate-free, and other event names are untouched |
| RealTime.RealTimeDataService.Off | notes-app/src/services/realTimeDataService.js:344-349 | the callback is no longer registered for the event; an unknown event name changes nothing |
| RealTime.RealTimeDataService.Connect | notes-app/src/services/realTimeDataService.js:33-39 | while connected or connecting it is a no-op with no event; otherwise it becomes connecting, emits exactly one connecting event and starts one connection test |
| RealTime.RealTimeDataService.SettleProbe | notes-app/src/services/realTimeDataService.js:41-73 | a passed test leads to connected, 0 attempts, the heartbeat armed and the refresh armed iff there are subscriptions; a failed or falsy test leads to disconnected plus one failure event and a reconnect check only when online |
| RealTime.RealTimeDataService.Establish | notes-app/src/services/realTimeDataService.js:45-58 | connected with `reconnectAttempts == 0`, the heartbeat armed, and price updates started exactly when the subscription set is non-empty |
| RealTime.RealTimeDataService.AnnounceConnected | notes-app/src/services/realTimeDataService.js:49-58 | the connected event is followed by the start events of the price refresh, which is armed exactly when there are subscriptions; every event goes to the current listeners |
| RealTime.RealTimeDataService.ConnectFailed | notes-app/src/services/realTimeDataService.js:59-73 | disconnected, one failure event carrying the error, and a reconnect check scheduled iff online |
| RealTime.RealTimeDataService.Disconnect | notes-app/src/services/realTimeDataService.js:76-85 | disconnected with both intervals cleared; it emits `priceUpdatesStopped` only if refresh was armed, then the user-disconnect event |
| RealTime.RealTimeDataService.Reconnect | notes-app/src/services/realTimeDataService.js:87-108 | at the cap it emits the terminal event and state, counter and timers stay as they were; below the cap the counter goes up by one, the state becomes reconnecting and the backoff is 1000·2^(n−1) ms |
| RealTime.RealTimeDataService.BackoffElapsed | notes-app/src/services/realTimeDataService.js:109-111 | after the backoff, `connect()` runs with its own no-op guard |
| RealTime.RealTimeDataService.ScheduleReconnect | notes-app/src/services/realTimeDataService.js:114-125 | offline it schedules nothing; online it schedules exactly one reconnect check |
| RealTime.RealTimeDataService.ReconnectCheckFired | notes-app/src/services/realTimeDataService.js:120-124 | the deferred reconnect happens only if the service is still disconnected; otherwise nothing changes |
| RealTime.RetriesExhausted | notes-app/src/services/realTimeDataService.js:87-125 | for a service whose connection test always fails, the backoffs are exactly 1, 2, 4, 8 and 16 s, and the sixth check gives up without another backoff |
| RealTime.BackoffDoubles | notes-app/src/services/realTimeDataService.js:108 | the first backoff is one second and each one doubles the previous one |
| RealTime.BackoffSchedule | notes-app/src/services/realTimeDataService.js:108 | entry i is the backoff before attempt i+1 |
| RealTime.FullBackoff | notes-app/src/services/realTimeDataService.js:11-12 | the five backoffs are [1000, 2000, 4000, 8000, 16000] ms |
| RealTime.RealTimeDataService.Subscribe | notes-app/src/services/realTimeDataService.js:134-150 | the upper-cased symbol is in the set, which stays duplicate-free; `symbolSubscribed` is always emitted, duplicates included, with the set size; price updates start only when connected and not yet armed |
| RealTime.RealTimeDataService.AnnounceSubscription | notes-app/src/services/realTimeDataService.js:138-147 | `symbolSubscribed` with the set size, then the refresh start events only when connected and not yet armed |
| RealTime.RealTimeDataService.Unsubscribe | notes-app/src/services/realTimeDataService.js:152-171 | the symbol is gone; a non-member changes nothing and emits nothing; removing a member emits `symbolUnsubscribed` with the new size, and removing the last one disarms refresh |
| RealTime.RealTimeDataService.GetSubscriptions | notes-app/src/services/realTimeDataService.js:173-175 | the symbols are distinct and upper-cased |
| RealTime.RealTimeDataService.StartPriceUpdates | notes-app/src/services/realTimeDataService.js:178-250 | a no-op if already armed or there are no subscriptions; otherwise it emits `priceUpdatesStarted` with the symbols, runs the first cycle's guards, and arms exactly one interval |
| RealTime.StartEventsSpec | notes-app/src/services/realTimeDataService.js:178-202 | the start emits nothing iff armed or empty; otherwise it emits `priceUpdatesStarted` first and then `priceUpdateStarted` exactly when the first cycle passes its online and connected guards |
| RealTime.RealTimeDataService.BeginPriceCycle | notes-app/src/services/realTimeDataService.js:190-202 | a cycle is skipped entirely (no event, no request) when offline or not connected; otherwise it emits `priceUpdateStarted` and requests one batch |
| RealTime.RealTimeDataService.RefreshTimerFired | notes-app/src/services/realTimeDataService.js:249 | an interval tick runs the same guarded cycle |
| RealTime.RealTimeDataService.CompletePriceCycle | notes-app/src/services/realTimeDataService.js:204-242 | a settled batch stamps the update time; success emits the per-symbol updates and then one `priceUpdateCompleted` whose count is the number of result keys; failure emits `priceUpdateError`, and an "API"/"network" error disconnects and schedules a reconnect |
| RealTime.RealTimeDataService.PublishBatch | notes-app/src/services/realTimeDataService.js:209-226 | the individual updates, then exactly one completion event counting every key |
| RealTime.RealTimeDataService.BroadcastQuotes | notes-app/src/services/realTimeDataService.js:211-219 | the loop emits exactly the update events of the successful, data-carrying results, in key order |
| RealTime.PriceUpdates | notes-app/src/services/realTimeDataService.js:211-219 | at most one event per result, each a `priceUpdate` carrying the batch timestamp |
| RealTime.PriceUpdatesSpec | notes-app/src/services/realTimeDataService.js:211-219 | every update event comes from a successful result with data and carries its symbol, its quote and the batch time; every such result is broadcast; when all succeed there is one event per key |
| RealTime.IsConnectionError | notes-app/src/services/realTimeDataService.js:238 | true iff the message contains "API" or "network" at some position |
| RealTime.RealTimeDataService.CycleFailed | notes-app/src/services/realTimeDataService.js:230-241 | one `priceUpdateError`; a connection error leads to disconnected plus one reconnect check when online; any other error changes no state |
| RealTime.RealTimeDataService.StopPriceUpdates | notes-app/src/services/realTimeDataService.js:252-259 | refresh is disarmed; `priceUpdatesStopped` is emitted only if an interval was armed |
| RealTime.RealTimeDataService.StartHeartbeat | notes-app/src/services/realTimeDataService.js:262-265 | any previous heartbeat is cleared first, so exactly one heartbeat interval is live |
| RealTime.RealTimeDataService.StopHeartbeat | notes-app/src/services/realTimeDataService.js:289-294 | no heartbeat interval is live |
| RealTime.RealTimeDataService.HeartbeatFired | notes-app/src/services/realTimeDataService.js:265-267 | a tick starts one status check |
| RealTime.RealTimeDataService.SettleHeartbeat | notes-app/src/services/realTimeDataService.js:266-286 | a settled check stamps the heartbeat time and emits `heartbeat`; a rejected one emits `heartbeatFailed` and disconnects only a connected service, scheduling a reconnect |
| RealTime.RealTimeDataService.HeartbeatLost | notes-app/src/services/realTimeDataService.js:273-285 | one `heartbeatFailed` event; a connected service becomes disconnected with one reconnect check if online, and any other state is kept |
| RealTime.RealTimeDataService.GoOnline | notes-app/src/services/realTimeDataService.js:298-310 | online, one network event, and one delayed connect scheduled iff disconnected |
| RealTime.RealTimeDataService.OnlineConnectFired | notes-app/src/services/realTimeDataService.js:308 | the delayed connect runs `connect()` with its own guard |
| RealTime.RealTimeDataService.GoOffline | notes-app/src/services/realTimeDataService.js:312-325 | offline, one network event, refresh stopped (with its event only if it was armed), and connected becomes disconnected while other states are kept |
| RealTime.RealTimeDataService.AnnounceOffline | notes-app/src/services/realTimeDataService.js:315-321 | the offline network event, then the refresh stopped, with its stop event only if it was armed |
| RealTime.RealTimeDataService.GetConnectionState | notes-app/src/services/realTimeDataService.js:365-374 | the snapshot's attempts never exceed 5, and its symbols are distinct and upper-cased |
| RealTime.RealTimeDataService.SyncData | notes-app/src/services/realTimeDataService.js:377-417 | it fails with "Not connected or offline" and emits nothing unless connected and online; with no symbols it succeeds after `syncStarted`; otherwise it returns the batch as it came, after `syncStarted` and `syncCompleted` (or `syncError` if the request threw) |
| RealTime.RealTimeDataService.Destroy | notes-app/src/services/realTimeDataService.js:420-424 | disconnected, both intervals cleared, the registry empty |
| MarketData.BlankQueryRefused | notes-app/src/services/marketDataService.js:15-21 | an empty or whitespace-only query returns the fixed error with no data, whatever the client would answer: no search takes place |
| MarketData.SearchStocks | notes-app/src/services/marketDataService.js:14-55 | it succeeds exactly when the trimmed query is non-empty and the client's search succeeds; a blank query or a thrown search gives no data and an error; otherwise the client's error is passed on and the client's results end the list |
| MarketData.SearchMerge | notes-app/src/services/marketDataService.js:23-47 | for a trimmed query of 1–2 characters, the matching popular stocks come before the client's results; a longer query returns the client's result unchanged |
| MarketData.Suggestions | notes-app/src/services/marketDataService.js:28-40 | exactly the popular stocks whose symbol or name contains the query case-insensitively, as CAD equities scored 0.9, in the order of the popular list |
| MarketData.GetStockQuote | notes-app/src/services/marketDataService.js:59-89 | an empty symbol gives "Symbol is required"; a thrown client error becomes a failed result; a successful quote keeps its values and is marked gainer iff change > 0 and loser iff change < 0, never both |
| MarketData.Put | notes-app/src/services/marketDataService.js:108 | assigning an object key adds the key, keeps keys distinct, and places a new key last (for non-integer keys other than `__proto__`) |
| MarketData.GetMultipleQuotes | notes-app/src/services/marketDataService.js:92-131 | a non-array or empty input fails with "Symbols array is required"; otherwise the loop yields the batch of all quotes in input order |
| MarketData.BatchSpec | notes-app/src/services/marketDataService.js:101-130 | one key per distinct symbol; success iff every symbol's quote succeeded iff there is no error; the error is the per-symbol lines joined by "; " in input order |
| MarketData.BatchDistinct | notes-app/src/services/marketDataService.js:105-124 | with distinct symbols the result has one entry per symbol, in input order |
| MarketData.ErrorsOf | notes-app/src/services/marketDataService.js:110-112 | no error lines iff every quote succeeded |
| MarketData.FilterDataByPeriodSpec | notes-app/src/services/marketDataService.js:177-206 | empty data and "MAX" are returned unchanged; otherwise exactly the points at or after now − N days are kept, in order |
| MarketData.PeriodTable | notes-app/src/services/marketDataService.js:183-203 | N is 5, 30, 90, 180 and 365 for 5D, 1M, 3M, 6M and 1Y, and 1 for any other period |
| MarketData.FilterDataByPeriod | notes-app/src/services/marketDataService.js:177-206 | the window holds no more points than the series, and only points of the series; `now` is `Date.now() / 1000` rounded up, which keeps the comparison with whole-second point times exact |
| MarketData.Loaded | notes-app/src/services/marketDataService.js:233-244 | loading never introduces duplicates: a missing value keeps the list, an unparsable one empties it |
| MarketData.SaveLoadRoundTrip | notes-app/src/services/marketDataService.js:233-254 | loading what was saved gives back the same watchlist |
| MarketData.Watchlist.constructor | notes-app/src/services/marketDataService.js:10 | an empty watchlist |
| MarketData.Watchlist.SaveToStorage | notes-app/src/services/marketDataService.js:247-254 | the stored value reads back as the current list |
| MarketData.Watchlist.AddToWatchlist | notes-app/src/services/marketDataService.js:209-212 | the upper-cased symbol is added once; membership in any ASCII letter case changes only for that symbol; the full list is persisted |
| MarketData.Watchlist.RemoveFromWatchlist | notes-app/src/services/marketDataService.js:214-217 | the symbol is absent in every ASCII letter case and nothing else changes; the full list is persisted |
| MarketData.Watchlist.ClearWatchlist | notes-app/src/services/marketDataService.js:227-230 | the list is empty and its emptiness is persisted |
| MarketData.Watchlist.LoadFromStorage | notes-app/src/services/marketDataService.js:233-244 | the list becomes what loading the stored value gives |
| MarketData.Watchlist.GetWatchlist | notes-app/src/services/marketDataService.js:219-221 | the list has no duplicates while the invariant holds, and a symbol is reported in the watchlist exactly when its upper-cased form is listed |
| MarketData.Watchlist.IsInWatchlist | notes-app/src/services/marketDataService.js:223-225 | membership of the upper-cased symbol: the same answer for the symbol written in lower or upper case |
| MarketData.AddIdempotent | notes-app/src/services/marketDataService.js:209-212 | adding the same symbol twice, in any case, is the same as adding it once |
| MarketData.MarketStatusTable | notes-app/src/services/marketDataService.js:294-313 | for whole hours: weekends are closed; on weekdays hours 10–15 are open, earlier hours are pre-market, later ones after hours; "Open" iff `isOpen` |
| MarketData.GetMarketStatus | notes-app/src/services/marketDataService.js:294-313 | open exactly on weekdays from 10:00 to 15:59 in whole hours, and then the status reads "Open"; "Closed (Weekend)" exactly on Saturday and Sunday; always one of the four statuses |
| MarketData.FirstHalfHourMisreported | notes-app/src/services/marketDataService.js:302 | the hour-only test reports 09:45 on a Monday as pre-market, although the market opens at 09:30 |
| MarketData.GetMarketStatusAt | notes-app/src/services/marketDataService.js:300-313 | open iff a weekday between 09:30 and 16:00 |
| MarketData.MarketStatusAgrees | notes-app/src/services/marketDataService.js:300-313 | outside hour 9 the corrected and as-written classifiers agree |
| StockApi.FormatTsxSymbol | notes-app/src/utils/stockApi.js:273-279 | appends ".TO" iff the symbol has neither "." nor ":"; the result always has an exchange marker and starts with the symbol |
| StockApi.FormatTsxSymbolIdempotent | notes-app/src/utils/stockApi.js:273-279 | formatting twice is formatting once |
| StockApi.PopularTsxStocks | notes-app/src/utils/stockApi.js:282-300 | the fixed list of 15 listings |
| StockApi.RateLimitWait | notes-app/src/utils/stockApi.js:21-31 | the wait is max(0, 12000 − elapsed), and a positive wait ends exactly 12 s after the previous call |
| StockApi.RateLimitSpacing | notes-app/src/utils/stockApi.js:26-33 | after the wait at least 12 s have passed since the previous call, and the wait never exceeds 12 s unless the clock went back |
| StockApi.StockApiClient.constructor | notes-app/src/utils/stockApi.js:16-23 | an empty cache and no previous call |
| StockApi.StockApiClient.WaitForRateLimit | notes-app/src/utils/stockApi.js:26-33 | waits the rate-limit wait, then records the time it resumes, which is at least 12 s after the previous call |
| StockApi.InterpretResponse | notes-app/src/utils/stockApi.js:59-74 | the body is the result iff the transport succeeded, the status is OK, the body decoded and it has neither "Error Message" nor "Information" |
| StockApi.ErrorBodyReported | notes-app/src/utils/stockApi.js:68-74 | an "Error Message" body is reported as "API Error: …", and this check comes before the rate-limit check |
| StockApi.StockApiClient.MakeApiCall | notes-app/src/utils/stockApi.js:36-83 | an entry younger than the cache duration is returned with no key check, no wait and no request; on a miss with no key the configuration error comes before any wait or request; otherwise it waits, sends one request, and caches only a successful body, with its timestamp; the new cache, `lastApiCall` and request count are `CacheAfter`, `LastCallAfter` and one more request exactly when the call `Sends` |
| StockApi.CacheAfter | notes-app/src/utils/stockApi.js:36-83 | only a call that went out and returned a body changes the cache: it stores that body under its key, stamped with its arrival time, and keeps every other entry |
| StockApi.LastCallAfter | notes-app/src/utils/stockApi.js:26-33 | a call that goes out leaves `lastApiCall` at or after now and at least 12 s after the previous one; otherwise it is unchanged |
| StockApi.RepeatCallHits | notes-app/src/utils/stockApi.js:38-43 | after a successful call, the same call within the cache duration of the body's arrival is a cache hit returning that body, whatever the network would answer, and sends nothing |
| StockApi.CanadianOnly | notes-app/src/utils/stockApi.js:98-104 | keeps exactly the matches of the list that are in region Canada or have ".TO", ".V" or ".CN" in the symbol |
| StockApi.CanadianOnlyKeepsOrder | notes-app/src/utils/stockApi.js:98-104 | the kept matches are a subsequence of the response, in its order, and each Canadian match is kept as often as it was returned |
| StockApi.ToStocks | notes-app/src/utils/stockApi.js:105-115 | one stock per match, field by field |
| StockApi.CanadianMatches | notes-app/src/utils/stockApi.js:97-116 | no `bestMatches` gives no results; otherwise at most as many results as matches, highest match score first |
| StockApi.CanadianMatchesSpec | notes-app/src/utils/stockApi.js:97-116 | the results are exactly the Canadian matches, each as often as returned (the same multiset), highest match score first, and matches with equal scores keep the order the endpoint returned them in |
| StockApi.CanadianMembers | notes-app/src/utils/stockApi.js:97-116 | sorting loses and adds nothing: the results are the stocks of the Canadian matches, with their multiplicities |
| StockApi.SearchOutcome | notes-app/src/utils/stockApi.js:97-130 | success iff the call returned; a success carries no error and its data is `CanadianMatches` of the returned `bestMatches` (so `CanadianMatchesSpec` applies): best score first, exactly the stocks of the Canadian matches, and none without `bestMatches`; a failure has no data and carries the error message |
| StockApi.CallOutcome | notes-app/src/utils/stockApi.js:36-83 | a fresh cache entry is returned as it is; on a miss a missing key throws the configuration error; any other returned body came from an OK response |
| StockApi.StockApiClient.SearchStocks | notes-app/src/utils/stockApi.js:86-131 | the search result of the cached call under `search_<query>`, with a ten-minute cache; the cache, `lastApiCall` and request count change as `MakeApiCall` states for that key and duration, so a success is a cache hit on the next call within the duration (`RepeatCallHits`) |
| StockApi.ChartData | notes-app/src/utils/stockApi.js:200-209 | chart points are the series' points with their multiplicities, in ascending time order (with lines 246-255 of the same file) |
| StockApi.SeriesOutcome | notes-app/src/utils/stockApi.js:195-269 | success iff the call returned and the series key is present; then the data is the series sorted by time; otherwise the data is empty and there is an error |
| StockApi.StockApiClient.FetchSeries | notes-app/src/utils/stockApi.js:184-223 | the series result of the cached call; the cache, `lastApiCall` and request count change as `MakeApiCall` states for that key and duration, so a success is a cache hit on the next call within the duration (`RepeatCallHits`) |
| StockApi.StockApiClient.GetIntradayData | notes-app/src/utils/stockApi.js:180-224 | the intraday series of the TSX-formatted symbol, cached for five minutes, oldest first; the cache, `lastApiCall` and request count change as `MakeApiCall` states for that key and duration, so a success is a cache hit on the next call within the duration (`RepeatCallHits`) |
| StockApi.StockApiClient.GetDailyData | notes-app/src/utils/stockApi.js:227-270 | the daily series of the TSX-formatted symbol, cached for fifteen minutes, oldest first; the cache, `lastApiCall` and request count change as `MakeApiCall` states for that key and duration, so a success is a cache hit on the next call within the duration (`RepeatCallHits`) |
| StockApi.StockApiClient.ClearCache | notes-app/src/utils/stockApi.js:303-305 | the cache is empty |
| StockApi.StockApiClient.GetCacheSize | notes-app/src/utils/stockApi.js:308-310 | the number of cache entries, which is zero iff the cache is empty |
| Json.Or | notes-app/src/store/authStore.js:46-47 | `a \|\| b` is one of its operands, and is truthy exactly when either operand is |
| Json.OrLaws | notes-app/src/store/authStore.js:46-47 | a truthy left operand is kept and a falsy one skipped; `\|\|` is associative and idempotent; a truthy fallback makes the result truthy |
| Json.Spread | notes-app/src/store/authStore.js:45-58 | the keys are the union, the right operand wins, and the left operand's other values are kept |
| Auth.AuthStore.constructor | notes-app/src/store/authStore.js:9-16 | no user, session or profile; loading; not authenticated; not initialised; no listener |
| Auth.AuthStore.SetUser | notes-app/src/store/authStore.js:19-23 | authenticated iff there is a user; the error is cleared |
| Auth.AuthStore.SetSession | notes-app/src/store/authStore.js:25-30 | the user is the session's user or none, authenticated iff that user exists, and the error is cleared |
| Auth.AuthStore.SetUserProfile | notes-app/src/store/authStore.js:32 | stores the profile |
| Auth.AuthStore.SetLoading | notes-app/src/store/authStore.js:34 | stores the loading flag |
| Auth.AuthStore.SetError | notes-app/src/store/authStore.js:36 | stores the error |
| Auth.AuthStore.ClearError | notes-app/src/store/authStore.js:38 | there is no error |
| Auth.ThrownMessage | notes-app/src/store/authStore.js:79 | the thrown message is reported when it is non-empty, otherwise the action's fallback, so the stored error is never empty |
| Auth.AuthStore.Fail | notes-app/src/store/authStore.js:60-62 | the uniform failure: the error message is stored, loading stops, and the action resolves to `{data: null, error}` |
| Auth.AuthStore.FailWith | notes-app/src/store/authStore.js:60-81 | a reported error is passed through; a thrown one becomes `{message}` with the fallback; either way it is stored and loading stops |
| Auth.SignUpMetadata | notes-app/src/store/authStore.js:45-58 | every caller-supplied key keeps the caller's value; otherwise role "user", status "pending", both balances 100000 and the name from `fullName` |
| Auth.NewAccountDefaults | notes-app/src/store/authStore.js:46-56 | with no caller data the account is a pending user with 100000, no trades, and empty name and avatar |
| Auth.AuthStore.SignUp | notes-app/src/store/authStore.js:41-83 | it sends the sign-up metadata; a failure takes the uniform error path and leaves the user, session, profile and `isAuthenticated` as they were; success without a user leaves those as they were too; success with a user stores user and session, is authenticated and loaded, and adopts the profile row if one arrived |
| Auth.AuthStore.SignIn | notes-app/src/store/authStore.js:86-113 | success stores the user and session, counts as authenticated and loaded, and adopts the profile row if there is a user and one arrived; a failure takes the uniform error path with "Failed to sign in" as the fallback and leaves the user, session, profile and `isAuthenticated` as they were |
| Auth.AuthStore.SignOut | notes-app/src/store/authStore.js:116-141 | success leaves no user and no session, not authenticated and no error; a failure keeps the user and reports the error |
| Auth.AuthStore.Request | notes-app/src/store/authStore.js:144-162 | a read-only action resolves to `{data, error: null}` or takes the uniform error path; loading stops either way (with lines 311-329 of the same file) |
| Auth.AuthStore.ResetPassword | notes-app/src/store/authStore.js:144-162 | loading ends; success returns the data with no error; a reported error is returned and stored; a thrown one is returned and stored with "Failed to send reset email" as the fallback |
| Auth.AuthStore.GetAllUsers | notes-app/src/store/authStore.js:311-329 | loading ends; success returns the data with no error; a reported error is returned and stored; a thrown one is returned and stored with "Failed to fetch users" as the fallback |
| Auth.AuthStore.UpdateProfile | notes-app/src/store/authStore.js:165-187 | success spreads the returned user over the local one; a failure leaves the user unchanged; a reply with no error whose `data` is `null` or `undefined` fails with the TypeError that `data.user` throws |
| Auth.ReadUserError | notes-app/src/store/authStore.js:177 | the TypeError thrown by reading `.user` off `null` or `undefined` has a non-empty message, so the `catch` reports it rather than the fallback |
| Auth.AuthStore.LoadUserProfile | notes-app/src/store/authStore.js:190-202 | the profile is replaced only when there is a user and the backend returned a row without error; otherwise it is kept |
| Auth.WithMetadata | notes-app/src/store/authStore.js:347-355 | only `user_metadata` changes, and in it only the one key |
| Auth.WithMetadataChangesOneField | notes-app/src/store/authStore.js:344-390 | the key gets the new value; every other metadata key and every other top-level property keeps its value; no key appears from nowhere |
| Auth.AuthStore.UpdateOwnMetadata | notes-app/src/store/authStore.js:331-399 | on success the local user changes only if it is the targeted user; a failure leaves it unchanged |
| Auth.AuthStore.ApproveUser | notes-app/src/store/authStore.js:331-365 | on success the data is returned, the error cleared and only the current user's `user_status` becomes "approved"; on failure the user is unchanged and the error is returned and stored |
| Auth.AuthStore.UpdateUserRole | notes-app/src/store/authStore.js:367-399 | on success the data is returned, the error cleared and only the current user's `role` becomes the new role; on failure the user is unchanged and the error is returned and stored |
| Auth.AuthStore.Reset | notes-app/src/store/authStore.js:219-273 | signed out and loaded, with no profile |
| Auth.AuthStore.Initialize | notes-app/src/store/authStore.js:205-275 | a no-op once initialised (every field kept, `initialized` still set); the first call adopts the stored session (authenticated iff it has a user, and the profile row adopted if one arrived) or resets on error; the listener is registered exactly once, while the invariant holds that at most one listener exists |
| Auth.AuthStore.OnAuthStateChange | notes-app/src/store/authStore.js:244-260 | the user follows the new session; without a user the profile is cleared |
| Auth.InitializeTwice | notes-app/src/store/authStore.js:205-263 | a second `initialize()` leaves every field of the store as it was (user, session, profile, `isAuthenticated`, `isLoading`, error, `initialized`, `listenerSetup`); the listener is registered iff the first one succeeded, and at most once |
| Auth.AuthStore.GetUserProfile | notes-app/src/store/authStore.js:278-297 | there is a profile exactly when there is a user, and it is the as-written `ProfileOf` of that user, with its id and creation time |
| Auth.ZeroBalanceReadsAsDefault | notes-app/src/store/authStore.js:288-289 | read with `\|\|`, a stored balance of 0 is reported as 100000 |
| Auth.BalanceAsWritten | notes-app/src/store/authStore.js:288-289 | the reading is never falsy, hence never 0: the stored balance or 100000 |
| Auth.Nullish | notes-app/src/store/authStore.js:288-289 | `??` yields one of its operands; a present value is kept even when falsy, and a present fallback gives a present result |
| Auth.Balance | notes-app/src/store/authStore.js:288-289 | a stored number, zero included, is reported as stored; a missing one reads as 100000 |
| Auth.BalanceAgrees | notes-app/src/store/authStore.js:288-289 | the corrected and as-written readings agree on every truthy balance and differ on 0 |
| Auth.ProfileOf | notes-app/src/store/authStore.js:278-297 | the id, email and creation time are copied; a truthy metadata field is reported as stored; the balances, role and status are never falsy |
| Auth.ProfileOfIntended | notes-app/src/store/authStore.js:283-296 | the profile with the balances read with `??`: it differs from `ProfileOf` only in the balances, and a stored current balance, zero included, is reported as stored |
| Auth.ProfileOfNewAccount | notes-app/src/store/authStore.js:283-296 | reading back a new account's metadata gives the values sign-up sent (with lines 45-58 of the same file) |
| Auth.ProfileOfSpentAccount | notes-app/src/store/authStore.js:288-289 | a fresh account whose balance is 0 reads back as 100000 as written and as 0 with `??`; both keep the starting balance of 100000 |
| Auth.AdminIsApproved | notes-app/src/store/authStore.js:300-308 | admin iff approved and role "admin"; without a profile, neither holds |
| Auth.AuthStore.IsAdmin | notes-app/src/store/authStore.js:300-303 | admin implies a profile that is approved |
| Auth.AuthStore.IsApproved | notes-app/src/store/authStore.js:305-308 | true iff the profile's status is "approved" |
| ConnectionView.StatusColor | notes-app/src/components/ConnectionStatus.jsx:64-77 | red when offline or disconnected, green when connected, gold while connecting or reconnecting |
| ConnectionView.StatusText | notes-app/src/components/ConnectionStatus.jsx:79-93 | "Offline" whatever the state when offline; otherwise "Live", "Connecting...", "Reconnecting... (n/5)" or "Disconnected" |
| ConnectionView.StatusIcon | notes-app/src/components/ConnectionStatus.jsx:95-108 | the plug when offline; otherwise a green, yellow or red dot by state |
| ConnectionView.ReconnectingTextsDiffer | notes-app/src/components/ConnectionStatus.jsx:88 | different attempt numbers give different texts |
| ConnectionView.StatusTextDistinguishes | notes-app/src/components/ConnectionStatus.jsx:79-93 | equal texts mean the same network flag, the same state when online, and the same attempt when reconnecting |
| ConnectionView.StatusViewsAgree | notes-app/src/components/ConnectionStatus.jsx:64-108 | colour, icon and text tell the same story: green iff "Live", gold iff the yellow dot, red iff "Offline" or "Disconnected" |
| ConnectionView.FormatLastUpdateSpec | notes-app/src/components/ConnectionStatus.jsx:116-125 | no time (or 0) reads "Never"; under a minute it shows the whole seconds elapsed (0–59 for a past time); under an hour the whole minutes (1–59); otherwise the locale time |
| ConnectionView.FormatLastUpdate | notes-app/src/components/ConnectionStatus.jsx:116-125 | no update (or time 0) reads "Never"; an update less than an hour old reads as relative ("… ago"); an older one shows the locale time |
| ConnectionView.SymbolTagsSpec | notes-app/src/components/ConnectionStatus.jsx:198-208 | at most five tags, forming a prefix of the symbols; "+k more" iff there are more than five, with the tags plus k making up all of them |
| ConnectionView.SymbolTags | notes-app/src/components/ConnectionStatus.jsx:198-208 | the tags are a prefix of at most five symbols, and the overflow text appears exactly when there are more than five |
| ConnectionView.ConnectionStatusView.constructor | notes-app/src/components/ConnectionStatus.jsx:7-11 | disconnected, with the browser's network flag, no update, no symbols and no attempts |
| ConnectionView.ConnectionStatusView.Mount | notes-app/src/components/ConnectionStatus.jsx:47-52 | copies the service's snapshot |
| ConnectionView.ConnectionStatusView.OnConnectionStateChanged | notes-app/src/components/ConnectionStatus.jsx:16-23 | a truthy attempt is shown; failing that, connected resets it to 0; otherwise it is kept |
| ConnectionView.ConnectionStatusView.OnNetworkStateChanged | notes-app/src/components/ConnectionStatus.jsx:26-28 | the network flag follows the event |
| ConnectionView.ConnectionStatusView.OnPriceUpdateCompleted | notes-app/src/components/ConnectionStatus.jsx:31-33 | the update time follows the event |
| ConnectionView.ConnectionStatusView.OnSymbolsChanged | notes-app/src/components/ConnectionStatus.jsx:36-44 | the symbols are re-read from the service |
| ConnectionView.ConnectionStatusView.Text | notes-app/src/components/ConnectionStatus.jsx:79-84 | the view reads "Offline" when offline and "Live" when connected |
| ConnectionView.ConnectionStatusView.HandleReconnect | notes-app/src/components/ConnectionStatus.jsx:110-114 | `connect()` is called iff the view shows disconnected and online; otherwise the service is untouched, and a stale view over a service already connected or connecting leaves its state and events as they were; one connection test is pending more exactly when `connect()` started one, and the events go to the current listeners |
| ConnectionView.ShowsReconnectAttempt | notes-app/src/components/ConnectionStatus.jsx:16-23 | after the service announces attempt n, the online view reads "Reconnecting... (n/5)" (with line 88 of the same file) |
| SearchBox.StockSearch.constructor | notes-app/src/components/stock/StockSearch.js:6-11 | an empty closed box with no selection; the query effect arms the debounce once on mount (with lines 52-59 of the same file) |
| SearchBox.StockSearch.SetQuery | notes-app/src/components/stock/StockSearch.js:52-66 | the debounce is re-armed iff the query actually changed |
| SearchBox.StockSearch.HandleInputChange | notes-app/src/components/stock/StockSearch.js:69-73 | the typed text becomes the query and the selection is cleared |
| SearchBox.StockSearch.HandleStockSelect | notes-app/src/components/stock/StockSearch.js:76-82 | empty query, no results, closed and no selection, before the stock is handed on |
| SearchBox.Down | notes-app/src/components/stock/StockSearch.js:89-93 | one step down, never past the last result |
| SearchBox.Up | notes-app/src/components/stock/StockSearch.js:96-98 | one step up, with a floor of −1 |
| SearchBox.ArrowsStayInRange | notes-app/src/components/stock/StockSearch.js:89-98 | the arrows keep an index in −1..n−1; k ArrowDowns go to min(i+k, n−1) and k ArrowUps to max(i−k, −1) |
| SearchBox.StockSearch.HandleKeyDown | notes-app/src/components/stock/StockSearch.js:85-118 | closed or empty results: nothing changes and nothing is handled; the arrows move; Enter selects only an index in range, clearing the query and re-arming the search debounce when the query was not already empty; Escape closes and clears the selection; other keys are ignored |
| SearchBox.FocusSuggestions | notes-app/src/components/stock/StockSearch.js:138-147 | the first eight popular stocks, in order, as CAD suggestions |
| SearchBox.StockSearch.HandleFocus | notes-app/src/components/stock/StockSearch.js:136-150 | with a blank query it opens with at most eight popular stocks; otherwise nothing changes |
| SearchBox.StockSearch.SearchTimerFired | notes-app/src/components/stock/StockSearch.js:18-27 | a blank query clears and closes the list without searching; any other query starts loading and clears the error |
| SearchBox.StockSearch.SearchSettled | notes-app/src/components/stock/StockSearch.js:30-46 | success shows the results and opens iff there are some; failure shows the error with an empty, closed list; loading stops either way |
| SearchBox.BlankQuerySearchesNothing | notes-app/src/components/stock/StockSearch.js:20-24 | typing only whitespace and waiting out the debounce starts no search and leaves the list closed and empty (with lines 69-73 of the same file) |
| UserManagement.FilteredUsers | notes-app/src/components/admin/UserManagement.jsx:41-48 | the kept users come from the list and pass the filter |
| UserManagement.FilteredUsersSpec | notes-app/src/components/admin/UserManagement.jsx:41-48 | "all" and unknown filters keep everyone; the status filters keep exactly that status; "admins" keeps exactly the admins; the order is kept |
| UserManagement.FilterButtons | notes-app/src/components/admin/UserManagement.jsx:87-116 | the five buttons appear in order: all, pending, approved, rejected, admins |
| UserManagement.ButtonCountsMatch | notes-app/src/components/admin/UserManagement.jsx:91-115 | each button's count is the length of the list its filter shows |
| UserManagement.StatusBadgeSpec | notes-app/src/components/admin/UserManagement.jsx:50-56 | exactly the three known statuses get their own badge, named after the status; all others get the unknown one |
| UserManagement.StatusBadge | notes-app/src/components/admin/UserManagement.jsx:50-56 | a badge other than the unknown one belongs to a known status and its class name is "status-" followed by the status |
| AdminStats.StatsOf | notes-app/src/components/admin/AdminStats.jsx:4-11 | total equals the number of users; pending + approved + rejected ≤ total and admins + regular ≤ total |
| AdminStats.StatsMatchFilterButtons | notes-app/src/components/admin/AdminStats.jsx:4-11 | the panel's counts equal the counts on the user list's filter buttons |
| AdminStats.Percent | notes-app/src/components/admin/AdminStats.jsx:109-112 | 0 for no users; otherwise the integer nearest to 100·part/total, with halves rounded up |
| AdminStats.PercentBounds | notes-app/src/components/admin/AdminStats.jsx:109-112 | a part of the whole gives 0..100; none gives 0 and all gives 100 |
| AdminStats.RatesArePercentages | notes-app/src/components/admin/AdminStats.jsx:109-112 | the approval rate and the admin ratio lie in 0..100, and both are 0 with no users |
| AdminStats.RecentUsers | notes-app/src/components/admin/AdminStats.jsx:13-15 | the caller's array is re-ordered in place to the newest-first sort of its old contents (stable, by `Sorting.SortStable`); the result is its first five entries, `Newest` of the old contents |
| AdminStats.Newest | notes-app/src/components/admin/AdminStats.jsx:13-15 | min(5, n) users, each taken from the list no more often than it occurs there |
| AdminStats.NewestSpec | notes-app/src/components/admin/AdminStats.jsx:13-15 | min(5, n) users from the list, newest first, and no user left off registered later than one listed |
| Sorting.SortBy | notes-app/src/components/admin/AdminStats.jsx:14 | the result is sorted by the key and is a permutation of the input, with the same length |
| Sorting.SortStable | notes-app/src/components/admin/AdminStats.jsx:14 | the sort is stable: the elements with any one key value come out in their input order |

## Left out

- Timers, promises and interleavings. The connection manager's timers and its connection test, refresh cycle and heartbeat are split into explicit steps: a synchronous-part method, a "fired" or "settled" method, and a counter of pending timers. Overlapping refresh cycles are allowed but are not reasoned about jointly. The other `await`s are not split; the lines below name them.
- `StockApi.StockApiClient.MakeApiCall`: the rate-limit wait, `await fetch` and `await response.json()` are one step, so two calls cannot overlap in the model. In the source two overlapping calls both read `lastApiCall` before either updates it, and can be sent less than 12 seconds apart; the spacing of `StockApi.RateLimitSpacing` holds only for calls that do not overlap.
- `RealTime.RealTimeDataService.SyncData`: the batch request and its settling are one step. The source emits `syncCompleted` or `syncError` after its `await`, to the listeners registered at that later time; the model delivers it to those registered when the call began.
- `MarketData.GetMultipleQuotes`: each symbol's `await getStockQuote` and the 100 ms delay after it are not separate steps. The per-symbol outcomes are inputs, and nothing interleaves between symbols.
- `Auth.AuthStore.SignUp`, `Auth.AuthStore.SignIn` and `Auth.AuthStore.Initialize`: the backend call and the profile load that follows it are one step each, so no other store action can run between them.
- `MarketData.Put`: a new key is placed last only for string keys. A JavaScript object lists integer-like keys (such as "123") first, in ascending order, and assigning `__proto__` sets the prototype instead of adding a key. The key order this gives `MarketData.BatchDistinct` and `RealTime.RealTimeDataService.BroadcastQuotes` is input order only for symbols of neither kind.
- `Text.Upper` and `Text.Lower`: they map only the ASCII letters, where `toUpperCase`/`toLowerCase` map every Unicode letter (and can change the length, as "ß" to "SS"). The case-insensitive matches of `MarketData.Suggestions` and `MarketData.SearchStocks`, the watchlist operations (`MarketData.Watchlist.AddToWatchlist`, `RemoveFromWatchlist`, `IsInWatchlist`), `RealTime.RealTimeDataService.Subscribe`/`Unsubscribe` and `SearchBox.StockSearch.HandleFocus` are therefore proved for ASCII case only. `Text.Trim` uses the full JavaScript white-space and line-terminator set.
- Listener callbacks are identities. Calling one has no effect on the service: re-entrant callbacks are not modelled, and a callback that throws is caught and ignored, as in the source.
- `Date.now()`, `new Date()` and `toLocaleTimeString()` are parameters. Time-zone conversion in `getMarketStatus` is replaced by hour and day inputs.
- `RealTime.ProbeError`: its falsy-probe branch ("Connection test failed") cannot be reached with the present `getMarketStatus`, which always returns an object. It is modelled anyway.
- `RealTime.RealTimeDataService.SyncData`: the `syncError` branch is taken only when the batch request throws. `getMultipleQuotes` never throws, so this branch is reached only through the `Threw` outcome parameter.
- `destroy()` does not detach the window listeners: it passes `this.onOnline`/`this.onOffline`, which are never assigned. The model likewise leaves `GoOnline`/`GoOffline` callable after `Destroy`.
- `disconnect()` does not cancel reconnect checks or backoffs already scheduled. The model keeps those counters as they are, so a check can still fire after a user disconnect.
- `subscribe` emits `symbolSubscribed` even for a symbol already in the set. The model does the same.
- The HTTP exchange and the JSON decoding are left out. `fetch`, `URLSearchParams` and `response.json()` are an abstract `HttpResponse` input. `parseFloat`/`parseInt` of the Alpha Vantage fields are integer inputs. `getQuote`'s field mapping is left out for the same reason, and `formatCurrency`/`formatNumber` (the formatted fields of `getStockQuote`) are floating point and locale formatting.
- `getChartData`'s dispatch on the period is not modelled; `filterDataByPeriod` and the two series readers are.
- A series key the JS object lists twice cannot occur in a decoded object. Dates that do not parse (`NaN` times in the sort) are not modelled.
- `MarketData.SearchStocks` filters the popular stocks with the untrimmed query, as the source does, although it measures the trimmed one.
- `localStorage` is a map from keys to stored values, and a stored value is parsed or unparsable. Storage write failures (quota) are not modelled. `loadWatchlistFromLocalStorage` is not upper-cased on load, as in the source.
- The store's `persist`/`partialize` middleware (saving the store to browser storage) is not modelled.
- `AdminStats.Percent`: `Math.round` over floating point is computed in exact arithmetic. The two can differ by one on ties, where the float product lands just below .5 (for example 29 of 200).
- `UserManagement.StatusBadge`: the JS object lookup also finds inherited properties (a status named `constructor`). That lookup is not modelled; such a status gets the unknown badge.
- A missing `user_status` or `role` on a user row is the empty string, which behaves exactly like `undefined` in every comparison the views make.
- The user-list actions (approve, reject, delete and role change from the list) and the modal are UI handlers over backend calls and are not modelled.
- `Auth.AuthStore.SignUp`: a successful sign-up without `data.user` (email confirmation pending) leaves `isLoading` true, as in the source.
- `Auth.AuthStore.SignOut`: it does not clear `userProfile`, as in the source.
- `Auth.AuthStore.SignIn`: it sets `isAuthenticated` even when `data.user` is null, as in the source.
- `Auth.AuthStore.SignUp` and `Auth.AuthStore.SignIn`: a reply with `error: null` and `data: null`, which would throw a TypeError at `data.user`, cannot be expressed, because their replies carry a `Credentials` value. `Auth.AuthStore.UpdateProfile` models that case, with the message text as the V8 engine words it.
- `SearchBox.StockSearch.SearchSettled`: the component's `catch` is unreachable because the service's `searchStocks` always resolves. Click-outside, blur, rendering and the tooltip hover state are not modelled.
- The view's listener registration and its cleanup on unmount are not modelled. The handlers are called directly with the event payloads.
- `AdminStats.RecentUsers`: `users.sort` re-orders the caller's props array in place, a side effect the source did not evidently intend. The model reproduces it on an `array`.

## Findings

| source | as written | input that shows it | evidently intended | confidence | as-written member | corrected member |
|---|---|---|---|---|---|---|
| notes-app/src/services/marketDataService.js:302 | `hour >= 9.5` on a whole hour admits only 10:00 onwards, so 09:30–09:59 is "Pre-Market" | a Monday at 09:45: the hour is 9 | open from 09:30, as the comment on line 300 says | not executed | MarketData.FirstHalfHourMisreported | MarketData.GetMarketStatusAt |
| notes-app/src/store/authStore.js:288-289 | `current_balance \|\| 100000` turns a balance of 0 into 100000 | `user_metadata.current_balance == 0` after spending everything | a stored 0 is shown as 0; only a missing balance defaults | not executed | Auth.ZeroBalanceReadsAsDefault | Auth.ProfileOfIntended |

`Auth.ProfileOf`, and through it `Auth.AuthStore.GetUserProfile`, read the
balances with `||`, as written. The corrected profile
`Auth.ProfileOfIntended` reads them with `??` (`Auth.Balance`);
`Auth.BalanceAgrees` and `Auth.ProfileOfSpentAccount` show where the two
readings part. The hour-only `MarketData.GetMarketStatus` is kept
as written, because the connection test only needs it to answer. The
corrected classifier `MarketData.GetMarketStatusAt` is related to it by
`MarketData.MarketStatusAgrees`.

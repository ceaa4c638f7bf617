/** The cached, rate-limited HTTP client for the market-data API
    (notes-app/src/utils/stockApi.js). The HTTP exchange itself is an input:
    each call that would reach the network receives the response it gets. */
module StockApi {
  import opened Base
  import opened Text
  import opened Sorting
  import opened Sequences

  /** Minimum spacing between two network calls, in milliseconds. */
  const RateLimitDelay := 12000
  /** Default freshness window of a cache entry, in milliseconds. */
  const CacheDuration := 5 * 60 * 1000
  const SearchCacheDuration := 10 * 60 * 1000
  const IntradayCacheDuration := 5 * 60 * 1000
  const DailyCacheDuration := 15 * 60 * 1000

  const MissingKeyMessage := "Alpha Vantage API key not configured. Please set REACT_APP_ALPHA_VANTAGE_API_KEY environment variable."

  // ---------------------------------------------------------------------------
  // Symbols

  /** A symbol without an exchange suffix ('.' or ':') is taken to be a TSX one. */
  function FormatTsxSymbol(symbol: string): (r: string)
    ensures '.' in r || ':' in r
    ensures StartsWith(r, symbol)
    ensures r == symbol <==> ('.' in symbol || ':' in symbol)
    ensures r != symbol ==> r == symbol + ".TO"
  {
    if !ContainsChar(symbol, '.') && !ContainsChar(symbol, ':') then symbol + ".TO" else symbol
  }

  /** Formatting an already formatted symbol changes nothing. */
  lemma FormatTsxSymbolIdempotent(symbol: string)
    ensures FormatTsxSymbol(FormatTsxSymbol(symbol)) == FormatTsxSymbol(symbol)
  {
  }

  /** The fixed list of well-known TSX listings offered without a search. */
  datatype PopularStock = PopularStock(symbol: string, name: string)

  function PopularTsxStocks(): (r: seq<PopularStock>)
    ensures |r| == 15
  {
    [ PopularStock("SHOP.TO", "Shopify Inc."),
      PopularStock("RY.TO", "Royal Bank of Canada"),
      PopularStock("TD.TO", "The Toronto-Dominion Bank"),
      PopularStock("BMO.TO", "Bank of Montreal"),
      PopularStock("BNS.TO", "The Bank of Nova Scotia"),
      PopularStock("CNR.TO", "Canadian National Railway Company"),
      PopularStock("CP.TO", "Canadian Pacific Kansas City Limited"),
      PopularStock("ENB.TO", "Enbridge Inc."),
      PopularStock("TRP.TO", "TC Energy Corporation"),
      PopularStock("WCN.TO", "Waste Connections, Inc."),
      PopularStock("CNQ.TO", "Canadian Natural Resources Limited"),
      PopularStock("SU.TO", "Suncor Energy Inc."),
      PopularStock("IMO.TO", "Imperial Oil Limited"),
      PopularStock("CVE.TO", "Cenovus Energy Inc."),
      PopularStock("ATD.TO", "Alimentation Couche-Tard Inc.") ]
  }

  // ---------------------------------------------------------------------------
  // Rate limiting and the response cache

  /** How long a call made at `now` waits when the previous call was at `last`. */
  function RateLimitWait(now: int, last: int): (w: nat)
    ensures now - last >= RateLimitDelay ==> w == 0
    ensures now - last < RateLimitDelay ==> w > 0 && now + w == last + RateLimitDelay
  {
    if now - last < RateLimitDelay then RateLimitDelay - (now - last) else 0
  }

  /** After waiting, at least `RateLimitDelay` has passed since the previous call. */
  lemma RateLimitSpacing(now: int, last: int)
    ensures (now + RateLimitWait(now, last)) - last >= RateLimitDelay
    ensures RateLimitWait(now, last) <= RateLimitDelay || now < last
  {
  }

  /** A match as the search endpoint returns it; `matchScore` is the parsed
      score in units of 1/10000. */
  datatype RawMatch = RawMatch(
    symbol: string, name: string, kind: string, region: string,
    marketOpen: string, marketClose: string, timezone: string,
    currency: string, matchScore: int)

  /** One bar of a price series; `time` is in seconds since the epoch. */
  datatype Bar = Bar(time: int, open: int, high: int, low: int, close: int, volume: int)

  /** The decoded JSON body of a response. An empty `errorMessage` or
      `information` stands for an absent (or falsy) field. */
  datatype Body = Body(
    errorMessage: string,
    information: string,
    bestMatches: Option<seq<RawMatch>>,
    timeSeries: map<string, seq<Bar>>)

  /** What `fetch` resolved to; `body` is the outcome of `response.json()`. */
  datatype HttpResponse = HttpResponse(ok: bool, status: int, statusText: string, body: Fetch<Body>)

  datatype CacheEntry = CacheEntry(data: Body, timestamp: int)

  /** The cache holds a usable entry for `key` at time `now`. */
  predicate IsFresh(cache: map<string, CacheEntry>, key: string, duration: int, now: int)
  {
    key in cache && now - cache[key].timestamp < duration
  }

  /** What `makeApiCall` makes of the network outcome once the request was sent:
      a transport failure, a non-OK status, an undecodable body, an
      "Error Message" body and an "Information" (rate limit) body are errors,
      in that order; any other body is the result. */
  function InterpretResponse(response: Fetch<HttpResponse>): (r: Fetch<Body>)
    ensures r.Returned? <==>
      response.Returned? && response.value.ok && response.value.body.Returned? &&
      response.value.body.value.errorMessage == "" && response.value.body.value.information == ""
    ensures r.Returned? ==> r.value == response.value.body.value
  {
    match response
    case Threw(m) => Threw(m)
    case Returned(resp) =>
      if !resp.ok then
        Threw("API request failed: " + IntToString(resp.status) + " " + resp.statusText)
      else
        match resp.body
        case Threw(m) => Threw(m)
        case Returned(data) =>
          if data.errorMessage != "" then Threw("API Error: " + data.errorMessage)
          else if data.information != "" then Threw("API Rate Limit: " + data.information)
          else Returned(data)
  }

  /** An error body is reported with its own message, before the rate-limit check. */
  lemma ErrorBodyReported(status: int, text: string, data: Body)
    requires data.errorMessage != ""
    ensures InterpretResponse(Returned(HttpResponse(true, status, text, Returned(data))))
      == Threw("API Error: " + data.errorMessage)
  {
  }

  // ---------------------------------------------------------------------------
  // Search results and series

  /** A search result as the views see it; `market` is absent for entries that
      were not produced by the search endpoint. */
  datatype MarketHours = MarketHours(open: string, close: string, timezone: string)
  datatype Stock = Stock(
    symbol: string, name: string, kind: string, region: string,
    currency: string, matchScore: int, market: Option<MarketHours>)

  /** The match is listed on a Canadian exchange. */
  predicate IsCanadian(m: RawMatch)
  {
    m.region == "Canada" || Contains(m.symbol, ".TO") || Contains(m.symbol, ".V") || Contains(m.symbol, ".CN")
  }

  function ToStock(m: RawMatch): Stock
  {
    Stock(m.symbol, m.name, m.kind, m.region, m.currency, m.matchScore,
          Some(MarketHours(m.marketOpen, m.marketClose, m.timezone)))
  }

  /** The Canadian matches: every kept match is Canadian and every Canadian match is kept. */
  function CanadianOnly(ms: seq<RawMatch>): (r: seq<RawMatch>)
    ensures |r| <= |ms|
    ensures forall i :: 0 <= i < |r| ==> IsCanadian(r[i])
    ensures forall m :: m in ms && IsCanadian(m) ==> m in r
    ensures forall m :: m in r ==> m in ms
  {
    if ms == [] then []
    else
      var rest := CanadianOnly(ms[1..]);
      assert forall m :: m in ms <==> m == ms[0] || m in ms[1..];
      if IsCanadian(ms[0]) then [ms[0]] + rest else rest
  }

  /** The Canadian matches keep their original order and their multiplicities. */
  lemma {:induction false} CanadianOnlyKeepsOrder(ms: seq<RawMatch>)
    ensures IsSubsequence(CanadianOnly(ms), ms)
    ensures forall m :: multiset(CanadianOnly(ms))[m] == if IsCanadian(m) then multiset(ms)[m] else 0
  {
    if ms != [] {
      CanadianOnlyKeepsOrder(ms[1..]);
      var rest := CanadianOnly(ms[1..]);
      var r := CanadianOnly(ms);
      assert ms == [ms[0]] + ms[1..];
      assert multiset(ms) == multiset{ms[0]} + multiset(ms[1..]);
      if IsCanadian(ms[0]) {
        assert r == [ms[0]] + rest && r[1..] == rest;
        assert multiset(r) == multiset{ms[0]} + multiset(rest);
      } else {
        assert r == rest;
        assert rest == [] || rest[0] != ms[0];
      }
    }
  }

  function ToStocks(ms: seq<RawMatch>): (r: seq<Stock>)
    ensures |r| == |ms|
    ensures forall i :: 0 <= i < |ms| ==> r[i] == ToStock(ms[i])
  {
    if ms == [] then [] else [ToStock(ms[0])] + ToStocks(ms[1..])
  }

  /** Sort key for "highest match score first". */
  function DescendingScore(s: Stock): int { -s.matchScore }

  /** The filter, map and sort pipeline of `searchStocks`; an absent
      `bestMatches` gives no results. */
  function CanadianMatches(bestMatches: Option<seq<RawMatch>>): (r: seq<Stock>)
    ensures bestMatches.None? ==> r == []
    ensures bestMatches.Some? ==> |r| <= |bestMatches.value|
    ensures forall i, j :: 0 <= i < j < |r| ==> r[i].matchScore >= r[j].matchScore
  {
    match bestMatches
    case None => []
    case Some(ms) => SortBy(ToStocks(CanadianOnly(ms)), DescendingScore)
  }

  /**
   * The results are exactly the Canadian matches, each as often as it was
   * returned, best score first; matches with equal scores keep the order the
   * endpoint returned them in.
   */
  lemma CanadianMatchesSpec(ms: seq<RawMatch>)
    ensures var r := CanadianMatches(Some(ms));
      && (forall i, j :: 0 <= i < j < |r| ==> r[i].matchScore >= r[j].matchScore)
      && (forall s :: s in r <==> exists m :: m in ms && IsCanadian(m) && s == ToStock(m))
      && multiset(r) == multiset(ToStocks(CanadianOnly(ms)))
      && (forall v :: Filter(r, KeyIs(DescendingScore, v)) == Filter(ToStocks(CanadianOnly(ms)), KeyIs(DescendingScore, v)))
      && |r| <= |ms|
  {
    forall v ensures Filter(CanadianMatches(Some(ms)), KeyIs(DescendingScore, v))
                     == Filter(ToStocks(CanadianOnly(ms)), KeyIs(DescendingScore, v)) {
      SortStable(ToStocks(CanadianOnly(ms)), DescendingScore, v);
    }
    CanadianMembers(ms);
  }

  /** A result is the stock of a Canadian match, and every Canadian match gives one. */
  lemma CanadianMembers(ms: seq<RawMatch>)
    ensures multiset(CanadianMatches(Some(ms))) == multiset(ToStocks(CanadianOnly(ms)))
    ensures forall s :: s in CanadianMatches(Some(ms)) <==> exists m :: m in ms && IsCanadian(m) && s == ToStock(m)
  {
    var kept := CanadianOnly(ms);
    var r := CanadianMatches(Some(ms));
    var stocks := ToStocks(kept);
    assert multiset(r) == multiset(stocks);
    forall s ensures s in r <==> exists m :: m in ms && IsCanadian(m) && s == ToStock(m) {
      if s in r {
        assert s in multiset(stocks);
        var i :| 0 <= i < |stocks| && stocks[i] == s;
        assert kept[i] in ms && IsCanadian(kept[i]);
      }
      if exists m :: m in ms && IsCanadian(m) && s == ToStock(m) {
        var m :| m in ms && IsCanadian(m) && s == ToStock(m);
        var i :| 0 <= i < |kept| && kept[i] == m;
        assert stocks[i] == s;
        assert s in multiset(r);
      }
    }
  }

  /** The chart points of a series, oldest first. */
  function ChartData(series: seq<Bar>): (r: seq<Bar>)
    ensures forall i, j :: 0 <= i < j < |r| ==> r[i].time <= r[j].time
    ensures multiset(r) == multiset(series)
  {
    SortBy(series, (b: Bar) => b.time)
  }

  datatype SearchResult = SearchResult(success: bool, data: seq<Stock>, error: Option<string>)
  datatype SeriesResult = SeriesResult(success: bool, data: seq<Bar>, error: Option<string>)

  /** What `makeApiCall` resolves to: a fresh cached body, else the missing-key
      error, else the interpreted network response. */
  function CallOutcome(cache: map<string, CacheEntry>, apiKey: string, key: string, duration: int,
                       now: int, response: Fetch<HttpResponse>): (r: Fetch<Body>)
    ensures IsFresh(cache, key, duration, now) ==> r == Returned(cache[key].data)
    ensures !IsFresh(cache, key, duration, now) && apiKey == "" ==> r == Threw(MissingKeyMessage)
    ensures r.Returned? && !IsFresh(cache, key, duration, now) ==>
      apiKey != "" && response.Returned? && response.value.ok && response.value.body == r
  {
    if IsFresh(cache, key, duration, now) then Returned(cache[key].data)
    else if apiKey == "" then Threw(MissingKeyMessage)
    else InterpretResponse(response)
  }

  /** `makeApiCall` goes to the network: there is no fresh entry and a key is configured. */
  predicate Sends(cache: map<string, CacheEntry>, apiKey: string, key: string, duration: int, now: int)
  {
    !IsFresh(cache, key, duration, now) && apiKey != ""
  }

  /**
   * The cache after `makeApiCall`: a call that went out and returned a body
   * stores it under its key, stamped with the time it arrived; every other
   * entry stays, and a failed call or a cache hit changes nothing.
   */
  function CacheAfter(cache: map<string, CacheEntry>, apiKey: string, key: string, duration: int,
                      now: int, response: Fetch<HttpResponse>, receivedAt: int): (c: map<string, CacheEntry>)
    ensures c.Keys <= cache.Keys + {key}
    ensures forall k :: k in cache && k != key ==> k in c && c[k] == cache[k]
    ensures Sends(cache, apiKey, key, duration, now) && CallOutcome(cache, apiKey, key, duration, now, response).Returned? ==>
      key in c && c[key] == CacheEntry(CallOutcome(cache, apiKey, key, duration, now, response).value, receivedAt)
    ensures !(Sends(cache, apiKey, key, duration, now) && CallOutcome(cache, apiKey, key, duration, now, response).Returned?) ==>
      c == cache
  {
    if Sends(cache, apiKey, key, duration, now) && InterpretResponse(response).Returned? then
      cache[key := CacheEntry(InterpretResponse(response).value, receivedAt)]
    else cache
  }

  /** `lastApiCall` after `makeApiCall`: moved to the end of the wait only when the call went out. */
  function LastCallAfter(lastApiCall: int, cache: map<string, CacheEntry>, apiKey: string, key: string,
                         duration: int, now: int): (t: int)
    ensures Sends(cache, apiKey, key, duration, now) ==> t >= now && t - lastApiCall >= RateLimitDelay
    ensures !Sends(cache, apiKey, key, duration, now) ==> t == lastApiCall
  {
    if Sends(cache, apiKey, key, duration, now) then now + RateLimitWait(now, lastApiCall) else lastApiCall
  }

  /**
   * A successful call is remembered: the same call made again before the
   * cache duration has passed since the body arrived is a cache hit that
   * returns that body, whatever the network would answer, and sends nothing.
   */
  lemma RepeatCallHits(cache: map<string, CacheEntry>, apiKey: string, key: string, duration: int,
                       now: int, response: Fetch<HttpResponse>, receivedAt: int,
                       later: int, laterResponse: Fetch<HttpResponse>)
    requires Sends(cache, apiKey, key, duration, now) && InterpretResponse(response).Returned?
    requires later - receivedAt < duration
    ensures var c := CacheAfter(cache, apiKey, key, duration, now, response, receivedAt);
      && IsFresh(c, key, duration, later)
      && !Sends(c, apiKey, key, duration, later)
      && CallOutcome(c, apiKey, key, duration, later, laterResponse) == InterpretResponse(response)
      && CacheAfter(c, apiKey, key, duration, later, laterResponse, receivedAt) == c
  {
  }

  /**
   * How `searchStocks` turns the call's outcome into its result: on success the
   * Canadian matches, best score first (CanadianMatchesSpec gives the rest).
   */
  function SearchOutcome(data: Fetch<Body>): (r: SearchResult)
    ensures r.success <==> data.Returned?
    ensures !r.success ==> r.data == [] && r.error == Some(data.message)
    ensures r.success ==> r.error.None? && r.data == CanadianMatches(data.value.bestMatches)
    ensures r.success ==> forall i, j :: 0 <= i < j < |r.data| ==> r.data[i].matchScore >= r.data[j].matchScore
    ensures r.success && data.value.bestMatches.None? ==> r.data == []
    ensures r.success && data.value.bestMatches.Some? ==>
      forall s :: s in r.data <==> exists m :: m in data.value.bestMatches.value && IsCanadian(m) && s == ToStock(m)
  {
    match data
    case Threw(m) => SearchResult(false, [], Some(m))
    case Returned(b) =>
      if b.bestMatches.Some? then
        CanadianMembers(b.bestMatches.value);
        SearchResult(true, CanadianMatches(b.bestMatches), None)
      else SearchResult(true, [], None)
  }

  /** How the series readers turn the call's outcome into their result. */
  function SeriesOutcome(data: Fetch<Body>, seriesKey: string, missing: string): (r: SeriesResult)
    ensures r.success ==> r.error.None? && SortedBy(r.data, (b: Bar) => b.time)
    ensures r.success <==> data.Returned? && seriesKey in data.value.timeSeries
    ensures r.success ==> multiset(r.data) == multiset(data.value.timeSeries[seriesKey])
    ensures !r.success ==> r.data == [] && r.error.Some?
  {
    match data
    case Threw(m) => SeriesResult(false, [], Some(m))
    case Returned(b) =>
      if seriesKey in b.timeSeries then SeriesResult(true, ChartData(b.timeSeries[seriesKey]), None)
      else SeriesResult(false, [], Some(missing))
  }

  // ---------------------------------------------------------------------------
  // The client

  class StockApiClient {
    /** The configured API key; the empty string means "not configured". */
    const apiKey: string
    var lastApiCall: int
    var cache: map<string, CacheEntry>
    /** Number of requests sent to the network so far. */
    ghost var requests: nat

    constructor (apiKey: string)
      ensures this.apiKey == apiKey && lastApiCall == 0 && cache == map[] && requests == 0
    {
      this.apiKey := apiKey;
      lastApiCall := 0;
      cache := map[];
      requests := 0;
    }

    /** Waits until `RateLimitDelay` has passed since the previous call and
        records the time it resumes at. */
    method WaitForRateLimit(now: int) returns (wait: nat)
      modifies this`lastApiCall
      ensures wait == RateLimitWait(now, old(lastApiCall))
      ensures lastApiCall == now + wait
      ensures lastApiCall - old(lastApiCall) >= RateLimitDelay
    {
      var timeSinceLastCall := now - lastApiCall;
      wait := 0;
      if timeSinceLastCall < RateLimitDelay {
        wait := RateLimitDelay - timeSinceLastCall;
      }
      lastApiCall := now + wait;
    }

    /** Returns a fresh cached body without any further work; otherwise
        refuses without a configured key, and otherwise waits, sends the
        request (whose outcome is `response`, arriving at `receivedAt`) and
        caches only a successful body. */
    method MakeApiCall(cacheKey: string, cacheDuration: int, now: int,
                       response: Fetch<HttpResponse>, receivedAt: int)
      returns (r: Fetch<Body>)
      modifies this`lastApiCall, this`cache, this`requests
      ensures r == CallOutcome(old(cache), apiKey, cacheKey, cacheDuration, now, response)
      ensures IsFresh(old(cache), cacheKey, cacheDuration, now) ==>
        r == Returned(old(cache)[cacheKey].data) &&
        cache == old(cache) && lastApiCall == old(lastApiCall) && requests == old(requests)
      ensures !IsFresh(old(cache), cacheKey, cacheDuration, now) && apiKey == "" ==>
        r == Threw(MissingKeyMessage) &&
        cache == old(cache) && lastApiCall == old(lastApiCall) && requests == old(requests)
      ensures !IsFresh(old(cache), cacheKey, cacheDuration, now) && apiKey != "" ==>
        && r == InterpretResponse(response)
        && lastApiCall == now + RateLimitWait(now, old(lastApiCall))
        && requests == old(requests) + 1
        && cache == (if r.Returned? then old(cache)[cacheKey := CacheEntry(r.value, receivedAt)] else old(cache))
      ensures cache == CacheAfter(old(cache), apiKey, cacheKey, cacheDuration, now, response, receivedAt)
      ensures lastApiCall == LastCallAfter(old(lastApiCall), old(cache), apiKey, cacheKey, cacheDuration, now)
      ensures requests == old(requests) + (if Sends(old(cache), apiKey, cacheKey, cacheDuration, now) then 1 else 0)
    {
      if cacheKey in cache {
        var cached := cache[cacheKey];
        if now - cached.timestamp < cacheDuration {
          return Returned(cached.data);
        }
      }
      if apiKey == "" {
        return Threw(MissingKeyMessage);
      }
      var _ := WaitForRateLimit(now);
      requests := requests + 1;
      r := InterpretResponse(response);
      if r.Returned? {
        cache := cache[cacheKey := CacheEntry(r.value, receivedAt)];
      }
    }

    /** Symbol search restricted to Canadian listings; any failure becomes an
        unsuccessful result with no data. */
    method SearchStocks(query: string, now: int, response: Fetch<HttpResponse>, receivedAt: int)
      returns (r: SearchResult)
      modifies this`lastApiCall, this`cache, this`requests
      ensures r == SearchOutcome(CallOutcome(old(cache), apiKey, "search_" + query, SearchCacheDuration, now, response))
      ensures cache == CacheAfter(old(cache), apiKey, "search_" + query, SearchCacheDuration, now, response, receivedAt)
      ensures lastApiCall == LastCallAfter(old(lastApiCall), old(cache), apiKey, "search_" + query, SearchCacheDuration, now)
      ensures requests == old(requests) + (if Sends(old(cache), apiKey, "search_" + query, SearchCacheDuration, now) then 1 else 0)
    {
      var data := MakeApiCall("search_" + query, SearchCacheDuration, now, response, receivedAt);
      match data
      case Threw(m) => r := SearchResult(false, [], Some(m));
      case Returned(b) => r := SearchResult(true, CanadianMatches(b.bestMatches), None);
    }

    /** The series under `seriesKey` of a fetched body, oldest point first. */
    method FetchSeries(cacheKey: string, duration: int, seriesKey: string, missing: string,
                       now: int, response: Fetch<HttpResponse>, receivedAt: int)
      returns (r: SeriesResult)
      modifies this`lastApiCall, this`cache, this`requests
      ensures r == SeriesOutcome(CallOutcome(old(cache), apiKey, cacheKey, duration, now, response), seriesKey, missing)
      ensures cache == CacheAfter(old(cache), apiKey, cacheKey, duration, now, response, receivedAt)
      ensures lastApiCall == LastCallAfter(old(lastApiCall), old(cache), apiKey, cacheKey, duration, now)
      ensures requests == old(requests) + (if Sends(old(cache), apiKey, cacheKey, duration, now) then 1 else 0)
    {
      var data := MakeApiCall(cacheKey, duration, now, response, receivedAt);
      match data
      case Threw(m) => r := SeriesResult(false, [], Some(m));
      case Returned(b) =>
        if seriesKey in b.timeSeries {
          r := SeriesResult(true, ChartData(b.timeSeries[seriesKey]), None);
        } else {
          r := SeriesResult(false, [], Some(missing));
        }
    }

    /** Intraday bars of a symbol (TSX by default), oldest point first. */
    method GetIntradayData(symbol: string, interval: string, now: int,
                           response: Fetch<HttpResponse>, receivedAt: int)
      returns (r: SeriesResult)
      modifies this`lastApiCall, this`cache, this`requests
      ensures r == SeriesOutcome(CallOutcome(old(cache), apiKey, "intraday_" + FormatTsxSymbol(symbol) + "_" + interval,
                                             IntradayCacheDuration, now, response),
                                 "Time Series (" + interval + ")", "No intraday data available")
      ensures cache == CacheAfter(old(cache), apiKey, "intraday_" + FormatTsxSymbol(symbol) + "_" + interval, IntradayCacheDuration, now, response, receivedAt)
      ensures lastApiCall == LastCallAfter(old(lastApiCall), old(cache), apiKey, "intraday_" + FormatTsxSymbol(symbol) + "_" + interval, IntradayCacheDuration, now)
      ensures requests == old(requests) + (if Sends(old(cache), apiKey, "intraday_" + FormatTsxSymbol(symbol) + "_" + interval, IntradayCacheDuration, now) then 1 else 0)
    {
      var formatted := FormatTsxSymbol(symbol);
      r := FetchSeries("intraday_" + formatted + "_" + interval, IntradayCacheDuration,
                       "Time Series (" + interval + ")", "No intraday data available",
                       now, response, receivedAt);
    }

    /** Daily bars of a symbol (TSX by default), oldest point first. */
    method GetDailyData(symbol: string, outputSize: string, now: int,
                        response: Fetch<HttpResponse>, receivedAt: int)
      returns (r: SeriesResult)
      modifies this`lastApiCall, this`cache, this`requests
      ensures r == SeriesOutcome(CallOutcome(old(cache), apiKey, "daily_" + FormatTsxSymbol(symbol) + "_" + outputSize,
                                             DailyCacheDuration, now, response),
                                 "Time Series (Daily)", "No daily data available")
      ensures cache == CacheAfter(old(cache), apiKey, "daily_" + FormatTsxSymbol(symbol) + "_" + outputSize, DailyCacheDuration, now, response, receivedAt)
      ensures lastApiCall == LastCallAfter(old(lastApiCall), old(cache), apiKey, "daily_" + FormatTsxSymbol(symbol) + "_" + outputSize, DailyCacheDuration, now)
      ensures requests == old(requests) + (if Sends(old(cache), apiKey, "daily_" + FormatTsxSymbol(symbol) + "_" + outputSize, DailyCacheDuration, now) then 1 else 0)
    {
      var formatted := FormatTsxSymbol(symbol);
      r := FetchSeries("daily_" + formatted + "_" + outputSize, DailyCacheDuration,
                       "Time Series (Daily)", "No daily data available",
                       now, response, receivedAt);
    }

    method ClearCache()
      modifies this`cache
      ensures cache == map[]
    {
      cache := map[];
    }

    method GetCacheSize() returns (n: nat)
      ensures n == |cache.Keys|
      ensures n == 0 <==> cache == map[]
    {
      n := |cache|;
    }
  }
}

/** The market-data service layer (notes-app/src/services/marketDataService.js):
    query validation, batch quotes with per-symbol error isolation, chart
    windows, the persisted watchlist and the market-hours classifier. */
module MarketData {
  import opened Base
  import opened Text
  import opened Sequences
  import StockApi

  const EmptyQueryMessage := "Search query must be at least 1 character"
  const SymbolRequiredMessage := "Symbol is required"
  const SymbolsRequiredMessage := "Symbols array is required"
  /** Score given to suggested popular stocks (0.9, in units of 1/10000). */
  const PopularMatchScore := 9000

  // ---------------------------------------------------------------------------
  // Search

  /** A popular stock matches when its symbol or name contains the query,
      ignoring case. The untrimmed query is used, as in the source. */
  predicate PopularMatches(query: string, p: StockApi.PopularStock)
  {
    Contains(Lower(p.symbol), Lower(query)) || Contains(Lower(p.name), Lower(query))
  }

  function AsSuggestion(p: StockApi.PopularStock): StockApi.Stock
  {
    StockApi.Stock(p.symbol, p.name, "Equity", "Canada", "CAD", PopularMatchScore, None)
  }

  /** Every popular stock, as a suggestion, in the list's order. */
  function AllSuggestions(ps: seq<StockApi.PopularStock>): (r: seq<StockApi.Stock>)
    ensures |r| == |ps| && forall i :: 0 <= i < |ps| ==> r[i] == AsSuggestion(ps[i])
  {
    seq(|ps|, i requires 0 <= i < |ps| => AsSuggestion(ps[i]))
  }

  /**
   * The matching popular stocks as suggestions: exactly the matches, in the
   * order of the popular list.
   */
  function Suggestions(query: string, ps: seq<StockApi.PopularStock>): (r: seq<StockApi.Stock>)
    ensures |r| <= |ps|
    ensures forall s :: s in r <==> exists p :: p in ps && PopularMatches(query, p) && s == AsSuggestion(p)
    ensures IsSubsequence(r, AllSuggestions(ps))
  {
    if ps == [] then []
    else
      var rest := Suggestions(query, ps[1..]);
      assert forall p :: p in ps <==> p == ps[0] || p in ps[1..];
      assert AllSuggestions(ps)[1..] == AllSuggestions(ps[1..]);
      if PopularMatches(query, ps[0]) then
        var r := [AsSuggestion(ps[0])] + rest;
        assert r[1..] == rest;
        r
      else
        // a suggestion determines its popular stock, and `ps[0]` does not match
        forall t | t in rest ensures t != AsSuggestion(ps[0]) {
          var p :| p in ps[1..] && PopularMatches(query, p) && t == AsSuggestion(p);
          assert p == StockApi.PopularStock(t.symbol, t.name);
        }
        assert rest == [] || rest[0] in rest;
        rest
  }

  /** `searchStocks`: a blank query is refused; otherwise the client search for
      the trimmed query (whose outcome is `api`) is returned, with matching
      popular stocks put in front when the trimmed query has at most two
      characters. */
  function SearchStocks(query: string, api: Fetch<StockApi.SearchResult>): (r: StockApi.SearchResult)
    ensures r.success <==> |Trim(query)| >= 1 && api.Returned? && api.value.success
    ensures !(|Trim(query)| >= 1 && api.Returned?) ==> r.data == [] && r.error.Some?
    ensures |Trim(query)| >= 1 && api.Returned? ==>
      && r.error == api.value.error
      && |api.value.data| <= |r.data|
      && r.data[|r.data| - |api.value.data|..] == api.value.data
  {
    if |Trim(query)| < 1 then StockApi.SearchResult(false, [], Some(EmptyQueryMessage))
    else
      match api
      case Threw(m) => StockApi.SearchResult(false, [], Some(m))
      case Returned(result) =>
        if |Trim(query)| <= 2 then
          WithSuggestions(Suggestions(query, StockApi.PopularTsxStocks()), result)
        else result
  }

  /** The client's result with the suggestions, if there are any, in front. */
  function WithSuggestions(popular: seq<StockApi.Stock>, result: StockApi.SearchResult): (r: StockApi.SearchResult)
    ensures r.success == result.success && r.error == result.error && r.data == popular + result.data
  {
    if |popular| > 0 then result.(data := popular + result.data) else result
  }

  /** A blank query is refused with the fixed message whatever the client
      would have answered: no search takes place. */
  lemma BlankQueryRefused(query: string, api1: Fetch<StockApi.SearchResult>, api2: Fetch<StockApi.SearchResult>)
    requires forall i :: 0 <= i < |query| ==> IsWhitespace(query[i])
    ensures SearchStocks(query, api1) == StockApi.SearchResult(false, [], Some(EmptyQueryMessage))
    ensures SearchStocks(query, api1) == SearchStocks(query, api2)
  {
    TrimEmptyIffBlank(query);
  }

  /** A non-blank query of at most two characters lists the matching popular
      stocks before the client's results; a longer one returns them as they are. */
  lemma SearchMerge(query: string, result: StockApi.SearchResult)
    requires |Trim(query)| >= 1
    ensures |Trim(query)| <= 2 ==>
      SearchStocks(query, Returned(result)).data == Suggestions(query, StockApi.PopularTsxStocks()) + result.data
    ensures |Trim(query)| > 2 ==> SearchStocks(query, Returned(result)) == result
    ensures SearchStocks(query, Returned(result)).success == result.success
  {
  }

  // ---------------------------------------------------------------------------
  // Quotes

  /** A quote; numeric fields are integer stand-ins for the parsed numbers. */
  datatype Quote = Quote(symbol: string, price: int, change: int, volume: int,
                         isGainer: bool, isLoser: bool)
  datatype QuoteResult = QuoteResult(success: bool, data: Option<Quote>, error: Option<string>)

  /** `getStockQuote`: refuses an empty symbol; otherwise passes on the
      client's answer (`api`), marking gainers and losers on a successful quote. */
  function GetStockQuote(symbol: string, api: Fetch<QuoteResult>): (r: QuoteResult)
    ensures symbol == "" ==> r == QuoteResult(false, None, Some(SymbolRequiredMessage))
    ensures symbol != "" && api.Threw? ==> r == QuoteResult(false, None, Some(api.message))
    ensures symbol != "" && api.Returned? ==> r.success == api.value.success && r.error == api.value.error
    ensures symbol != "" && api.Returned? && !(api.value.success && api.value.data.Some?) ==> r == api.value
    ensures symbol != "" && api.Returned? && api.value.success && api.value.data.Some? ==>
      var q := api.value.data.value;
      && r.data.Some? && r.data.value.symbol == q.symbol && r.data.value.price == q.price
      && r.data.value.change == q.change && r.data.value.volume == q.volume
      && r.data.value.isGainer == (q.change > 0) && r.data.value.isLoser == (q.change < 0)
    ensures r.success && r.data.Some? ==> !(r.data.value.isGainer && r.data.value.isLoser)
  {
    if symbol == "" then QuoteResult(false, None, Some(SymbolRequiredMessage))
    else
      match api
      case Threw(m) => QuoteResult(false, None, Some(m))
      case Returned(q) =>
        if q.success && q.data.Some? then
          var d := q.data.value;
          q.(data := Some(d.(isGainer := d.change > 0, isLoser := d.change < 0)))
        else q
  }

  /** One key of the result object of a batch. */
  datatype Entry = Entry(symbol: string, quote: QuoteResult)
  datatype Batch = Batch(success: bool, data: seq<Entry>, error: Option<string>)

  /** The keys of a result object. */
  function Keys(es: seq<Entry>): set<string>
  {
    if es == [] then {} else {es[0].symbol} + Keys(es[1..])
  }

  /** No key occurs twice. */
  predicate DistinctKeys(es: seq<Entry>)
  {
    es == [] || (es[0].symbol !in Keys(es[1..]) && DistinctKeys(es[1..]))
  }

  /** `results[k] = v` on a JavaScript object: an existing key keeps its
      position and gets the new value, a new key goes last. */
  function Put(es: seq<Entry>, k: string, v: QuoteResult): (r: seq<Entry>)
    ensures Keys(r) == Keys(es) + {k}
    ensures DistinctKeys(es) ==> DistinctKeys(r)
    ensures k in Keys(es) ==> |r| == |es|
    ensures k !in Keys(es) ==> r == es + [Entry(k, v)]
  {
    if es == [] then [Entry(k, v)]
    else if es[0].symbol == k then
      var r := [Entry(k, v)] + es[1..];
      assert r[1..] == es[1..];
      r
    else
      var rest := Put(es[1..], k, v);
      var r := [es[0]] + rest;
      assert r[1..] == rest;
      r
  }

  /** The error line recorded for a failed quote; a missing message prints as "null". */
  function ErrorLine(symbol: string, q: QuoteResult): string
  {
    symbol + ": " + q.error.GetOr("null")
  }

  /** The quotes, in input order. */
  function QuotesOf(symbols: seq<string>, fetched: seq<Fetch<QuoteResult>>): (r: seq<QuoteResult>)
    requires |fetched| == |symbols|
    ensures |r| == |symbols|
    ensures forall i :: 0 <= i < |symbols| ==> r[i] == GetStockQuote(symbols[i], fetched[i])
  {
    if symbols == [] then []
    else QuotesOf(symbols[..|symbols| - 1], fetched[..|fetched| - 1])
         + [GetStockQuote(symbols[|symbols| - 1], fetched[|fetched| - 1])]
  }

  /** The result object after storing the quotes in input order. */
  function ResultsOf(symbols: seq<string>, quotes: seq<QuoteResult>): (r: seq<Entry>)
    requires |quotes| == |symbols|
    ensures Keys(r) == set x | x in symbols
    ensures DistinctKeys(r)
  {
    if symbols == [] then []
    else
      var n := |symbols| - 1;
      var r := Put(ResultsOf(symbols[..n], quotes[..n]), symbols[n], quotes[n]);
      assert symbols == symbols[..n] + [symbols[n]];
      assert (set x | x in symbols) == (set x | x in symbols[..n]) + {symbols[n]};
      r
  }

  /** The error lines of the failed quotes, in input order. */
  function ErrorsOf(symbols: seq<string>, quotes: seq<QuoteResult>): (r: seq<string>)
    requires |quotes| == |symbols|
    ensures |r| <= |symbols|
    ensures r == [] <==> forall i :: 0 <= i < |quotes| ==> quotes[i].success
  {
    if symbols == [] then []
    else
      var n := |symbols| - 1;
      var rest := ErrorsOf(symbols[..n], quotes[..n]);
      assert forall i :: 0 <= i < n ==> quotes[..n][i] == quotes[i];
      if quotes[n].success then rest else rest + [ErrorLine(symbols[n], quotes[n])]
  }

  /** `getMultipleQuotes` on a non-empty array. */
  function BatchOf(symbols: seq<string>, fetched: seq<Fetch<QuoteResult>>): Batch
    requires |fetched| == |symbols|
  {
    var quotes := QuotesOf(symbols, fetched);
    var errors := ErrorsOf(symbols, quotes);
    Batch(errors == [], ResultsOf(symbols, quotes), if errors != [] then Some(Join(errors, "; ")) else None)
  }

  /** `getMultipleQuotes`: `symbols` is `None` when the argument is not an
      array; `fetched[i]` is the client's answer for `symbols[i]`. Each symbol
      is quoted on its own, so one failure does not stop the others. */
  method GetMultipleQuotes(symbols: Option<seq<string>>, fetched: seq<Fetch<QuoteResult>>)
    returns (r: Batch)
    requires symbols.Some? ==> |fetched| == |symbols.value|
    ensures symbols.None? || symbols.value == [] ==> r == Batch(false, [], Some(SymbolsRequiredMessage))
    ensures symbols.Some? && symbols.value != [] ==> r == BatchOf(symbols.value, fetched)
  {
    if symbols.None? || |symbols.value| == 0 {
      return Batch(false, [], Some(SymbolsRequiredMessage));
    }
    var syms := symbols.value;
    var results: seq<Entry> := [];
    var errors: seq<string> := [];
    ghost var quotes: seq<QuoteResult> := [];
    for i := 0 to |syms|
      invariant |quotes| == i
      invariant quotes == QuotesOf(syms[..i], fetched[..i])
      invariant results == ResultsOf(syms[..i], quotes)
      invariant errors == ErrorsOf(syms[..i], quotes)
    {
      var quote := GetStockQuote(syms[i], fetched[i]);
      BatchStep(syms, fetched, i, quotes);
      quotes := quotes + [quote];
      results := Put(results, syms[i], quote);
      if !quote.success {
        errors := errors + [ErrorLine(syms[i], quote)];
      }
    }
    assert syms[..|syms|] == syms && fetched[..|fetched|] == fetched;
    r := Batch(|errors| == 0, results, if |errors| > 0 then Some(Join(errors, "; ")) else None);
  }

  /** One more symbol of the batch loop: each of the three folds grows by that symbol's quote. */
  lemma BatchStep(syms: seq<string>, fetched: seq<Fetch<QuoteResult>>, i: nat, quotes: seq<QuoteResult>)
    requires |fetched| == |syms| && i < |syms| && |quotes| == i
    ensures var quote := GetStockQuote(syms[i], fetched[i]);
      && QuotesOf(syms[..i + 1], fetched[..i + 1]) == QuotesOf(syms[..i], fetched[..i]) + [quote]
      && ResultsOf(syms[..i + 1], quotes + [quote]) == Put(ResultsOf(syms[..i], quotes), syms[i], quote)
      && ErrorsOf(syms[..i + 1], quotes + [quote])
         == ErrorsOf(syms[..i], quotes) + (if quote.success then [] else [ErrorLine(syms[i], quote)])
  {
    var quote := GetStockQuote(syms[i], fetched[i]);
    assert syms[..i + 1][..i] == syms[..i] && fetched[..i + 1][..i] == fetched[..i];
    assert QuotesOf(syms[..i + 1], fetched[..i + 1]) == QuotesOf(syms[..i], fetched[..i]) + [quote];
    FoldStep(syms[..i + 1], quotes, quote);
  }

  /** The result and error folds over a list grow by its last symbol's quote. */
  lemma FoldStep(syms: seq<string>, quotes: seq<QuoteResult>, quote: QuoteResult)
    requires |syms| == |quotes| + 1
    ensures var n := |quotes|;
      && ResultsOf(syms, quotes + [quote]) == Put(ResultsOf(syms[..n], quotes), syms[n], quote)
      && ErrorsOf(syms, quotes + [quote])
         == ErrorsOf(syms[..n], quotes) + (if quote.success then [] else [ErrorLine(syms[n], quote)])
  {
    assert (quotes + [quote])[..|quotes|] == quotes;
  }

  /** The batch has one key per distinct input symbol and succeeds exactly
      when every symbol was quoted successfully; otherwise its error lists the
      failures in input order. */
  lemma BatchSpec(symbols: seq<string>, fetched: seq<Fetch<QuoteResult>>)
    requires |fetched| == |symbols|
    ensures var b := BatchOf(symbols, fetched);
      && Keys(b.data) == (set x | x in symbols)
      && DistinctKeys(b.data)
      && (b.success <==> forall i :: 0 <= i < |symbols| ==> GetStockQuote(symbols[i], fetched[i]).success)
      && (b.success <==> b.error.None?)
      && (!b.success ==> b.error == Some(Join(ErrorsOf(symbols, QuotesOf(symbols, fetched)), "; ")))
  {
  }

  /** With distinct symbols, the result is one entry per symbol, in input order. */
  lemma {:induction false} BatchDistinct(symbols: seq<string>, quotes: seq<QuoteResult>)
    requires |quotes| == |symbols|
    requires forall i, j :: 0 <= i < j < |symbols| ==> symbols[i] != symbols[j]
    ensures var r := ResultsOf(symbols, quotes);
      |r| == |symbols| && forall i :: 0 <= i < |r| ==> r[i] == Entry(symbols[i], quotes[i])
  {
    if symbols != [] {
      var n := |symbols| - 1;
      var syms, qs := symbols[..n], quotes[..n];
      assert forall i, j :: 0 <= i < j < |syms| ==> syms[i] != syms[j];
      BatchDistinct(syms, qs);
      assert symbols[n] !in syms;
      DistinctStep(symbols, quotes);
    }
  }

  /** The inductive step of `BatchDistinct`: a new last symbol extends the pairing by one entry. */
  lemma DistinctStep(symbols: seq<string>, quotes: seq<QuoteResult>)
    requires |quotes| == |symbols| > 0
    requires symbols[|symbols| - 1] !in symbols[..|symbols| - 1]
    requires var n := |symbols| - 1; var prev := ResultsOf(symbols[..n], quotes[..n]);
      |prev| == n && forall i :: 0 <= i < n ==> prev[i] == Entry(symbols[..n][i], quotes[..n][i])
    ensures var r := ResultsOf(symbols, quotes);
      |r| == |symbols| && forall i :: 0 <= i < |r| ==> r[i] == Entry(symbols[i], quotes[i])
  {
    var n := |symbols| - 1;
    ResultsAppend(symbols, quotes);
    EntriesAppend(ResultsOf(symbols[..n], quotes[..n]), symbols, quotes);
  }

  /** Entries that pair the first elements of two lists stay paired when the next pair is appended. */
  lemma EntriesAppend(es: seq<Entry>, symbols: seq<string>, quotes: seq<QuoteResult>)
    requires |symbols| == |quotes| == |es| + 1
    requires forall i :: 0 <= i < |es| ==> es[i] == Entry(symbols[i], quotes[i])
    ensures var r := es + [Entry(symbols[|es|], quotes[|es|])];
      |r| == |symbols| && forall i :: 0 <= i < |r| ==> r[i] == Entry(symbols[i], quotes[i])
  {
  }

  /** A last symbol not seen before becomes the last key. */
  lemma ResultsAppend(symbols: seq<string>, quotes: seq<QuoteResult>)
    requires |quotes| == |symbols| > 0
    requires symbols[|symbols| - 1] !in symbols[..|symbols| - 1]
    ensures var n := |symbols| - 1;
      ResultsOf(symbols, quotes) == ResultsOf(symbols[..n], quotes[..n]) + [Entry(symbols[n], quotes[n])]
  {
    var n := |symbols| - 1;
    assert symbols[n] !in Keys(ResultsOf(symbols[..n], quotes[..n]));
  }

  // ---------------------------------------------------------------------------
  // Chart windows

  const SecondsPerDay := 24 * 60 * 60

  /** Days of history kept for a period; `None` keeps everything ("MAX");
      an unknown period keeps one day. */
  function PeriodDays(period: string): Option<nat>
  {
    if period == "5D" then Some(5)
    else if period == "1M" then Some(30)
    else if period == "3M" then Some(90)
    else if period == "6M" then Some(180)
    else if period == "1Y" then Some(365)
    else if period == "MAX" then None
    else Some(1)
  }

  /**
   * `filterDataByPeriod` at time `now`: `Date.now() / 1000` rounded UP to a whole
   * second. Point times are whole seconds and the cut-off subtracts whole days, so
   * `time >= now - days` agrees with the fractional comparison exactly under that rounding.
   */
  function FilterDataByPeriod(data: seq<StockApi.Bar>, period: string, now: int): (r: seq<StockApi.Bar>)
    ensures |r| <= |data|
    ensures forall p :: p in r ==> p in data
  {
    if |data| == 0 then data
    else
      match PeriodDays(period)
      case None => data
      case Some(days) =>
        var cutoff := now - days * SecondsPerDay;
        Filter(data, (p: StockApi.Bar) => p.time >= cutoff)
  }

  /** The window keeps exactly the points at or after the cut-off, in their
      original order; empty input and "MAX" are returned as they are. */
  lemma FilterDataByPeriodSpec(data: seq<StockApi.Bar>, period: string, now: int)
    ensures data == [] || period == "MAX" ==> FilterDataByPeriod(data, period, now) == data
    ensures period != "MAX" && data != [] ==>
      var cutoff := now - PeriodDays(period).value * SecondsPerDay;
      var r := FilterDataByPeriod(data, period, now);
      && IsSubsequence(r, data)
      && (forall i :: 0 <= i < |r| ==> r[i].time >= cutoff)
      && (forall i :: 0 <= i < |data| && data[i].time >= cutoff ==> data[i] in r)
  {
    if period != "MAX" && data != [] {
      var cutoff := now - PeriodDays(period).value * SecondsPerDay;
      FilterIsSubsequence(data, (p: StockApi.Bar) => p.time >= cutoff);
    }
  }

  /** The windows of the known periods, in days. */
  lemma PeriodTable()
    ensures PeriodDays("5D") == Some(5) && PeriodDays("1M") == Some(30) && PeriodDays("3M") == Some(90)
    ensures PeriodDays("6M") == Some(180) && PeriodDays("1Y") == Some(365) && PeriodDays("MAX") == None
    ensures PeriodDays("1D") == Some(1)
  {
  }

  // ---------------------------------------------------------------------------
  // Watchlist

  /** The browser-storage key of the watchlist. */
  const WatchlistKey := "tsx_watchlist"

  /** A stored value: the JSON text of a string array, or text that does not
      parse as one. */
  datatype Stored = JsonList(items: seq<string>) | Unparsable(text: string)

  /** What loading the stored value (`None` when nothing is stored) makes of
      the current watchlist: a missing or empty value keeps it, an unparsable
      one empties it, a list replaces it. Loaded symbols are not upper-cased. */
  function Loaded(stored: Option<Stored>, current: seq<string>): (r: seq<string>)
    ensures NoDuplicates(current) ==> NoDuplicates(r)
  {
    match stored
    case None => current
    case Some(Unparsable(text)) => if text == "" then current else []
    case Some(JsonList(items)) => Dedup(items)
  }

  /** Saving then loading gives back the same watchlist. */
  lemma SaveLoadRoundTrip(symbols: seq<string>, current: seq<string>)
    requires NoDuplicates(symbols)
    ensures Loaded(Some(JsonList(symbols)), current) == symbols
  {
    DedupDistinct(symbols);
  }

  /** The watchlist kept by the service, and the browser storage it writes to. */
  class Watchlist {
    var symbols: seq<string>
    var storage: map<string, Stored>

    ghost predicate Valid()
      reads this
    {
      NoDuplicates(symbols)
    }

    /** The saved list reads back as the current one. */
    ghost predicate Persisted()
      reads this
    {
      WatchlistKey in storage && Loaded(Some(storage[WatchlistKey]), []) == symbols
    }

    constructor (storage: map<string, Stored>)
      ensures Valid() && symbols == [] && this.storage == storage
    {
      symbols := [];
      this.storage := storage;
    }

    /** Membership ignores case: the symbol is upper-cased first. */
    function IsInWatchlist(symbol: string): (r: bool)
      reads this
      ensures r <==> exists i :: 0 <= i < |symbols| && symbols[i] == Upper(symbol)
      ensures r <==> Upper(Lower(symbol)) in symbols && Upper(Upper(symbol)) in symbols
    {
      UpperIgnoresCase(symbol);
      UpperIdempotent(symbol);
      Upper(symbol) in symbols
    }

    function GetWatchlist(): (r: seq<string>)
      reads this
      ensures Valid() ==> NoDuplicates(r)
      ensures forall s :: IsInWatchlist(s) <==> Upper(s) in r
    {
      symbols
    }

    method SaveToStorage()
      requires Valid()
      modifies this`storage
      ensures storage == old(storage)[WatchlistKey := JsonList(symbols)]
      ensures Persisted()
    {
      storage := storage[WatchlistKey := JsonList(symbols)];
      SaveLoadRoundTrip(symbols, []);
    }

    method AddToWatchlist(symbol: string)
      requires Valid()
      modifies this
      ensures Valid() && Persisted()
      ensures symbols == SetAdd(old(symbols), Upper(symbol))
      ensures storage == old(storage)[WatchlistKey := JsonList(symbols)]
      ensures forall t :: IsInWatchlist(t) <==> old(IsInWatchlist(t)) || Upper(t) == Upper(symbol)
    {
      symbols := SetAdd(symbols, Upper(symbol));
      SaveToStorage();
    }

    method RemoveFromWatchlist(symbol: string)
      requires Valid()
      modifies this
      ensures Valid() && Persisted()
      ensures symbols == SetDelete(old(symbols), Upper(symbol))
      ensures storage == old(storage)[WatchlistKey := JsonList(symbols)]
      ensures forall t :: IsInWatchlist(t) <==> old(IsInWatchlist(t)) && Upper(t) != Upper(symbol)
    {
      symbols := SetDelete(symbols, Upper(symbol));
      SaveToStorage();
    }

    method ClearWatchlist()
      requires Valid()
      modifies this
      ensures Valid() && Persisted()
      ensures symbols == [] && storage == old(storage)[WatchlistKey := JsonList([])]
    {
      symbols := [];
      SaveToStorage();
    }

    method LoadFromStorage()
      requires Valid()
      modifies this`symbols
      ensures Valid()
      ensures symbols == Loaded(if WatchlistKey in storage then Some(storage[WatchlistKey]) else None, old(symbols))
    {
      if WatchlistKey in storage {
        var saved := storage[WatchlistKey];
        match saved
        case Unparsable(text) =>
          if text != "" { symbols := []; }
        case JsonList(items) =>
          symbols := Dedup(items);
      }
    }
  }

  /** Adding a symbol twice, in any letter case, is adding it once. */
  lemma AddIdempotent(s: seq<string>, a: string, b: string)
    requires Upper(a) == Upper(b)
    ensures SetAdd(SetAdd(s, Upper(a)), Upper(b)) == SetAdd(s, Upper(a))
  {
  }

  // ---------------------------------------------------------------------------
  // Market hours

  datatype MarketStatus = MarketStatus(isOpen: bool, status: string)

  /** `getMarketStatus` for the Toronto wall-clock `hour` (0-23) and `day`
      (0 = Sunday). The hour is a whole number compared with 9.5. */
  function GetMarketStatus(hour: int, day: int): (r: MarketStatus)
    ensures r.isOpen <==> r.status == "Open"
    ensures r.isOpen <==> day != 0 && day != 6 && 10 <= hour < 16
    ensures r.status in {"Closed (Weekend)", "Open", "Pre-Market", "After Hours"}
    ensures r.status == "Closed (Weekend)" <==> day == 0 || day == 6
  {
    assert hour < 10 ==> (hour as real) < 9.5;
    assert hour >= 10 ==> (hour as real) >= 9.5;
    var isWeekend := day == 0 || day == 6;
    var isMarketHours := hour as real >= 9.5 && hour < 16;
    if isWeekend then MarketStatus(false, "Closed (Weekend)")
    else if isMarketHours then MarketStatus(true, "Open")
    else if (hour as real) < 9.5 then MarketStatus(false, "Pre-Market")
    else MarketStatus(false, "After Hours")
  }

  /** With whole hours the classifier is a table: weekends closed; on weekdays
      10-15 open, earlier pre-market, later after hours. */
  lemma MarketStatusTable(hour: int, day: int)
    requires 0 <= hour < 24 && 0 <= day < 7
    ensures day == 0 || day == 6 ==> GetMarketStatus(hour, day) == MarketStatus(false, "Closed (Weekend)")
    ensures day != 0 && day != 6 && 10 <= hour < 16 ==> GetMarketStatus(hour, day) == MarketStatus(true, "Open")
    ensures day != 0 && day != 6 && hour < 10 ==> GetMarketStatus(hour, day) == MarketStatus(false, "Pre-Market")
    ensures day != 0 && day != 6 && hour >= 16 ==> GetMarketStatus(hour, day) == MarketStatus(false, "After Hours")
    ensures GetMarketStatus(hour, day).isOpen <==> GetMarketStatus(hour, day).status == "Open"
  {
    assert hour < 10 ==> (hour as real) < 9.5;
    assert hour >= 10 ==> (hour as real) >= 9.5;
  }

  /** Trading from 09:30 to 16:00 on weekdays, at minute resolution. */
  function GetMarketStatusAt(hour: int, minute: int, day: int): (r: MarketStatus)
    requires 0 <= hour < 24 && 0 <= minute < 60
    ensures r.isOpen <==> day != 0 && day != 6 && 9 * 60 + 30 <= hour * 60 + minute < 16 * 60
  {
    var t := hour * 60 + minute;
    if day == 0 || day == 6 then MarketStatus(false, "Closed (Weekend)")
    else if 9 * 60 + 30 <= t < 16 * 60 then MarketStatus(true, "Open")
    else if t < 9 * 60 + 30 then MarketStatus(false, "Pre-Market")
    else MarketStatus(false, "After Hours")
  }

  /** The hour-only classifier reports the first half hour of trading
      (09:30-09:59) as pre-market, where the minute-resolution one reports it open. */
  lemma FirstHalfHourMisreported()
    ensures GetMarketStatus(9, 1) == MarketStatus(false, "Pre-Market")
    ensures GetMarketStatusAt(9, 45, 1) == MarketStatus(true, "Open")
  {
    assert (9 as real) < 9.5;
  }

  /** Away from 09:30-09:59 the two classifiers agree. */
  lemma {:induction false} MarketStatusAgrees(hour: int, minute: int, day: int)
    requires 0 <= hour < 24 && 0 <= minute < 60 && 0 <= day < 7 && hour != 9
    ensures GetMarketStatusAt(hour, minute, day) == GetMarketStatus(hour, day)
  {
    MarketStatusTable(hour, day);
  }
}

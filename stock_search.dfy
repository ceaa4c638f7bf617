/**
 * The stock search box: the query, the result list, the open dropdown and
 * the keyboard selection index, with the debounced search behind them.
 */
module SearchBox {
  import opened Base
  import opened Text
  import StockApi
  import MarketData

  /** At most this many popular stocks are offered on focus. */
  const MaxFocusSuggestions: nat := 8
  /** The score given to a popular stock offered on focus (1.0, in units of 1/10000). */
  const FocusMatchScore := 10000

  datatype Key = ArrowDown | ArrowUp | Enter | Escape | Other

  /** A popular stock as offered on focus. */
  function AsFocusSuggestion(p: StockApi.PopularStock): StockApi.Stock
  {
    StockApi.Stock(p.symbol, p.name, "Popular", "Canada", "CAD", FocusMatchScore, None)
  }

  /** The popular stocks offered on focus: the first eight, in order, as focus suggestions. */
  function FocusSuggestions(ps: seq<StockApi.PopularStock>): (r: seq<StockApi.Stock>)
    ensures |r| == if |ps| < MaxFocusSuggestions then |ps| else MaxFocusSuggestions
    ensures forall i :: 0 <= i < |r| ==> r[i] == AsFocusSuggestion(ps[i])
  {
    var n := if |ps| < MaxFocusSuggestions then |ps| else MaxFocusSuggestions;
    seq(n, i requires 0 <= i < n => AsFocusSuggestion(ps[i]))
  }

  /** ArrowDown: one further down, but never past the last result. */
  function Down(index: int, count: nat): (r: int)
    ensures index < count - 1 ==> r == index + 1
    ensures index >= count - 1 ==> r == index
  {
    if index < count - 1 then index + 1 else index
  }

  /** ArrowUp: one further up, and from the first result (or above) back to no selection. */
  function Up(index: int): (r: int)
    ensures index > 0 ==> r == index - 1
    ensures index <= 0 ==> r == -1
  {
    if index > 0 then index - 1 else -1
  }

  /**
   * The arrow keys keep an index that starts in range there: between -1
   * (nothing selected) and the last result.  Pressing ArrowDown often enough
   * reaches the last result, and ArrowUp often enough clears the selection.
   */
  lemma {:induction false} ArrowsStayInRange(index: int, count: nat, k: nat)
    requires count > 0 && -1 <= index < count
    ensures -1 <= Down(index, count) < count && -1 <= Up(index) < count
    ensures IterateDown(index, count, k) == (if index + k < count - 1 then index + k else count - 1)
    ensures IterateUp(index, k) == (if index - k > -1 then index - k else -1)
  {
    if k > 0 {
      ArrowsStayInRange(index, count, k - 1);
      var prev := IterateDown(index, count, k - 1);
      assert -1 <= prev < count;
      var prevUp := IterateUp(index, k - 1);
      assert -1 <= prevUp < count;
    }
  }

  /** `k` presses of ArrowDown. */
  function IterateDown(index: int, count: nat, k: nat): int
  {
    if k == 0 then index else Down(IterateDown(index, count, k - 1), count)
  }

  /** `k` presses of ArrowUp. */
  function IterateUp(index: int, k: nat): int
  {
    if k == 0 then index else Up(IterateUp(index, k - 1))
  }

  class StockSearch {
    var query: string
    var results: seq<StockApi.Stock>
    var isLoading: bool
    var isOpen: bool
    var error: Option<string>
    var selectedIndex: int
    /** The 300 ms debounce timer is pending. */
    var searchArmed: bool
    /** The stocks handed to `onStockSelect`, in order. */
    ghost var picked: seq<StockApi.Stock>

    /** The selection index never drops below -1, which stands for no selection. */
    predicate Valid()
      reads this`selectedIndex
    {
      selectedIndex >= -1
    }

    /** The first render; the query effect arms the debounce timer once on mount. */
    constructor ()
      ensures Valid()
      ensures query == "" && results == [] && !isLoading && !isOpen && error == None
      ensures selectedIndex == -1 && searchArmed && picked == []
    {
      query := "";
      results := [];
      isLoading := false;
      isOpen := false;
      error := None;
      selectedIndex := -1;
      searchArmed := true;
      picked := [];
    }

    /** A new query: the effect re-arms the debounce timer only when the query changed. */
    method SetQuery(value: string)
      modifies this`query, this`searchArmed
      ensures query == value
      ensures searchArmed == (old(searchArmed) || value != old(query))
    {
      if value != query {
        searchArmed := true;
      }
      query := value;
    }

    /** `handleInputChange`: the typed text becomes the query and the selection is cleared. */
    method HandleInputChange(value: string)
      modifies this`query, this`searchArmed, this`selectedIndex
      ensures Valid()
      ensures query == value && selectedIndex == -1
      ensures searchArmed == (old(searchArmed) || value != old(query))
    {
      SetQuery(value);
      selectedIndex := -1;
    }

    /** `handleStockSelect`: clears the box, then hands the stock to the caller. */
    method HandleStockSelect(stock: StockApi.Stock)
      modifies this`query, this`searchArmed, this`results, this`isOpen, this`selectedIndex, this`picked
      ensures Valid()
      ensures query == "" && results == [] && !isOpen && selectedIndex == -1
      ensures picked == old(picked) + [stock]
      ensures searchArmed == (old(searchArmed) || old(query) != "")
    {
      SetQuery("");
      results := [];
      isOpen := false;
      selectedIndex := -1;
      picked := picked + [stock];
    }

    /** `handleKeyDown`: returns whether the key was handled (its default prevented). */
    method HandleKeyDown(key: Key) returns (handled: bool)
      requires Valid()
      modifies this`query, this`searchArmed, this`results, this`isOpen, this`selectedIndex, this`picked
      ensures Valid()
      ensures handled <==> old(isOpen) && old(results) != [] && !key.Other?
      ensures !handled ==>
        query == old(query) && results == old(results) && isOpen == old(isOpen)
        && selectedIndex == old(selectedIndex) && picked == old(picked) && searchArmed == old(searchArmed)
      ensures handled && key.ArrowDown? ==>
        selectedIndex == Down(old(selectedIndex), |old(results)|)
        && results == old(results) && isOpen && picked == old(picked) && query == old(query)
      ensures handled && key.ArrowUp? ==>
        selectedIndex == Up(old(selectedIndex))
        && results == old(results) && isOpen && picked == old(picked) && query == old(query)
      ensures handled && key.Enter? && 0 <= old(selectedIndex) < |old(results)| ==>
        picked == old(picked) + [old(results)[old(selectedIndex)]]
        && query == "" && results == [] && !isOpen && selectedIndex == -1
        && searchArmed == (old(searchArmed) || old(query) != "")
      ensures handled && key.Enter? && !(0 <= old(selectedIndex) < |old(results)|) ==>
        picked == old(picked) && results == old(results) && isOpen
        && selectedIndex == old(selectedIndex) && query == old(query) && searchArmed == old(searchArmed)
      ensures handled && key.Escape? ==>
        !isOpen && selectedIndex == -1 && results == old(results) && picked == old(picked) && query == old(query)
      ensures key.ArrowDown? || key.ArrowUp? || key.Escape? ==> searchArmed == old(searchArmed)
      ensures old(-1 <= selectedIndex < |results|) && !(handled && key.Enter?) ==> -1 <= selectedIndex < |results|
    {
      if !isOpen || |results| == 0 {
        return false;
      }
      match key {
        case ArrowDown =>
          selectedIndex := Down(selectedIndex, |results|);
        case ArrowUp =>
          selectedIndex := Up(selectedIndex);
        case Enter =>
          if 0 <= selectedIndex < |results| {
            HandleStockSelect(results[selectedIndex]);
          }
        case Escape =>
          isOpen := false;
          selectedIndex := -1;
        case Other =>
          return false;
      }
      handled := true;
    }

    /** `handleFocus`: with a blank query, the first popular stocks are offered. */
    method HandleFocus()
      modifies this`results, this`isOpen
      ensures Trim(query) == "" ==> results == FocusSuggestions(StockApi.PopularTsxStocks()) && isOpen
      ensures Trim(query) != "" ==> results == old(results) && isOpen == old(isOpen)
      ensures |results| <= MaxFocusSuggestions || results == old(results)
    {
      if Trim(query) == "" {
        results := FocusSuggestions(StockApi.PopularTsxStocks());
        isOpen := true;
      }
    }

    /**
     * The debounce timer fires: `debouncedSearch(query)` up to its await.  A
     * blank query empties and closes the list without searching; returns
     * whether a search was started.
     */
    method SearchTimerFired() returns (searching: bool)
      requires searchArmed
      modifies this`searchArmed, this`results, this`isOpen, this`isLoading, this`error
      ensures !searchArmed
      ensures searching <==> Trim(query) != ""
      ensures !searching ==> results == [] && !isOpen && isLoading == old(isLoading) && error == old(error)
      ensures searching ==> isLoading && error == None && results == old(results) && isOpen == old(isOpen)
    {
      searchArmed := false;
      var trimmed := Trim(query);
      if trimmed == "" {
        results := [];
        isOpen := false;
        return false;
      }
      isLoading := true;
      error := None;
      searching := true;
    }

    /**
     * The search for `searchQuery` settles, the service having been answered
     * `api` by the client.  The list opens only on a non-empty success.
     */
    method SearchSettled(searchQuery: string, api: Fetch<StockApi.SearchResult>)
      modifies this`results, this`isOpen, this`isLoading, this`error
      ensures !isLoading
      ensures var response := MarketData.SearchStocks(searchQuery, api);
        && (response.success ==> results == response.data && isOpen == (response.data != []) && error == old(error))
        && (!response.success ==> results == [] && !isOpen && error == response.error)
    {
      var response := MarketData.SearchStocks(searchQuery, api);
      if response.success {
        results := response.data;
        isOpen := |response.data| > 0;
      } else {
        error := response.error;
        results := [];
        isOpen := false;
      }
      isLoading := false;
    }
  }

  /** Typing a blank query and waiting out the debounce leaves a closed, empty list and starts no search. */
  method BlankQuerySearchesNothing(typed: string) returns (searching: bool, open: bool, shown: nat)
    requires forall i :: 0 <= i < |typed| ==> IsWhitespace(typed[i])
    ensures !searching && !open && shown == 0
  {
    var box := new StockSearch();
    box.HandleInputChange(typed);
    TrimEmptyIffBlank(typed);
    searching := box.SearchTimerFired();
    open := box.isOpen;
    shown := |box.results|;
  }
}

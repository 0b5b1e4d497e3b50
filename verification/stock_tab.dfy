/** The stock tab: the formatting decisions it makes for quote figures, the
    search filter over the available stocks, and the selection state its
    handlers update.

    The rendered strings (`toFixed`, `toLocaleString`) belong to the
    runtime; a formatted figure is modelled as the decision it encodes: `N/A`
    or the number shown, with the suffix chosen. */
module StockTab {
  import opened Wrappers
  import opened Records
  import opened Text
  import opened Database

  /** What a formatter shows: `N/A`, or a figure. */
  datatype Shown = NotAvailable | Figure(value: real)

  /** `formatPrice`: `N/A` unless given a number; otherwise the number. */
  function FormatPrice(num: Option<real>): (r: Shown)
    ensures r.NotAvailable? <==> num.None?
    ensures r.Figure? ==> r.value == num.value
  {
    if num.None? then NotAvailable else Figure(num.value)
  }

  /** `formatPercent`: `N/A` unless given a number; otherwise the fraction
      as a percentage. */
  function FormatPercent(num: Option<real>): (r: Shown)
    ensures r.NotAvailable? <==> num.None?
    ensures r.Figure? ==> r.value == num.value * 100.0
  {
    if num.None? then NotAvailable else Figure(num.value * 100.0)
  }

  datatype Scale = Trillions | Billions | Millions

  function Factor(s: Scale): real {
    match s
    case Trillions => 1000000000000.0
    case Billions => 1000000000.0
    case Millions => 1000000.0
  }

  /** What `formatLargeNumber` shows: `N/A`, a scaled figure with its
      suffix, or the plain number. */
  datatype LargeNumber = LargeNotAvailable | Scaled(amount: real, scale: Scale) | Plain(amount: real)

  /** `formatLargeNumber`: the thresholds are tried from the largest down,
      and the figure shown is the number divided by the chosen scale. */
  function FormatLargeNumber(num: Option<real>): (r: LargeNumber)
    ensures r.LargeNotAvailable? <==> num.None?
    ensures r.Scaled? ==> r.amount * Factor(r.scale) == num.value
    ensures r.Plain? ==> r.amount == num.value
  {
    if num.None? then LargeNotAvailable
    else
      var x := num.value;
      if x >= 1000000000000.0 then Scaled(x / 1000000000000.0, Trillions)
      else if x >= 1000000000.0 then Scaled(x / 1000000000.0, Billions)
      else if x >= 1000000.0 then Scaled(x / 1000000.0, Millions)
      else Plain(x)
  }

  /** The suffix is T exactly from 10^12, B exactly in [10^9, 10^12), M
      exactly in [10^6, 10^9), and none below 10^6; a B or M figure lies
      in [1, 1000) and a T figure is at least 1. */
  lemma LargeNumberSuffix(x: real)
    ensures var r := FormatLargeNumber(Some(x));
      && (r.Scaled? && r.scale == Trillions <==> x >= 1000000000000.0)
      && (r.Scaled? && r.scale == Billions <==> 1000000000.0 <= x < 1000000000000.0)
      && (r.Scaled? && r.scale == Millions <==> 1000000.0 <= x < 1000000000.0)
      && (r.Plain? <==> x < 1000000.0)
      && (r.Scaled? ==> 1.0 <= r.amount)
      && (r.Scaled? && r.scale != Trillions ==> r.amount < 1000.0)
  {
  }

  /** A stock is listed for a search term when its lower-cased symbol or
      lower-cased name contains the lower-cased term. The match ignores
      ASCII case: the empty term matches every stock, and so does any term
      equal to the symbol or the name up to case. */
  function Matches(stock: Asset, term: string): (b: bool)
    ensures term == "" ==> b
    ensures ToLower(term) == ToLower(stock.symbol) || ToLower(term) == ToLower(stock.name) ==> b
  {
    var s, n, t := ToLower(stock.symbol), ToLower(stock.name), ToLower(term);
    assert t == [] ==> OccursAt(s, t, 0);
    assert t == s ==> OccursAt(s, t, 0) by {
      assert s[0..|s|] == s;
    }
    assert t == n ==> OccursAt(n, t, 0) by {
      assert n[0..|n|] == n;
    }
    Includes(s, t) || Includes(n, t)
  }

  /** The search list: exactly the available stocks that match. */
  function SearchStocks(stocks: seq<Asset>, term: string): (r: seq<Asset>)
    ensures |r| <= |stocks|
    ensures forall a :: a in r <==> a in stocks && Matches(a, term)
  {
    if stocks == [] then []
    else (if Matches(stocks[0], term) then [stocks[0]] else []) + SearchStocks(stocks[1..], term)
  }

  /** Filtering distributes over concatenation: the list keeps the order of
      the available stocks. */
  lemma {:induction false} SearchAppend(xs: seq<Asset>, ys: seq<Asset>, term: string)
    ensures SearchStocks(xs + ys, term) == SearchStocks(xs, term) + SearchStocks(ys, term)
  {
    if xs == [] {
      assert xs + ys == ys;
    } else {
      assert (xs + ys)[0] == xs[0];
      assert (xs + ys)[1..] == xs[1..] + ys;
      SearchAppend(xs[1..], ys, term);
      var head := if Matches(xs[0], term) then [xs[0]] else [];
      assert head + (SearchStocks(xs[1..], term) + SearchStocks(ys, term))
          == (head + SearchStocks(xs[1..], term)) + SearchStocks(ys, term);
    }
  }

  /** An empty search term lists every stock, in order. */
  lemma {:induction false} SearchEmptyTerm(stocks: seq<Asset>)
    ensures SearchStocks(stocks, "") == stocks
  {
    if stocks != [] {
      assert OccursAt(ToLower(stocks[0].symbol), ToLower(""), 0);
      SearchEmptyTerm(stocks[1..]);
    }
  }

  /** After a stock is selected its symbol is the search term, and the
      stock is still listed. */
  lemma SelectedStockListed(stocks: seq<Asset>, a: Asset)
    requires a in stocks
    ensures a in SearchStocks(stocks, a.symbol)
  {
    var s := ToLower(a.symbol);
    assert s[..|s|] == s;
    assert OccursAt(s, s, 0);
  }

  /** The socket options the tab passes: the searched stock alone, enabled
      only when a stock is searched (a truthy symbol). */
  function SocketOptions(searched: Option<string>): (r: (seq<string>, bool))
    ensures r.1 <==> searched.Some? && searched.value != ""
    ensures r.0 == if r.1 then [searched.value] else []
  {
    if searched.Some? && searched.value != "" then ([searched.value], true) else ([], false)
  }

  class StockTabState {
    var searchTerm: string
    var searchedStock: Option<string>
    var selectedAsset: Option<Asset>
    var availableStocks: seq<Asset>
    var error: Option<string>
    var open: bool

    constructor ()
      ensures searchTerm == "" && searchedStock == None && selectedAsset == None
      ensures availableStocks == [] && error == None && !open
    {
      searchTerm := "";
      searchedStock := None;
      selectedAsset := None;
      availableStocks := [];
      error := None;
      open := false;
    }

    /** `loadStocks`: the list (or an empty one) becomes the available
        stocks and, when it is non-empty, its first stock is searched and
        selected; a failed query records the error and changes nothing
        else. */
    method LoadStocks(response: Result<Option<seq<Asset>>, Thrown>)
      modifies this`availableStocks, this`searchedStock, this`selectedAsset, this`error
      ensures response.Err? ==>
        && availableStocks == old(availableStocks) && searchedStock == old(searchedStock)
        && selectedAsset == old(selectedAsset) && error == Some(MessageOf(response.error, "Failed to load stocks"))
      ensures response.Ok? ==>
        var data := response.value;
        && availableStocks == data.GetOr([]) && error == old(error)
        && (data.Some? && data.value != [] ==>
              searchedStock == Some(data.value[0].symbol) && selectedAsset == Some(data.value[0]))
        && (data.None? || data.value == [] ==>
              searchedStock == old(searchedStock) && selectedAsset == old(selectedAsset))
    {
      if response.Err? {
        error := Some(MessageOf(response.error, "Failed to load stocks"));
        return;
      }
      var data := response.value;
      availableStocks := data.GetOr([]);
      if data.Some? && data.value != [] {
        searchedStock := Some(data.value[0].symbol);
        selectedAsset := Some(data.value[0]);
      }
    }

    /** `handleSelectStock`: the ticker is searched and becomes the search
        term, the list closes, and the selected asset is the first
        available stock with exactly that symbol, or none. */
    method SelectStock(ticker: string)
      modifies this`searchedStock, this`selectedAsset, this`searchTerm, this`open
      ensures searchedStock == Some(ticker) && searchTerm == ticker && !open
      ensures selectedAsset.Some? ==>
        exists k :: FirstWithSymbol(availableStocks, k, ticker) && availableStocks[k] == selectedAsset.value
      ensures selectedAsset.None? ==> forall a :: a in availableStocks ==> a.symbol != ticker
    {
      var stocks := availableStocks;
      var found := FindSymbol(stocks, ticker);
      if found.Some? {
        var k :| FirstWithSymbol(stocks, k, ticker) && stocks[k] == found.value;
      }
      selectedAsset := found;
      searchedStock := Some(ticker);
      searchTerm := ticker;
      open := false;
    }
  }

  /** Loading AAPL and MSFT selects AAPL; picking MSFT selects it; picking
      an unknown ticker searches it with no asset selected. */
  method LoadThenSelect() returns (first: Option<Asset>, picked: Option<Asset>, unknown: Option<Asset>, searched: Option<string>)
    ensures first == Some(Asset("1", "AAPL", "Apple Inc.", "stock", "USD"))
    ensures picked == Some(Asset("2", "MSFT", "Microsoft", "stock", "USD"))
    ensures unknown == None && searched == Some("XYZ")
  {
    var apple := Asset("1", "AAPL", "Apple Inc.", "stock", "USD");
    var microsoft := Asset("2", "MSFT", "Microsoft", "stock", "USD");
    var tab := new StockTabState();
    tab.LoadStocks(Ok(Some([apple, microsoft])));
    first := tab.selectedAsset;
    tab.SelectStock("MSFT");
    picked := tab.selectedAsset;
    tab.SelectStock("XYZ");
    unknown := tab.selectedAsset;
    searched := tab.searchedStock;
  }
}

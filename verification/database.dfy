/** The helpers of the data-access layer that do more than pass a query
    through: asset lookup and creation under an upper-cased symbol,
    get-or-create, buy and sell transaction records, and the portfolio
    summary.

    The backend is a `Store` holding the `assets` and `transactions` tables.
    What the backend decides on its own (the ids it assigns, the current
    time, and whether a call fails) arrives as parameters. */
module Database {
  import opened Wrappers
  import opened Records
  import opened Text
  import opened Sums

  datatype DbError =
    | Failed(message: string)  // any error the backend reports
    | DuplicateSymbol          // the unique constraint on `assets.symbol`

  /** The payload of an asset insert or upsert. */
  datatype NewAsset = NewAsset(symbol: string, name: string, assetType: string, currency: string)

  /** The row an insert of `data` produces: the symbol is upper-cased. */
  function AssetRow(id: string, data: NewAsset): Asset {
    Asset(id, ToUpper(data.symbol), data.name, data.assetType, data.currency)
  }

  /** No two assets share a symbol. */
  predicate SymbolsUnique(assets: seq<Asset>) {
    forall i, j :: 0 <= i < j < |assets| ==> assets[i].symbol != assets[j].symbol
  }

  /** Position `k` holds the first asset whose symbol is `symbol`. */
  predicate FirstWithSymbol(assets: seq<Asset>, k: int, symbol: string) {
    0 <= k < |assets| && assets[k].symbol == symbol && forall j :: 0 <= j < k ==> assets[j].symbol != symbol
  }

  /** The first asset whose symbol is exactly `symbol`, if any
      (`assets.find(a => a.symbol === symbol)`). */
  function FindSymbol(assets: seq<Asset>, symbol: string): (r: Option<Asset>)
    ensures r.Some? ==> r.value in assets && r.value.symbol == symbol
    ensures r.Some? ==> exists k :: FirstWithSymbol(assets, k, symbol) && assets[k] == r.value
    ensures r.None? ==> forall a :: a in assets ==> a.symbol != symbol
  {
    if assets == [] then None
    else if assets[0].symbol == symbol then
      assert FirstWithSymbol(assets, 0, symbol);
      Some(assets[0])
    else
      var r := FindSymbol(assets[1..], symbol);
      assert r.Some? ==> exists k :: FirstWithSymbol(assets, k, symbol) && assets[k] == r.value by {
        if r.Some? {
          var k :| FirstWithSymbol(assets[1..], k, symbol) && assets[1..][k] == r.value;
          assert forall j :: 1 <= j < k + 1 ==> assets[j] == assets[1..][j - 1];
          assert FirstWithSymbol(assets, k + 1, symbol);
        }
      }
      r
  }

  /** The payload `getOrCreateAsset` inserts for a symbol it did not find:
      upper-cased symbol, the name or else the upper-cased symbol, the type
      or else `stock`, and currency `USD`. */
  function DefaultAsset(symbol: string, name: Option<string>, assetType: Option<string>): (d: NewAsset)
    ensures d.symbol == ToUpper(symbol) && d.currency == "USD"
    ensures d.name == if name.Some? && name.value != "" then name.value else ToUpper(symbol)
    ensures d.assetType == assetType.GetOr("stock")
  {
    NewAsset(ToUpper(symbol), if name.Some? && name.value != "" then name.value else ToUpper(symbol),
             assetType.GetOr("stock"), "USD")
  }

  /** The fee recorded for an optional fee: a missing or zero fee is 0. */
  function FeeOrZero(fees: Option<real>): real {
    if fees.Some? && fees.value != 0.0 then fees.value else 0.0
  }

  /** The date recorded: the caller's date unless it is missing or empty,
      else the current time. */
  function DateOrNow(date: Option<string>, now: string): string {
    if date.Some? && date.value != "" then date.value else now
  }

  datatype BuyRequest = BuyRequest(
    portfolioId: string,
    symbol: string,
    assetName: Option<string>,
    quantity: real,
    pricePerUnit: real,
    fees: Option<real>,
    transactionDate: Option<string>,
    notes: Option<string>)

  datatype SellRequest = SellRequest(
    portfolioId: string,
    assetId: string,
    quantity: real,
    pricePerUnit: real,
    fees: Option<real>,
    transactionDate: Option<string>,
    notes: Option<string>)

  /** The transaction a buy inserts once its asset is known. */
  function BuyRecord(req: BuyRequest, assetId: string, id: string, now: string): (t: Transaction)
    ensures t.transactionType == Buy && t.portfolioId == req.portfolioId && t.assetId == assetId
    ensures t.quantity == req.quantity && t.pricePerUnit == req.pricePerUnit
    ensures t.totalAmount == t.quantity * t.pricePerUnit
    ensures t.fees == req.fees.GetOr(0.0)
    ensures t.transactionDate == DateOrNow(req.transactionDate, now) && t.notes == req.notes
  {
    Transaction(id, req.portfolioId, assetId, Buy, req.quantity, req.pricePerUnit,
                req.quantity * req.pricePerUnit, FeeOrZero(req.fees),
                DateOrNow(req.transactionDate, now), req.notes)
  }

  /** The transaction a sell inserts: the caller's asset id, type `sell`. */
  function SellRecord(req: SellRequest, id: string, now: string): (t: Transaction)
    ensures t.transactionType == Sell && t.portfolioId == req.portfolioId && t.assetId == req.assetId
    ensures t.quantity == req.quantity && t.pricePerUnit == req.pricePerUnit
    ensures t.totalAmount == t.quantity * t.pricePerUnit
    ensures t.fees == req.fees.GetOr(0.0)
    ensures t.transactionDate == DateOrNow(req.transactionDate, now) && t.notes == req.notes
  {
    Transaction(id, req.portfolioId, req.assetId, Sell, req.quantity, req.pricePerUnit,
                req.quantity * req.pricePerUnit, FeeOrZero(req.fees),
                DateOrNow(req.transactionDate, now), req.notes)
  }

  /** What the backend decides during one helper call: whether the symbol
      lookup fails, the outcome of the asset insert and of the transaction
      insert, the ids it assigns and the current time. */
  datatype Backend = Backend(
    lookupFails: bool,
    assetInsertFault: Option<DbError>,
    transactionInsertFault: Option<DbError>,
    newAssetId: string,
    newTransactionId: string,
    now: string)

  class Store {
    var assets: seq<Asset>
    var transactions: seq<Transaction>

    ghost predicate Valid()
      reads this
    {
      SymbolsUnique(assets)
    }

    constructor (assets: seq<Asset>)
      requires SymbolsUnique(assets)
      ensures Valid() && this.assets == assets && transactions == []
    {
      this.assets := assets;
      transactions := [];
    }

    /** `getAssetBySymbol`: the asset whose symbol is the upper-cased
        argument, if one exists. */
    function AssetBySymbol(symbol: string): (r: Option<Asset>)
      reads this
      ensures r.Some? ==> r.value in assets && r.value.symbol == ToUpper(symbol)
      ensures r.None? ==> forall a :: a in assets ==> a.symbol != ToUpper(symbol)
    {
      FindSymbol(assets, ToUpper(symbol))
    }

    /** `createAsset`: inserts the payload under its upper-cased symbol. It
        fails, inserting nothing, when the backend reports an error or an
        asset with that symbol already exists. */
    method CreateAsset(data: NewAsset, id: string, fault: Option<DbError>) returns (r: Result<Asset, DbError>)
      requires Valid()
      modifies this`assets
      ensures Valid()
      ensures fault.Some? ==> r == Err(fault.value) && assets == old(assets)
      ensures fault.None? && old(AssetBySymbol(data.symbol)).Some? ==> r == Err(DuplicateSymbol) && assets == old(assets)
      ensures fault.None? && old(AssetBySymbol(data.symbol)).None? ==>
        r == Ok(AssetRow(id, data)) && assets == old(assets) + [AssetRow(id, data)]
    {
      if fault.Some? {
        return Err(fault.value);
      }
      if AssetBySymbol(data.symbol).Some? {
        return Err(DuplicateSymbol);
      }
      var row := AssetRow(id, data);
      assets := assets + [row];
      r := Ok(row);
    }

    /** `upsertAsset`: with no error, the asset holding the upper-cased
        symbol gets the payload's fields (keeping its id), or the payload is
        inserted when no asset holds that symbol. */
    method UpsertAsset(data: NewAsset, id: string, fault: Option<DbError>) returns (r: Result<Asset, DbError>)
      requires Valid()
      modifies this`assets
      ensures Valid()
      ensures fault.Some? ==> r == Err(fault.value) && assets == old(assets)
      ensures fault.None? ==> r.Ok? && r.value.symbol == ToUpper(data.symbol)
      ensures fault.None? ==> AssetBySymbol(data.symbol) == Some(r.value)
      ensures fault.None? ==> |assets| == |old(assets)| + (if old(AssetBySymbol(data.symbol)).Some? then 0 else 1)
      ensures fault.None? && old(AssetBySymbol(data.symbol)).Some? ==>
        r.value == AssetRow(old(AssetBySymbol(data.symbol)).value.id, data)
      ensures fault.None? && old(AssetBySymbol(data.symbol)).None? ==> r.value == AssetRow(id, data)
      ensures fault.None? ==> forall a :: a in old(assets) && a.symbol != ToUpper(data.symbol) ==> a in assets
    {
      if fault.Some? {
        return Err(fault.value);
      }
      var existing := AssetBySymbol(data.symbol);
      if existing.Some? {
        var row := AssetRow(existing.value.id, data);
        ReplacedRowFound(assets, existing.value, row);
        assets := ReplaceSymbol(assets, row);
        r := Ok(row);
      } else {
        var row := AssetRow(id, data);
        AppendedRowFound(assets, row);
        assets := assets + [row];
        r := Ok(row);
      }
    }

    /** `getOrCreateAsset`: an asset found under the upper-cased symbol is
        returned and nothing is created; otherwise the default payload is
        inserted. A failed lookup counts as not found. */
    method GetOrCreateAsset(symbol: string, name: Option<string>, assetType: Option<string>, backend: Backend)
      returns (r: Result<Asset, DbError>)
      requires Valid()
      modifies this`assets
      ensures Valid()
      ensures !backend.lookupFails && old(AssetBySymbol(symbol)).Some? ==>
        r == Ok(old(AssetBySymbol(symbol)).value) && assets == old(assets)
      ensures backend.lookupFails || old(AssetBySymbol(symbol)).None? ==>
        var data := DefaultAsset(symbol, name, assetType);
        if backend.assetInsertFault.Some? then r == Err(backend.assetInsertFault.value) && assets == old(assets)
        else if old(AssetBySymbol(symbol)).Some? then r == Err(DuplicateSymbol) && assets == old(assets)
        else r == Ok(AssetRow(backend.newAssetId, data)) && assets == old(assets) + [AssetRow(backend.newAssetId, data)]
      ensures r.Ok? ==> r.value.symbol == ToUpper(symbol) && r.value in assets
    {
      var existing := if backend.lookupFails then None else AssetBySymbol(symbol);
      if existing.Some? {
        return Ok(existing.value);
      }
      var data := DefaultAsset(symbol, name, assetType);
      ToUpperIdempotent(symbol);
      r := CreateAsset(data, backend.newAssetId, backend.assetInsertFault);
    }

    /** `executeBuyTransaction`: gets or creates the asset for the symbol;
        when that fails the error is returned and no transaction is created.
        Otherwise the buy record is inserted. */
    method ExecuteBuyTransaction(req: BuyRequest, backend: Backend) returns (r: Result<Transaction, DbError>)
      requires Valid()
      modifies this`assets, this`transactions
      ensures Valid()
      ensures (backend.lookupFails || old(AssetBySymbol(req.symbol)).None?)
              && (backend.assetInsertFault.Some? || old(AssetBySymbol(req.symbol)).Some?) ==>
        && r == Err(if backend.assetInsertFault.Some? then backend.assetInsertFault.value else DuplicateSymbol)
        && assets == old(assets) && transactions == old(transactions)
      ensures r.Ok? ==> exists a :: (a in assets && a.symbol == ToUpper(req.symbol)
        && r.value == BuyRecord(req, a.id, backend.newTransactionId, backend.now))
      ensures r.Ok? ==> transactions == old(transactions) + [r.value]
      ensures r.Err? ==> transactions == old(transactions)
      ensures backend.transactionInsertFault.Some? ==> r.Err?
      ensures !backend.lookupFails && old(AssetBySymbol(req.symbol)).Some? ==>
        && assets == old(assets)
        && r == (if backend.transactionInsertFault.Some? then Err(backend.transactionInsertFault.value)
                 else Ok(BuyRecord(req, old(AssetBySymbol(req.symbol)).value.id, backend.newTransactionId, backend.now)))
      ensures old(AssetBySymbol(req.symbol)).None? && backend.assetInsertFault.None? ==>
        var row := AssetRow(backend.newAssetId, DefaultAsset(req.symbol, req.assetName, None));
        && assets == old(assets) + [row]
        && r == (if backend.transactionInsertFault.Some? then Err(backend.transactionInsertFault.value)
                 else Ok(BuyRecord(req, row.id, backend.newTransactionId, backend.now)))
    {
      var asset := GetOrCreateAsset(req.symbol, req.assetName, None, backend);
      if asset.Err? {
        return Err(asset.error);
      }
      r := InsertTransaction(BuyRecord(req, asset.value.id, backend.newTransactionId, backend.now),
                             backend.transactionInsertFault);
    }

    /** `executeSellTransaction`: inserts the sell record for the caller's
        asset id; no asset is looked up or created. */
    method ExecuteSellTransaction(req: SellRequest, backend: Backend) returns (r: Result<Transaction, DbError>)
      modifies this`transactions
      ensures backend.transactionInsertFault.Some? ==>
        r == Err(backend.transactionInsertFault.value) && transactions == old(transactions)
      ensures backend.transactionInsertFault.None? ==>
        var t := SellRecord(req, backend.newTransactionId, backend.now);
        r == Ok(t) && transactions == old(transactions) + [t]
    {
      r := InsertTransaction(SellRecord(req, backend.newTransactionId, backend.now),
                             backend.transactionInsertFault);
    }

    /** `createTransaction`: appends the record unless the backend fails. */
    method InsertTransaction(t: Transaction, fault: Option<DbError>) returns (r: Result<Transaction, DbError>)
      modifies this`transactions
      ensures fault.Some? ==> r == Err(fault.value) && transactions == old(transactions)
      ensures fault.None? ==> r == Ok(t) && transactions == old(transactions) + [t]
    {
      if fault.Some? {
        return Err(fault.value);
      }
      transactions := transactions + [t];
      r := Ok(t);
    }
  }

  /** The table with every row holding `row`'s symbol replaced by `row`. */
  function ReplaceSymbol(assets: seq<Asset>, row: Asset): (r: seq<Asset>)
    ensures |r| == |assets|
    ensures forall k :: 0 <= k < |r| ==> r[k] == if assets[k].symbol == row.symbol then row else assets[k]
  {
    if assets == [] then []
    else [if assets[0].symbol == row.symbol then row else assets[0]] + ReplaceSymbol(assets[1..], row)
  }

  /** With unique symbols, lookup finds the one row holding the symbol. */
  lemma {:induction false} UniqueSymbolFound(assets: seq<Asset>, i: int)
    requires SymbolsUnique(assets) && 0 <= i < |assets|
    ensures FindSymbol(assets, assets[i].symbol) == Some(assets[i])
  {
    if i > 0 {
      assert assets[1..][i - 1] == assets[i];
      UniqueSymbolFound(assets[1..], i - 1);
    }
  }

  /** Replacing the row holding `old`'s symbol by one with the same symbol
      keeps symbols unique, lookup then finds the new row, and every row
      with another symbol stays. */
  lemma ReplacedRowFound(assets: seq<Asset>, existing: Asset, row: Asset)
    requires SymbolsUnique(assets) && existing in assets && row.symbol == existing.symbol
    ensures SymbolsUnique(ReplaceSymbol(assets, row))
    ensures FindSymbol(ReplaceSymbol(assets, row), row.symbol) == Some(row)
    ensures forall a :: a in assets && a.symbol != row.symbol ==> a in ReplaceSymbol(assets, row)
  {
    var updated := ReplaceSymbol(assets, row);
    var i :| 0 <= i < |assets| && assets[i] == existing;
    assert updated[i] == row;
    forall p, q | 0 <= p < q < |updated| ensures updated[p].symbol != updated[q].symbol {
      assert assets[p].symbol != assets[q].symbol;
    }
    UniqueSymbolFound(updated, i);
    forall a | a in assets && a.symbol != row.symbol ensures a in updated {
      var k :| 0 <= k < |assets| && assets[k] == a;
      assert updated[k] == a;
    }
  }

  /** Appending a row whose symbol is new keeps symbols unique, and lookup
      then finds it. */
  lemma AppendedRowFound(assets: seq<Asset>, row: Asset)
    requires SymbolsUnique(assets) && FindSymbol(assets, row.symbol).None?
    ensures SymbolsUnique(assets + [row])
    ensures FindSymbol(assets + [row], row.symbol) == Some(row)
  {
    var all := assets + [row];
    forall k | 0 <= k < |assets| ensures all[k].symbol != row.symbol {
      assert all[k] in assets;
    }
    UniqueSymbolFound(all, |assets|);
  }

  /** The summary of a portfolio: its row, the number of holdings, the sum
      of their costs, and the holdings themselves. */
  datatype PortfolioSummary = PortfolioSummary(
    portfolio: Portfolio,
    totalPositions: nat,
    totalCost: real,
    holdings: seq<Holding>)

  /** A summary, or no data with the error (which may be null when the
      portfolio was simply not found). */
  datatype SummaryResult = Summary(data: PortfolioSummary) | NoSummary(error: Option<DbError>)

  function TotalCostOf(h: Holding): real { h.totalCost }

  /** `getPortfolioSummary` over the results of its two queries: no data
      when the portfolio query fails or finds nothing, or when the holdings
      query fails; otherwise a missing holdings list counts as empty. */
  function PortfolioSummaryOf(portfolio: Result<Option<Portfolio>, DbError>,
                              holdings: Result<Option<seq<Holding>>, DbError>): (r: SummaryResult)
    ensures portfolio.Err? ==> r == NoSummary(Some(portfolio.error))
    ensures portfolio == Ok(None) ==> r == NoSummary(None)
    ensures portfolio.Ok? && portfolio.value.Some? && holdings.Err? ==> r == NoSummary(Some(holdings.error))
    ensures r.Summary? <==> portfolio.Ok? && portfolio.value.Some? && holdings.Ok?
    ensures r.Summary? ==>
      var hs := holdings.value.GetOr([]);
      && r.data.portfolio == portfolio.value.value
      && r.data.holdings == hs
      && r.data.totalPositions == |hs|
      && r.data.totalCost == SumBy(hs, TotalCostOf)
  {
    match portfolio
    case Err(e) => NoSummary(Some(e))
    case Ok(None) => NoSummary(None)
    case Ok(Some(p)) =>
      match holdings
      case Err(e) => NoSummary(Some(e))
      case Ok(hs) =>
        var rows := hs.GetOr([]);
        Summary(PortfolioSummary(p, |rows|, SumBy(rows, TotalCostOf), rows))
  }

  /** Holdings with non-negative costs give a non-negative total cost. */
  lemma SummaryCostNonNegative(p: Portfolio, hs: seq<Holding>)
    requires forall i :: 0 <= i < |hs| ==> hs[i].totalCost >= 0.0
    ensures PortfolioSummaryOf(Ok(Some(p)), Ok(Some(hs))).data.totalCost >= 0.0
  {
    SumByNonNegative(hs, TotalCostOf);
  }

  /** One more holding adds its cost to the total and one to the count. */
  lemma SummaryAddsHolding(p: Portfolio, hs: seq<Holding>, h: Holding)
    ensures var before := PortfolioSummaryOf(Ok(Some(p)), Ok(Some(hs))).data;
            var after := PortfolioSummaryOf(Ok(Some(p)), Ok(Some(hs + [h]))).data;
            after.totalCost == before.totalCost + h.totalCost
            && after.totalPositions == before.totalPositions + 1
  {
    assert (hs + [h])[..|hs|] == hs;
  }
}

/** The portfolio-list hook: the signed-in user's portfolios, the active
    portfolio id, the active portfolio's holdings, a loading flag and the
    last error message, updated by the hook's actions.

    Every backend call the hook awaits is an input: its response arrives as
    a parameter. A rejected call is `Err` with the thrown value, which the
    hook turns into a message the way `err instanceof Error ? err.message :
    fallback` does. The actions rethrow by returning `Err`. */
module PortfolioHook {
  import opened Wrappers
  import opened Records
  import opened Database
  import opened Text

  /** `prev.map(p => p.id === id ? data : p)`: every portfolio with the id
      becomes `data`, every other one stays where it was. */
  function ReplaceById(ps: seq<Portfolio>, id: string, data: Portfolio): (r: seq<Portfolio>)
    ensures |r| == |ps|
    ensures forall k :: 0 <= k < |ps| ==> r[k] == if ps[k].id == id then data else ps[k]
  {
    if ps == [] then [] else [if ps[0].id == id then data else ps[0]] + ReplaceById(ps[1..], id, data)
  }

  /** `prev.filter(p => p.id !== id)`: exactly the portfolios with another id. */
  function RemoveById(ps: seq<Portfolio>, id: string): (r: seq<Portfolio>)
    ensures |r| <= |ps|
    ensures forall p :: p in r <==> p in ps && p.id != id
  {
    if ps == [] then []
    else if ps[0].id == id then RemoveById(ps[1..], id)
    else [ps[0]] + RemoveById(ps[1..], id)
  }

  /** Filtering distributes over concatenation, so the kept portfolios stay
      in their original order. */
  lemma {:induction false} RemoveByIdAppend(xs: seq<Portfolio>, ys: seq<Portfolio>, id: string)
    ensures RemoveById(xs + ys, id) == RemoveById(xs, id) + RemoveById(ys, id)
  {
    if xs == [] {
      assert xs + ys == ys;
    } else {
      assert (xs + ys)[0] == xs[0];
      assert (xs + ys)[1..] == xs[1..] + ys;
      RemoveByIdAppend(xs[1..], ys, id);
      if xs[0].id != id {
        var rest := RemoveById(xs[1..], id);
        assert [xs[0]] + (rest + RemoveById(ys, id)) == ([xs[0]] + rest) + RemoveById(ys, id);
      }
    }
  }

  /** Removing an id no portfolio has changes nothing. */
  lemma {:induction false} RemoveAbsentId(ps: seq<Portfolio>, id: string)
    requires forall k :: 0 <= k < |ps| ==> ps[k].id != id
    ensures RemoveById(ps, id) == ps
  {
    if ps != [] {
      RemoveAbsentId(ps[1..], id);
    }
  }

  /** Position `k` holds the first portfolio whose id is `activeId`. */
  predicate FirstWithId(ps: seq<Portfolio>, k: int, activeId: Option<string>) {
    0 <= k < |ps| && Some(ps[k].id) == activeId && forall j :: 0 <= j < k ==> Some(ps[j].id) != activeId
  }

  /** `portfolios.find(p => p.id === activeId) || null`: the first portfolio
      whose id is the active id, or none. */
  function FindActive(ps: seq<Portfolio>, activeId: Option<string>): (r: Option<Portfolio>)
    ensures r.Some? ==> exists k :: FirstWithId(ps, k, activeId) && ps[k] == r.value
    ensures r.None? ==> forall k :: 0 <= k < |ps| ==> Some(ps[k].id) != activeId
  {
    if ps == [] then None
    else if Some(ps[0].id) == activeId then Some(ps[0])
    else
      var r := FindActive(ps[1..], activeId);
      assert r.Some? ==> exists k :: FirstWithId(ps, k, activeId) && ps[k] == r.value by {
        if r.Some? {
          var k :| FirstWithId(ps[1..], k, activeId) && ps[1..][k] == r.value;
          assert forall j :: 1 <= j < k + 1 ==> ps[j] == ps[1..][j - 1];
          assert FirstWithId(ps, k + 1, activeId);
        }
      }
      r
  }

  /** The active id after the portfolio `id` is deleted and `remaining` are
      left: when the deleted one was active, the first remaining id (if it
      is truthy) or null; otherwise the active id is unchanged. */
  function ActiveAfterDelete(activeId: Option<string>, id: string, remaining: seq<Portfolio>): (r: Option<string>)
    ensures activeId != Some(id) ==> r == activeId
    ensures activeId == Some(id) && remaining == [] ==> r == None
    ensures activeId == Some(id) && remaining != [] && remaining[0].id != "" ==> r == Some(remaining[0].id)
    ensures activeId == Some(id) && remaining != [] && remaining[0].id == "" ==> r == None
  {
    if activeId == Some(id) then
      if remaining != [] && remaining[0].id != "" then Some(remaining[0].id) else None
    else activeId
  }

  /** After a delete, the active portfolio is never the deleted one. */
  lemma DeletedIsNotActive(ps: seq<Portfolio>, activeId: Option<string>, id: string)
    ensures var remaining := RemoveById(ps, id);
      var next := ActiveAfterDelete(activeId, id, remaining);
      (FindActive(remaining, next).Some? ==> FindActive(remaining, next).value.id != id)
      && (activeId == Some(id) ==> next != Some(id))
  {
    var remaining := RemoveById(ps, id);
    if remaining != [] {
      assert remaining[0] in remaining;
    }
  }

  /** The insert payload `createPortfolio` sends. */
  datatype NewPortfolio = NewPortfolio(userId: string, name: string, description: Option<string>, currency: string)

  /** The form data `addHolding` takes. */
  datatype NewHolding = NewHolding(symbol: string, name: string, shares: real, price: real, fees: Option<real>, notes: Option<string>)

  /** The form data `updateHolding` and `removeHolding` take. */
  datatype HoldingChange = HoldingChange(assetId: string, shares: real, price: real, fees: Option<real>, notes: Option<string>)

  /** The buy `addHolding` sends for the active portfolio: the form's
      symbol and name, shares as quantity, price per unit, fees and notes,
      and no date, so the transaction is dated when it is recorded. */
  function AddHoldingRequest(portfolioId: string, data: NewHolding): (req: BuyRequest)
    ensures req.portfolioId == portfolioId && req.symbol == data.symbol && req.assetName == Some(data.name)
    ensures req.quantity == data.shares && req.pricePerUnit == data.price
    ensures req.fees == data.fees && req.notes == data.notes && req.transactionDate == None
  {
    BuyRequest(portfolioId, data.symbol, Some(data.name), data.shares, data.price, data.fees, None, data.notes)
  }

  /** The sell `removeHolding` sends: the caller's asset id, shares as
      quantity, price per unit, fees and notes, and no date. */
  function RemoveHoldingRequest(portfolioId: string, data: HoldingChange): (req: SellRequest)
    ensures req.portfolioId == portfolioId && req.assetId == data.assetId
    ensures req.quantity == data.shares && req.pricePerUnit == data.price
    ensures req.fees == data.fees && req.notes == data.notes && req.transactionDate == None
  {
    SellRequest(portfolioId, data.assetId, data.shares, data.price, data.fees, None, data.notes)
  }

  /** The buy `updateHolding` sends AS WRITTEN: the symbol is the empty
      string and the caller's asset id is not passed at all. */
  function UpdateHoldingRequestAsWritten(portfolioId: string, data: HoldingChange): (req: BuyRequest)
    ensures req.symbol == "" && req.assetName == None && req.portfolioId == portfolioId
  {
    BuyRequest(portfolioId, "", None, data.shares, data.price, data.fees, None, data.notes)
  }

  /** As written, the asset the caller names makes no difference to the
      request, and the buy goes to the asset with the empty symbol: when
      none exists, one is created with an empty symbol and an empty name. */
  lemma UpdateHoldingIgnoresAssetId(portfolioId: string, data: HoldingChange, otherAssetId: string)
    ensures UpdateHoldingRequestAsWritten(portfolioId, data)
         == UpdateHoldingRequestAsWritten(portfolioId, data.(assetId := otherAssetId))
    ensures var req := UpdateHoldingRequestAsWritten(portfolioId, data);
      DefaultAsset(req.symbol, req.assetName, None) == NewAsset("", "", "stock", "USD")
  {
  }

  /** A buy of more shares of an asset already known by its id. */
  datatype TopUpRequest = TopUpRequest(
    portfolioId: string,
    assetId: string,
    quantity: real,
    pricePerUnit: real,
    fees: Option<real>,
    notes: Option<string>)

  /** The intended `updateHolding`: a buy of more shares of the caller's
      asset, identified by its id, with no symbol lookup. */
  function UpdateHoldingRequest(portfolioId: string, data: HoldingChange): (req: TopUpRequest)
    ensures req.portfolioId == portfolioId && req.assetId == data.assetId
    ensures req.quantity == data.shares && req.pricePerUnit == data.price
    ensures req.fees == data.fees && req.notes == data.notes
  {
    TopUpRequest(portfolioId, data.assetId, data.shares, data.price, data.fees, data.notes)
  }

  /** The transaction the intended `updateHolding` records: a buy of the
      caller's asset with the usual total, fee default and date. */
  function UpdateHoldingRecord(portfolioId: string, data: HoldingChange, id: string, now: string): (t: Transaction)
    ensures t.transactionType == Buy && t.assetId == data.assetId && t.portfolioId == portfolioId
    ensures t.quantity == data.shares && t.totalAmount == data.shares * data.price
    ensures t.fees == data.fees.GetOr(0.0) && t.transactionDate == now && t.notes == data.notes
  {
    var req := UpdateHoldingRequest(portfolioId, data);
    Transaction(id, req.portfolioId, req.assetId, Buy, req.quantity, req.pricePerUnit,
                req.quantity * req.pricePerUnit, FeeOrZero(req.fees), DateOrNow(None, now), req.notes)
  }

  class PortfolioManager {
    /** The signed-in user's id, if any. */
    const user: Option<string>
    var portfolios: seq<Portfolio>
    var activeId: Option<string>
    var holdings: seq<Holding>
    var loading: bool
    var error: Option<string>

    constructor (user: Option<string>)
      ensures this.user == user
      ensures portfolios == [] && activeId == None && holdings == [] && loading && error == None
    {
      this.user := user;
      portfolios := [];
      activeId := None;
      holdings := [];
      loading := true;
      error := None;
    }

    /** `loadPortfolios`: with no user the list empties; otherwise the
        response's list (or an empty one) replaces it, and the first
        portfolio becomes active when none is selected. On a failed query
        the error is recorded and the list kept. Loading ends either way. */
    method LoadPortfolios(response: Result<Option<seq<Portfolio>>, Thrown>)
      modifies this
      ensures !loading && holdings == old(holdings)
      ensures user.None? ==> portfolios == [] && activeId == old(activeId) && error == old(error)
      ensures user.Some? && response.Err? ==>
        portfolios == old(portfolios) && activeId == old(activeId)
        && error == Some(MessageOf(response.error, "Failed to load portfolios"))
      ensures user.Some? && response.Ok? ==>
        var data := response.value;
        && portfolios == data.GetOr([])
        && activeId == (if data.Some? && data.value != [] && !IsSet(old(activeId)) then Some(data.value[0].id) else old(activeId))
        && error == old(error)
    {
      if user.None? {
        portfolios := [];
        loading := false;
        return;
      }
      loading := true;
      if response.Err? {
        error := Some(MessageOf(response.error, "Failed to load portfolios"));
      } else {
        var data := response.value;
        portfolios := data.GetOr([]);
        if data.Some? && data.value != [] && !IsSet(activeId) {
          activeId := Some(data.value[0].id);
        }
      }
      loading := false;
    }

    /** `loadHoldings`, for the active id the callback captured when it was
        created: with no active portfolio the holdings empty; otherwise the
        response's list (or an empty one) replaces them, or the error is
        recorded. */
    method LoadHoldings(captured: Option<string>, response: Result<Option<seq<Holding>>, Thrown>)
      modifies this`holdings, this`error
      ensures !IsSet(captured) ==> holdings == [] && error == old(error)
      ensures IsSet(captured) && response.Ok? ==> holdings == response.value.GetOr([]) && error == old(error)
      ensures IsSet(captured) && response.Err? ==>
        holdings == old(holdings) && error == Some(MessageOf(response.error, "Failed to load holdings"))
    {
      if !IsSet(captured) {
        holdings := [];
        return;
      }
      match response
      case Err(e) =>
        error := Some(MessageOf(e, "Failed to load holdings"));
      case Ok(data) =>
        holdings := data.GetOr([]);
    }

    /** `createPortfolio`: throws at once without a user. Otherwise it sends
        the insert, with currency `USD` when none is given; a created portfolio is put first and made active, and
        its id returned; a failed insert records the error, leaves the list
        alone and rethrows. */
    method CreatePortfolio(name: string, description: Option<string>, currency: Option<string>,
                           response: Result<Option<Portfolio>, Thrown>)
      returns (request: Option<NewPortfolio>, r: Result<Option<string>, Thrown>)
      modifies this`portfolios, this`activeId, this`error
      ensures user.None? ==>
        && request == None && r == Err(ErrorInstance("User must be logged in to create a portfolio"))
        && portfolios == old(portfolios) && activeId == old(activeId) && error == old(error)
      ensures user.Some? ==> request == Some(NewPortfolio(user.value, name, description, currency.GetOr("USD")))
      ensures user.Some? && response.Err? ==>
        && r == Err(response.error) && portfolios == old(portfolios) && activeId == old(activeId)
        && error == Some(MessageOf(response.error, "Failed to create portfolio"))
      ensures user.Some? && response == Ok(None) ==>
        r == Ok(None) && portfolios == old(portfolios) && activeId == old(activeId) && error == old(error)
      ensures user.Some? && response.Ok? && response.value.Some? ==>
        var p := response.value.value;
        && r == Ok(Some(p.id)) && portfolios == [p] + old(portfolios) && activeId == Some(p.id)
        && error == old(error)
    {
      if user.None? {
        return None, Err(ErrorInstance("User must be logged in to create a portfolio"));
      }
      request := Some(NewPortfolio(user.value, name, description, currency.GetOr("USD")));
      match response
      case Err(e) =>
        error := Some(MessageOf(e, "Failed to create portfolio"));
        r := Err(e);
      case Ok(None) =>
        r := Ok(None);
      case Ok(Some(p)) =>
        portfolios := [p] + portfolios;
        activeId := Some(p.id);
        r := Ok(Some(p.id));
    }

    /** `updatePortfolio`: the returned row replaces every portfolio with the
        id; a failed update records the error and rethrows. */
    method UpdatePortfolio(id: string, response: Result<Option<Portfolio>, Thrown>) returns (r: Result<(), Thrown>)
      modifies this`portfolios, this`error
      ensures response.Err? ==>
        r == Err(response.error) && portfolios == old(portfolios)
        && error == Some(MessageOf(response.error, "Failed to update portfolio"))
      ensures response.Ok? ==>
        && r == Ok(()) && error == old(error)
        && portfolios == (if response.value.Some? then ReplaceById(old(portfolios), id, response.value.value) else old(portfolios))
    {
      match response
      case Err(e) =>
        error := Some(MessageOf(e, "Failed to update portfolio"));
        r := Err(e);
      case Ok(data) =>
        if data.Some? {
          portfolios := ReplaceById(portfolios, id, data.value);
        }
        r := Ok(());
    }

    /** `deletePortfolio`: every portfolio with the id is removed and, when
        it was active, the first remaining one becomes active (or none); a
        failed delete records the error and rethrows. */
    method DeletePortfolio(id: string, response: Option<Thrown>) returns (r: Result<(), Thrown>)
      modifies this`portfolios, this`activeId, this`error
      ensures response.Some? ==>
        && r == Err(response.value) && portfolios == old(portfolios) && activeId == old(activeId)
        && error == Some(MessageOf(response.value, "Failed to delete portfolio"))
      ensures response.None? ==>
        && r == Ok(()) && error == old(error)
        && portfolios == RemoveById(old(portfolios), id)
        && activeId == ActiveAfterDelete(old(activeId), id, portfolios)
    {
      if response.Some? {
        error := Some(MessageOf(response.value, "Failed to delete portfolio"));
        return Err(response.value);
      }
      var remaining := RemoveById(portfolios, id);
      activeId := ActiveAfterDelete(activeId, id, remaining);
      portfolios := remaining;
      r := Ok(());
    }

    /** `setActivePortfolio`. */
    method SetActivePortfolio(id: string)
      modifies this`activeId
      ensures activeId == Some(id)
    {
      activeId := Some(id);
    }

    /** `getActivePortfolio`. */
    function ActivePortfolio(): (r: Option<Portfolio>)
      reads this
      ensures r.Some? ==> r.value in portfolios && Some(r.value.id) == activeId
      ensures r.None? ==> forall p :: p in portfolios ==> Some(p.id) != activeId
    {
      FindActive(portfolios, activeId)
    }

    /** `getActivePortfolioWithHoldings`: the active portfolio paired with
        the current holdings, or none when no portfolio is active. */
    function ActiveWithHoldings(): (r: Option<(Portfolio, seq<Holding>)>)
      reads this
      ensures r.Some? <==> ActivePortfolio().Some?
      ensures r.Some? ==> r.value.0 == ActivePortfolio().value && r.value.1 == holdings
    {
      match ActivePortfolio()
      case None => None
      case Some(p) => Some((p, holdings))
    }

    /** `refresh`: reloads the portfolios, then the holdings of the active id
        the holdings callback captured, which is the id before the reload
        even when the reload selects a first portfolio. */
    method Refresh(portfoliosResponse: Result<Option<seq<Portfolio>>, Thrown>,
                   holdingsResponse: Result<Option<seq<Holding>>, Thrown>)
      modifies this
      ensures !loading
      ensures user.None? ==> portfolios == [] && activeId == old(activeId)
      ensures user.Some? && portfoliosResponse.Err? ==> portfolios == old(portfolios) && activeId == old(activeId)
      ensures user.Some? && portfoliosResponse.Ok? ==>
        var data := portfoliosResponse.value;
        && portfolios == data.GetOr([])
        && activeId == (if data.Some? && data.value != [] && !IsSet(old(activeId)) then Some(data.value[0].id) else old(activeId))
      ensures !IsSet(old(activeId)) ==> holdings == []
      ensures IsSet(old(activeId)) && holdingsResponse.Ok? ==> holdings == holdingsResponse.value.GetOr([])
      ensures IsSet(old(activeId)) && holdingsResponse.Err? ==>
        holdings == old(holdings) && error == Some(MessageOf(holdingsResponse.error, "Failed to load holdings"))
      ensures !(IsSet(old(activeId)) && holdingsResponse.Err?) ==>
        error == (if user.Some? && portfoliosResponse.Err?
                  then Some(MessageOf(portfoliosResponse.error, "Failed to load portfolios"))
                  else old(error))
    {
      var captured := activeId;
      LoadPortfolios(portfoliosResponse);
      LoadHoldings(captured, holdingsResponse);
    }

    /** `addHolding`: throws at once when no portfolio is active. Otherwise
        it sends a buy for the active portfolio; after a recorded buy the
        holdings are reloaded and the transaction returned, and a failed buy
        records the error and rethrows. */
    method AddHolding(data: NewHolding, outcome: Result<Transaction, Thrown>,
                      reload: Result<Option<seq<Holding>>, Thrown>)
      returns (request: Option<BuyRequest>, r: Result<Transaction, Thrown>)
      modifies this`holdings, this`error
      ensures !IsSet(activeId) ==>
        request == None && r == Err(ErrorInstance("No active portfolio selected"))
        && holdings == old(holdings) && error == old(error)
      ensures IsSet(activeId) ==> request == Some(AddHoldingRequest(activeId.value, data))
      ensures IsSet(activeId) && outcome.Err? ==>
        r == Err(outcome.error) && holdings == old(holdings)
        && error == Some(MessageOf(outcome.error, "Failed to add holding"))
      ensures IsSet(activeId) && outcome.Ok? ==>
        r == outcome
        && holdings == (if reload.Ok? then reload.value.GetOr([]) else old(holdings))
        && error == (if reload.Ok? then old(error) else Some(MessageOf(reload.error, "Failed to load holdings")))
    {
      if !IsSet(activeId) {
        return None, Err(ErrorInstance("No active portfolio selected"));
      }
      request := Some(AddHoldingRequest(activeId.value, data));
      if outcome.Err? {
        error := Some(MessageOf(outcome.error, "Failed to add holding"));
        return request, Err(outcome.error);
      }
      LoadHoldings(activeId, reload);
      r := outcome;
    }

    /** `updateHolding`, with the intended request: a buy of the caller's
        asset by id. Same guard and error path as `addHolding`. */
    method UpdateHolding(data: HoldingChange, outcome: Result<Transaction, Thrown>,
                         reload: Result<Option<seq<Holding>>, Thrown>)
      returns (request: Option<TopUpRequest>, r: Result<Transaction, Thrown>)
      modifies this`holdings, this`error
      ensures !IsSet(activeId) ==>
        request == None && r == Err(ErrorInstance("No active portfolio selected"))
        && holdings == old(holdings) && error == old(error)
      ensures IsSet(activeId) ==> request == Some(UpdateHoldingRequest(activeId.value, data))
      ensures IsSet(activeId) && outcome.Err? ==>
        r == Err(outcome.error) && holdings == old(holdings)
        && error == Some(MessageOf(outcome.error, "Failed to update holding"))
      ensures IsSet(activeId) && outcome.Ok? ==>
        r == outcome
        && holdings == (if reload.Ok? then reload.value.GetOr([]) else old(holdings))
        && error == (if reload.Ok? then old(error) else Some(MessageOf(reload.error, "Failed to load holdings")))
    {
      if !IsSet(activeId) {
        return None, Err(ErrorInstance("No active portfolio selected"));
      }
      request := Some(UpdateHoldingRequest(activeId.value, data));
      if outcome.Err? {
        error := Some(MessageOf(outcome.error, "Failed to update holding"));
        return request, Err(outcome.error);
      }
      LoadHoldings(activeId, reload);
      r := outcome;
    }

    /** `removeHolding`: a sell of the caller's asset; same guard and error
        path as `addHolding`. */
    method RemoveHolding(data: HoldingChange, outcome: Result<Transaction, Thrown>,
                         reload: Result<Option<seq<Holding>>, Thrown>)
      returns (request: Option<SellRequest>, r: Result<Transaction, Thrown>)
      modifies this`holdings, this`error
      ensures !IsSet(activeId) ==>
        request == None && r == Err(ErrorInstance("No active portfolio selected"))
        && holdings == old(holdings) && error == old(error)
      ensures IsSet(activeId) ==> request == Some(RemoveHoldingRequest(activeId.value, data))
      ensures IsSet(activeId) && outcome.Err? ==>
        r == Err(outcome.error) && holdings == old(holdings)
        && error == Some(MessageOf(outcome.error, "Failed to remove holding"))
      ensures IsSet(activeId) && outcome.Ok? ==>
        r == outcome
        && holdings == (if reload.Ok? then reload.value.GetOr([]) else old(holdings))
        && error == (if reload.Ok? then old(error) else Some(MessageOf(reload.error, "Failed to load holdings")))
    {
      if !IsSet(activeId) {
        return None, Err(ErrorInstance("No active portfolio selected"));
      }
      request := Some(RemoveHoldingRequest(activeId.value, data));
      if outcome.Err? {
        error := Some(MessageOf(outcome.error, "Failed to remove holding"));
        return request, Err(outcome.error);
      }
      LoadHoldings(activeId, reload);
      r := outcome;
    }
  }

  /** The holding update as written, against a store holding one asset,
      `a1` for AAPL: the caller names `a1`, yet the buy is recorded against
      a new asset `a2` whose symbol and name are empty. */
  method UpdateHoldingAsWritten() returns (t: Result<Transaction, DbError>, assets: seq<Asset>)
    ensures t.Ok? && t.value.assetId == "a2" && t.value.assetId != "a1"
    ensures assets == [Asset("a1", "AAPL", "Apple Inc.", "stock", "USD"), Asset("a2", "", "", "stock", "USD")]
  {
    var apple := Asset("a1", "AAPL", "Apple Inc.", "stock", "USD");
    var store := new Store([apple]);
    var data := HoldingChange("a1", 5.0, 150.0, None, None);
    var backend := Backend(false, None, None, "a2", "t1", "2024-01-02");
    var req := UpdateHoldingRequestAsWritten("p1", data);
    assert store.AssetBySymbol(req.symbol) == None by {
      assert ToUpper(req.symbol) == "";
    }
    t := store.ExecuteBuyTransaction(req, backend);
    assets := store.assets;
  }

  /** The intended holding update records its buy against the asset the
      caller names, and does not touch the assets. */
  lemma UpdateHoldingTargetsAsset(portfolioId: string, data: HoldingChange, id: string, now: string)
    ensures UpdateHoldingRecord(portfolioId, data, id, now).assetId == data.assetId
    ensures UpdateHoldingRecord(portfolioId, data, id, now)
         == BuyRecord(UpdateHoldingRequestAsWritten(portfolioId, data), data.assetId, id, now)
  {
  }
}

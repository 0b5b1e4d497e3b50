/** The portfolio tab: the totals it shows for the active portfolio, and the
    guards its buttons apply before calling the portfolio-list hook.

    The tab reads its list state (the portfolio count, the active id, the
    active portfolio and its holdings) from a hook; that state arrives here
    as handler parameters, and the hook calls a handler issues are logged
    in order. Amounts are exact reals. */
module PortfolioTab {
  import opened Wrappers
  import opened Records
  import opened Sums
  import opened Text

  /** The active portfolio as the tab reads it: its id, name and holdings. */
  datatype TabPortfolio = TabPortfolio(id: string, name: string, holdings: seq<PortfolioHolding>)

  function MarketValue(h: PortfolioHolding): real { h.shares * h.currentPrice }

  function CostBasis(h: PortfolioHolding): real { h.shares * h.avgPrice }

  /** What a holding has gained at the current price. */
  function HoldingGain(h: PortfolioHolding): real { h.shares * (h.currentPrice - h.avgPrice) }

  /** Every holding has non-negative shares and current price. */
  predicate ValuesNonNegative(hs: seq<PortfolioHolding>) {
    forall i :: 0 <= i < |hs| ==> hs[i].shares >= 0.0 && hs[i].currentPrice >= 0.0
  }

  /** Every holding has non-negative shares and average price. */
  predicate CostsNonNegative(hs: seq<PortfolioHolding>) {
    forall i :: 0 <= i < |hs| ==> hs[i].shares >= 0.0 && hs[i].avgPrice >= 0.0
  }

  /** `calculateTotalValue`: 0 without an active portfolio, otherwise the
      `reduce` of shares·currentPrice over its holdings. */
  function TotalValue(active: Option<TabPortfolio>): (v: real)
    ensures active.None? || active.value.holdings == [] ==> v == 0.0
    ensures active.Some? && ValuesNonNegative(active.value.holdings) ==> v >= 0.0
  {
    if active.None? then 0.0
    else
      var hs := active.value.holdings;
      assert ValuesNonNegative(hs) ==> SumBy(hs, MarketValue) >= 0.0 by {
        if ValuesNonNegative(hs) {
          SumByNonNegative(hs, MarketValue);
        }
      }
      SumBy(hs, MarketValue)
  }

  /** The total cost `calculateTotalGain` reduces: shares·avgPrice. */
  function TotalCost(active: Option<TabPortfolio>): (c: real)
    ensures active.None? || active.value.holdings == [] ==> c == 0.0
    ensures active.Some? && CostsNonNegative(active.value.holdings) ==> c >= 0.0
  {
    if active.None? then 0.0
    else
      var hs := active.value.holdings;
      assert CostsNonNegative(hs) ==> SumBy(hs, CostBasis) >= 0.0 by {
        if CostsNonNegative(hs) {
          SumByNonNegative(hs, CostBasis);
        }
      }
      SumBy(hs, CostBasis)
  }

  datatype Gain = Gain(amount: real, percent: real)

  /** `calculateTotalGain`: the amount gained, and that amount as a
      percentage of the total cost, guarded to 0 when the cost is not
      positive. */
  function TotalGain(active: Option<TabPortfolio>): (g: Gain)
    ensures active.None? ==> g == Gain(0.0, 0.0)
    ensures g.amount == TotalValue(active) - TotalCost(active)
    ensures TotalCost(active) > 0.0 ==> g.percent * TotalCost(active) == g.amount * 100.0
    ensures TotalCost(active) <= 0.0 ==> g.percent == 0.0
  {
    if active.None? then Gain(0.0, 0.0)
    else
      var totalCost := TotalCost(active);
      var gain := TotalValue(active) - totalCost;
      Gain(gain, if totalCost > 0.0 then (gain / totalCost) * 100.0 else 0.0)
  }

  /** The gain amount is the sum of what each holding gained. */
  lemma GainIsSumOfHoldingGains(p: TabPortfolio)
    ensures TotalGain(Some(p)).amount == SumBy(p.holdings, HoldingGain)
  {
    SumByDifference(p.holdings, MarketValue, CostBasis, HoldingGain);
  }

  /** With a positive cost, the percentage has the sign of the amount. */
  lemma GainPercentSign(active: Option<TabPortfolio>)
    requires TotalCost(active) > 0.0
    ensures TotalGain(active).percent > 0.0 <==> TotalGain(active).amount > 0.0
    ensures TotalGain(active).percent == 0.0 <==> TotalGain(active).amount == 0.0
  {
  }

  /** When every current price equals the average price, nothing is gained
      and the percentage is 0. */
  lemma {:induction false} NoGainAtCost(p: TabPortfolio)
    requires forall i :: 0 <= i < |p.holdings| ==> p.holdings[i].currentPrice == p.holdings[i].avgPrice
    ensures TotalGain(Some(p)) == Gain(0.0, 0.0)
  {
    forall i | 0 <= i < |p.holdings|
      ensures MarketValue(p.holdings[i]) == CostBasis(p.holdings[i]) + 0.0
    {
    }
    SumByDifference(p.holdings, MarketValue, CostBasis, (h: PortfolioHolding) => 0.0);
    ZeroSum(p.holdings);
  }

  lemma {:induction false} ZeroSum(hs: seq<PortfolioHolding>)
    ensures SumBy(hs, (h: PortfolioHolding) => 0.0) == 0.0
  {
    if hs != [] {
      ZeroSum(hs[..|hs| - 1]);
    }
  }

  /** A holding added at the end adds its shares·currentPrice to the value
      and its shares·avgPrice to the cost. */
  lemma TotalsAddHolding(p: TabPortfolio, h: PortfolioHolding)
    ensures TotalValue(Some(p.(holdings := p.holdings + [h]))) == TotalValue(Some(p)) + h.shares * h.currentPrice
    ensures TotalCost(Some(p.(holdings := p.holdings + [h]))) == TotalCost(Some(p)) + h.shares * h.avgPrice
  {
    SumByAppend(p.holdings, [h], MarketValue);
    SumByAppend(p.holdings, [h], CostBasis);
  }

  /** The add-holding dialog's text fields. */
  datatype HoldingForm = HoldingForm(ticker: string, name: string, shares: string, avgPrice: string, currentPrice: string)

  const EmptyForm := HoldingForm("", "", "", "", "")

  /** Every field of the form is a non-empty string. */
  predicate Complete(f: HoldingForm) {
    f.ticker != "" && f.name != "" && f.shares != "" && f.avgPrice != "" && f.currentPrice != ""
  }

  /** The list-hook calls the tab issues. */
  datatype ListCall =
    | CreatePortfolioCall(name: string)
    | DeletePortfolioCall(id: string)
    | AddHoldingCall(portfolioId: string, holding: PortfolioHolding)
    | UpdateHoldingCall(portfolioId: string, ticker: string, holding: PortfolioHolding)
    | RemoveHoldingCall(portfolioId: string, ticker: string)

  /** The holding the add dialog submits; `parse` stands for `parseFloat`. */
  function FormHolding(f: HoldingForm, parse: string -> real): (h: PortfolioHolding)
    ensures h.ticker == ToUpper(f.ticker) && h.name == f.name
    ensures h.shares == parse(f.shares) && h.avgPrice == parse(f.avgPrice) && h.currentPrice == parse(f.currentPrice)
  {
    PortfolioHolding(ToUpper(f.ticker), f.name, parse(f.shares), parse(f.avgPrice), parse(f.currentPrice))
  }

  class PortfolioTabState {
    var createDialogOpen: bool
    var addHoldingDialogOpen: bool
    var editHoldingDialogOpen: bool
    var editingHolding: Option<PortfolioHolding>
    var newPortfolioName: string
    var newHolding: HoldingForm
    var calls: seq<ListCall>

    constructor ()
      ensures !createDialogOpen && !addHoldingDialogOpen && !editHoldingDialogOpen && editingHolding == None
      ensures newPortfolioName == "" && newHolding == EmptyForm && calls == []
    {
      createDialogOpen := false;
      addHoldingDialogOpen := false;
      editHoldingDialogOpen := false;
      editingHolding := None;
      newPortfolioName := "";
      newHolding := EmptyForm;
      calls := [];
    }

    /** `handleCreatePortfolio`: a name that is blank once trimmed does
        nothing; otherwise the trimmed name is created, the field cleared
        and the dialog closed. */
    method HandleCreatePortfolio()
      modifies this`calls, this`newPortfolioName, this`createDialogOpen
      ensures AllWhiteSpace(old(newPortfolioName)) ==>
        calls == old(calls) && newPortfolioName == old(newPortfolioName) && createDialogOpen == old(createDialogOpen)
      ensures !AllWhiteSpace(old(newPortfolioName)) ==>
        && calls == old(calls) + [CreatePortfolioCall(Trim(old(newPortfolioName)))]
        && newPortfolioName == "" && !createDialogOpen
    {
      var trimmed := Trim(newPortfolioName);
      if trimmed != "" {
        calls := calls + [CreatePortfolioCall(trimmed)];
        newPortfolioName := "";
        createDialogOpen := false;
      }
    }

    /** `handleDeletePortfolio`: only when more than one portfolio exists. */
    method HandleDeletePortfolio(id: string, portfolioCount: nat)
      modifies this`calls
      ensures calls == if portfolioCount > 1 then old(calls) + [DeletePortfolioCall(id)] else old(calls)
    {
      if portfolioCount > 1 {
        calls := calls + [DeletePortfolioCall(id)];
      }
    }

    /** `handleAddHolding`: needs an active id and every field filled; then
        adds the parsed holding with an upper-cased ticker, resets the form
        and closes the dialog. Otherwise nothing changes. */
    method HandleAddHolding(activeId: Option<string>, parse: string -> real)
      modifies this`calls, this`newHolding, this`addHoldingDialogOpen
      ensures !(IsSet(activeId) && Complete(old(newHolding))) ==>
        calls == old(calls) && newHolding == old(newHolding) && addHoldingDialogOpen == old(addHoldingDialogOpen)
      ensures IsSet(activeId) && Complete(old(newHolding)) ==>
        && calls == old(calls) + [AddHoldingCall(activeId.value, FormHolding(old(newHolding), parse))]
        && newHolding == EmptyForm && !addHoldingDialogOpen
    {
      if IsSet(activeId) && Complete(newHolding) {
        calls := calls + [AddHoldingCall(activeId.value, FormHolding(newHolding, parse))];
        newHolding := EmptyForm;
        addHoldingDialogOpen := false;
      }
    }

    /** `handleEditHolding`: opens the edit dialog on a holding. */
    method HandleEditHolding(h: PortfolioHolding)
      modifies this`editingHolding, this`editHoldingDialogOpen
      ensures editingHolding == Some(h) && editHoldingDialogOpen
    {
      editingHolding := Some(h);
      editHoldingDialogOpen := true;
    }

    /** `handleUpdateHolding`: needs an active id and a holding being
        edited; updates it under its ticker and closes the dialog. */
    method HandleUpdateHolding(activeId: Option<string>)
      modifies this`calls, this`editingHolding, this`editHoldingDialogOpen
      ensures !(IsSet(activeId) && old(editingHolding).Some?) ==>
        calls == old(calls) && editingHolding == old(editingHolding) && editHoldingDialogOpen == old(editHoldingDialogOpen)
      ensures IsSet(activeId) && old(editingHolding).Some? ==>
        var h := old(editingHolding).value;
        && calls == old(calls) + [UpdateHoldingCall(activeId.value, h.ticker, h)]
        && editingHolding == None && !editHoldingDialogOpen
    {
      if IsSet(activeId) && editingHolding.Some? {
        var h := editingHolding.value;
        calls := calls + [UpdateHoldingCall(activeId.value, h.ticker, h)];
        editingHolding := None;
        editHoldingDialogOpen := false;
      }
    }

    /** `handleRemoveHolding`: needs an active id. */
    method HandleRemoveHolding(activeId: Option<string>, ticker: string)
      modifies this`calls
      ensures calls == if IsSet(activeId) then old(calls) + [RemoveHoldingCall(activeId.value, ticker)] else old(calls)
    {
      if IsSet(activeId) {
        calls := calls + [RemoveHoldingCall(activeId.value, ticker)];
      }
    }
  }

  /** A create issued from a padded name carries the name without its
      surrounding whitespace. */
  method CreateFromPaddedName() returns (issued: seq<ListCall>)
    ensures issued == [CreatePortfolioCall("Tech")]
  {
    var tab := new PortfolioTabState();
    tab.newPortfolioName := "  Tech ";
    assert Trim("  Tech ") == "Tech" by {
      TrimExample();
    }
    tab.HandleCreatePortfolio();
    issued := tab.calls;
  }

  /** A name of spaces and tabs issues nothing and keeps the dialog open. */
  method CreateFromBlankName() returns (issued: seq<ListCall>, stillOpen: bool)
    ensures issued == [] && stillOpen
  {
    var tab := new PortfolioTabState();
    tab.newPortfolioName := " \t";
    tab.createDialogOpen := true;
    assert AllWhiteSpace(" \t") by {
      forall i | 0 <= i < 2 ensures IsWhiteSpace(" \t"[i]) {
        assert " \t"[i] == ' ' || " \t"[i] == '\t';
      }
    }
    tab.HandleCreatePortfolio();
    issued := tab.calls;
    stillOpen := tab.createDialogOpen;
  }

  lemma TrimExample()
    ensures Trim("  Tech ") == "Tech"
  {
    var s := "  Tech ";
    assert s[2..6] == "Tech" && s[..2] == "  " && s[6..] == " ";
    assert !IsWhiteSpace('T') && !IsWhiteSpace('h');
    TrimUnique(s, "Tech", 2);
  }
}

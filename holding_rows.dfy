/**
 * The holdings table of the "Portfolio" page (electron/api/portfolio.ts,
 * `processHoldingAndDataPointsWithQuotes`): for every security with lots and
 * a usable quote, the lots of the filtered account are tallied at the quote's
 * prices, the tallies are added up across securities at the exchange rates,
 * and a security the account still holds units of gets a row.
 */
module HoldingRows {
  import opened Wrappers
  import opened Seqs
  import opened Sums
  import opened Records
  import opened Quotes
  import opened Cursors

  /** A row of the holdings table. A purchase date `None` is the source's empty string. */
  datatype HoldingRow = HoldingRow(
    id: int,
    symbol: string,
    name: string,
    currency: string,
    exchange: string,
    kind: string,
    units: real,
    buyPrice: real,
    lastPrice: real,
    marketValue: real,
    purchaseCost: real,
    profitOrLoss: real,
    profitOrLossPerc: Option<real>,
    todayChange: real,
    todayChangePerc: Option<real>,
    firstPurchase: Option<int>,
    lastPurchase: Option<int>,
    weightPerc: Option<real>)  // None: the division by a zero combined value, which yields no finite number

  // ------------------------------------------------------------------------
  // Quotients
  // ------------------------------------------------------------------------

  /** `p` is `num / den`: absent exactly when `den` is zero, otherwise the factor that takes `den` to `num`. */
  ghost predicate IsQuotient(p: Option<real>, num: real, den: real) {
    && (p.None? <==> den == 0.0)
    && (p.Some? ==> p.value * den == num)
  }

  /** `num / den`, or `None` (the source's `null`) when the denominator is zero. */
  function Quotient(num: real, den: real): (p: Option<real>)
    ensures IsQuotient(p, num, den)
  {
    if den != 0.0 then Some(num / den) else None
  }

  // ------------------------------------------------------------------------
  // One security's lots
  // ------------------------------------------------------------------------

  /** The running figures of the inner loop over one security's lots. */
  datatype Tally = Tally(
    marketValue: real,
    previousValue: real,
    units: real,
    cost: real,
    firstPurchase: Option<int>,
    lastPurchase: Option<int>)

  const NO_LOTS: Tally := Tally(0.0, 0.0, 0.0, 0.0, None, None)

  function Counted(accountIdFilter: string): Holding -> bool {
    (h: Holding) => PassesFilter(accountIdFilter, h.accountId)
  }

  function MarketValueAt(lastPrice: real): Holding -> real {
    (h: Holding) => Priced(h.quantity, lastPrice)
  }

  function PurchaseCost(h: Holding): real {
    Priced(h.quantity, h.price) + h.brokerage + h.gst
  }

  /** Yesterday's value of a lot: at the previous close when bought before today, at its buy price when bought today. */
  function PreviousValueAt(previousPrice: real, today: int): Holding -> real {
    (h: Holding) => if h.date < today then Priced(h.quantity, previousPrice) else Priced(h.quantity, h.price)
  }

  /** The earlier of the dates; `None` is no date yet. */
  function Earlier(first: Option<int>, date: int): Option<int> {
    if first.None? || date < first.value then Some(date) else first
  }

  /** The later of the dates; `None` is no date yet. */
  function Later(last: Option<int>, date: int): Option<int> {
    if last.None? || date > last.value then Some(date) else last
  }

  /** One pass of the inner loop over a lot of the filtered account. */
  function Count(t: Tally, h: Holding, lastPrice: real, previousPrice: real, today: int): Tally {
    Tally(t.marketValue + MarketValueAt(lastPrice)(h),
          t.previousValue + PreviousValueAt(previousPrice, today)(h),
          t.units + h.quantity,
          t.cost + PurchaseCost(h),
          Earlier(t.firstPurchase, h.date),
          Later(t.lastPurchase, h.date))
  }

  /** The inner loop over a security's lots, skipping those of other accounts. */
  function TallyOf(holdings: seq<Holding>, accountIdFilter: string, lastPrice: real, previousPrice: real,
                   today: int): Tally
  {
    if holdings == [] then NO_LOTS
    else
      var n := |holdings| - 1;
      var t := TallyOf(holdings[..n], accountIdFilter, lastPrice, previousPrice, today);
      if PassesFilter(accountIdFilter, holdings[n].accountId) then Count(t, holdings[n], lastPrice, previousPrice, today)
      else t
  }

  lemma TallyOfSnoc(holdings: seq<Holding>, i: nat, accountIdFilter: string, lastPrice: real, previousPrice: real,
                    today: int)
    requires i < |holdings|
    ensures var t := TallyOf(holdings[..i], accountIdFilter, lastPrice, previousPrice, today);
      TallyOf(holdings[..i + 1], accountIdFilter, lastPrice, previousPrice, today) ==
        if PassesFilter(accountIdFilter, holdings[i].accountId) then Count(t, holdings[i], lastPrice, previousPrice, today)
        else t
  {
    assert holdings[..i + 1][..i] == holdings[..i];
  }

  /**
   * The four sums of the inner loop are the sums over the filtered account's
   * lots: market value at the last price, yesterday's value, units, and cost
   * with fees.
   */
  lemma {:induction false} TallySums(holdings: seq<Holding>, accountIdFilter: string, lastPrice: real,
                                     previousPrice: real, today: int)
    ensures var t := TallyOf(holdings, accountIdFilter, lastPrice, previousPrice, today);
      var kept := Filter(holdings, Counted(accountIdFilter));
      && t.marketValue == Sum(kept, MarketValueAt(lastPrice))
      && t.previousValue == Sum(kept, PreviousValueAt(previousPrice, today))
      && t.units == Sum(kept, Quantity)
      && t.cost == Sum(kept, PurchaseCost)
  {
    if holdings != [] {
      var n := |holdings| - 1;
      var h := holdings[n];
      TallySums(holdings[..n], accountIdFilter, lastPrice, previousPrice, today);
      assert holdings == holdings[..n] + [h];
      assert Counted(accountIdFilter)(h) == PassesFilter(accountIdFilter, h.accountId);
      FilterSumSnoc(holdings[..n], h, Counted(accountIdFilter), MarketValueAt(lastPrice));
      FilterSumSnoc(holdings[..n], h, Counted(accountIdFilter), PreviousValueAt(previousPrice, today));
      FilterSumSnoc(holdings[..n], h, Counted(accountIdFilter), Quantity);
      FilterSumSnoc(holdings[..n], h, Counted(accountIdFilter), PurchaseCost);
    }
  }

  /**
   * `first` is the earliest purchase date among the lots of the filtered
   * account, and `last` the latest; both are `None` exactly when the account
   * has no lot.
   */
  ghost predicate PurchaseSpan(first: Option<int>, last: Option<int>, holdings: seq<Holding>, accountIdFilter: string) {
    && (first.None? <==> forall h :: h in holdings ==> !PassesFilter(accountIdFilter, h.accountId))
    && (last.None? <==> first.None?)
    && (first.Some? ==>
          && (exists h :: h in holdings && PassesFilter(accountIdFilter, h.accountId) && h.date == first.value)
          && (forall h :: h in holdings && PassesFilter(accountIdFilter, h.accountId) ==> first.value <= h.date))
    && (last.Some? ==>
          && (exists h :: h in holdings && PassesFilter(accountIdFilter, h.accountId) && h.date == last.value)
          && (forall h :: h in holdings && PassesFilter(accountIdFilter, h.accountId) ==> h.date <= last.value))
  }

  lemma PurchaseSpanStep(first: Option<int>, last: Option<int>, holdings: seq<Holding>, h: Holding,
                         accountIdFilter: string)
    requires PurchaseSpan(first, last, holdings, accountIdFilter)
    ensures PassesFilter(accountIdFilter, h.accountId) ==>
      PurchaseSpan(Earlier(first, h.date), Later(last, h.date), holdings + [h], accountIdFilter)
    ensures !PassesFilter(accountIdFilter, h.accountId) ==> PurchaseSpan(first, last, holdings + [h], accountIdFilter)
  {
    assert forall x :: x in holdings + [h] <==> x in holdings || x == h;
    if PassesFilter(accountIdFilter, h.accountId) {
      if first.Some? && h.date >= first.value {
        var w :| w in holdings && PassesFilter(accountIdFilter, w.accountId) && w.date == first.value;
        assert w in holdings + [h];
      }
      if last.Some? && h.date <= last.value {
        var w :| w in holdings && PassesFilter(accountIdFilter, w.accountId) && w.date == last.value;
        assert w in holdings + [h];
      }
    } else if first.Some? {
      var w :| w in holdings && PassesFilter(accountIdFilter, w.accountId) && w.date == first.value;
      assert w in holdings + [h];
      var v :| v in holdings && PassesFilter(accountIdFilter, v.accountId) && v.date == last.value;
      assert v in holdings + [h];
    }
  }

  /** The first and last purchase dates of the inner loop are the earliest and latest of the account's lots. */
  lemma {:induction false} TallyPurchases(holdings: seq<Holding>, accountIdFilter: string, lastPrice: real,
                                          previousPrice: real, today: int)
    ensures var t := TallyOf(holdings, accountIdFilter, lastPrice, previousPrice, today);
      PurchaseSpan(t.firstPurchase, t.lastPurchase, holdings, accountIdFilter)
  {
    if holdings != [] {
      var n := |holdings| - 1;
      TallyPurchases(holdings[..n], accountIdFilter, lastPrice, previousPrice, today);
      var t := TallyOf(holdings[..n], accountIdFilter, lastPrice, previousPrice, today);
      PurchaseSpanStep(t.firstPurchase, t.lastPurchase, holdings[..n], holdings[n], accountIdFilter);
      assert holdings == holdings[..n] + [holdings[n]];
    }
  }

  /**
   * Lots always hold units, so a security the account holds no units of has
   * no lots of that account, and adds nothing to the combined figures.
   */
  lemma NoUnitsNoValue(holdings: seq<Holding>, accountIdFilter: string, lastPrice: real, previousPrice: real,
                       today: int)
    requires forall h :: h in holdings ==> h.quantity > 0.0
    ensures var t := TallyOf(holdings, accountIdFilter, lastPrice, previousPrice, today);
      && t.units >= 0.0
      && (t.units == 0.0 ==> t.marketValue == 0.0 && t.previousValue == 0.0 && t.cost == 0.0)
  {
    TallySums(holdings, accountIdFilter, lastPrice, previousPrice, today);
    var kept := Filter(holdings, Counted(accountIdFilter));
    if kept != [] {
      forall i | 0 <= i < |kept| ensures Quantity(kept[i]) > 0.0 {
        FilterMembers(holdings, Counted(accountIdFilter), kept[i]);
      }
      SumPositive(kept, Quantity);
    }
  }

  /** The inner loop of `processHoldingAndDataPointsWithQuotes`, with its six running figures. */
  method TallyHoldings(holdings: seq<Holding>, accountIdFilter: string, lastPrice: real, previousPrice: real,
                       today: int)
    returns (t: Tally)
    ensures t == TallyOf(holdings, accountIdFilter, lastPrice, previousPrice, today)
  {
    var marketValue, previousValue, units, cost := 0.0, 0.0, 0.0, 0.0;
    var firstPurchase: Option<int> := None;
    var lastPurchase: Option<int> := None;
    var i := 0;
    while i < |holdings|
      invariant i <= |holdings|
      invariant Tally(marketValue, previousValue, units, cost, firstPurchase, lastPurchase)
                == TallyOf(holdings[..i], accountIdFilter, lastPrice, previousPrice, today)
    {
      TallyOfSnoc(holdings, i, accountIdFilter, lastPrice, previousPrice, today);
      var holding := holdings[i];
      if PassesFilter(accountIdFilter, holding.accountId) {
        marketValue := marketValue + Priced(holding.quantity, lastPrice);
        cost := cost + Priced(holding.quantity, holding.price) + holding.brokerage + holding.gst;
        units := units + holding.quantity;
        previousValue := previousValue +
          if holding.date < today then Priced(holding.quantity, previousPrice) else Priced(holding.quantity, holding.price);
        if firstPurchase.None? || holding.date < firstPurchase.value {
          firstPurchase := Some(holding.date);
        }
        if lastPurchase.None? || holding.date > lastPurchase.value {
          lastPurchase := Some(holding.date);
        }
      }
      i := i + 1;
    }
    assert holdings[..i] == holdings;
    t := Tally(marketValue, previousValue, units, cost, firstPurchase, lastPurchase);
  }

  // ------------------------------------------------------------------------
  // Rows and totals across securities
  // ------------------------------------------------------------------------

  /**
   * The row of a security whose filtered lots hold units: the average buy
   * price is the cost per unit, the profit is market value less cost and
   * today's change is market value less yesterday's value, each with its
   * quotient. The weight is filled in once every row is known.
   */
  function RowOf(security: SecurityData, p: Prices, t: Tally, id: int): (row: HoldingRow)
    requires t.units > 0.0
    ensures row.id == id && row.symbol == security.symbol && row.name == security.name
    ensures row.currency == security.currency && row.exchange == security.exchange && row.kind == security.kind
    ensures row.units == t.units && row.lastPrice == p.lastPrice
    ensures row.marketValue == t.marketValue && row.purchaseCost == t.cost
    ensures row.buyPrice * row.units == row.purchaseCost
    ensures row.profitOrLoss + row.purchaseCost == row.marketValue
    ensures IsQuotient(row.profitOrLossPerc, row.profitOrLoss, row.purchaseCost)
    ensures row.todayChange + t.previousValue == row.marketValue
    ensures IsQuotient(row.todayChangePerc, row.todayChange, t.previousValue)
    ensures row.firstPurchase == t.firstPurchase && row.lastPurchase == t.lastPurchase
  {
    var profitOrLoss := t.marketValue - t.cost;
    var todayChange := t.marketValue - t.previousValue;
    HoldingRow(id, security.symbol, security.name, security.currency, security.exchange, security.kind,
               t.units, t.cost / t.units, p.lastPrice, t.marketValue, t.cost,
               profitOrLoss, Quotient(profitOrLoss, t.cost), todayChange, Quotient(todayChange, t.previousValue),
               t.firstPurchase, t.lastPurchase, Some(0.0))
  }

  /** A security's quote prices and tally; `None` when it has no lots or no usable quote, and is skipped. */
  datatype Valued = Valued(prices: Prices, tally: Tally)

  function ValuedOf(security: SecurityData, quotes: map<string, Quote>, target: string, accountIdFilter: string,
                    today: int): (v: Option<Valued>)
    ensures v.Some? <==> security.holdings != [] && PricesOf(quotes, target, security.symbol).Some?
    ensures v.Some? ==> v.value.prices == PricesOf(quotes, target, security.symbol).value
    ensures v.Some? ==>
      v.value.tally == TallyOf(security.holdings, accountIdFilter, v.value.prices.lastPrice, v.value.prices.previousPrice, today)
  {
    if security.holdings == [] then None
    else match PricesOf(quotes, target, security.symbol)
      case None => None
      case Some(p) => Some(Valued(p, TallyOf(security.holdings, accountIdFilter, p.lastPrice, p.previousPrice, today)))
  }

  /** The combined figures, in the target currency. */
  datatype Totals = Totals(value: real, previousValue: real, cost: real)

  /**
   * A security's tally added to the combined figures: market value and cost
   * at today's rate, yesterday's value at the previous day's rate.
   */
  function Combine(c: Totals, v: Valued): Totals {
    Totals(c.value + Converted(v.tally.marketValue, v.prices.rate),
           c.previousValue + Converted(v.tally.previousValue, v.prices.previousRate),
           c.cost + Converted(v.tally.cost, v.prices.rate))
  }

  /** What the outer loop has produced after the securities `done`. */
  datatype Progress = Progress(rows: seq<HoldingRow>, totals: Totals)

  /**
   * One pass of the outer loop: a valued security is added to the totals
   * and, when its filtered lots hold units, gets a row under the next
   * holding id; a security that is not valued changes nothing.
   */
  function Step(before: Progress, security: SecurityData, v: Option<Valued>, firstId: int): Progress {
    if v.None? then before
    else
      var rows := if v.value.tally.units > 0.0
                  then before.rows + [RowOf(security, v.value.prices, v.value.tally, firstId + |before.rows|)]
                  else before.rows;
      Progress(rows, Combine(before.totals, v.value))
  }

  /** The outer loop over the securities `done`. */
  function ProgressOf(done: seq<SecurityData>, quotes: map<string, Quote>, target: string, accountIdFilter: string,
                      today: int, firstId: int): Progress
  {
    if done == [] then Progress([], Totals(0.0, 0.0, 0.0))
    else
      var n := |done| - 1;
      Step(ProgressOf(done[..n], quotes, target, accountIdFilter, today, firstId), done[n],
           ValuedOf(done[n], quotes, target, accountIdFilter, today), firstId)
  }

  lemma ProgressOfSnoc(done: seq<SecurityData>, i: nat, quotes: map<string, Quote>, target: string,
                       accountIdFilter: string, today: int, firstId: int)
    requires i < |done|
    ensures ProgressOf(done[..i + 1], quotes, target, accountIdFilter, today, firstId) ==
      Step(ProgressOf(done[..i], quotes, target, accountIdFilter, today, firstId), done[i],
           ValuedOf(done[i], quotes, target, accountIdFilter, today), firstId)
  {
    assert done[..i + 1][..i] == done[..i];
  }

  /** The securities that are valued and whose filtered lots hold units, in order. */
  ghost function HeldOf(done: seq<SecurityData>, quotes: map<string, Quote>, target: string, accountIdFilter: string,
                        today: int): seq<SecurityData>
  {
    if done == [] then []
    else
      var n := |done| - 1;
      var v := ValuedOf(done[n], quotes, target, accountIdFilter, today);
      HeldOf(done[..n], quotes, target, accountIdFilter, today) +
        if v.Some? && v.value.tally.units > 0.0 then [done[n]] else []
  }

  /**
   * The outer loop makes one row per held security, in order, numbered
   * consecutively from `firstId`, each computed from that security's quote
   * and tally.
   */
  lemma {:induction false} ProgressRows(done: seq<SecurityData>, quotes: map<string, Quote>, target: string,
                                        accountIdFilter: string, today: int, firstId: int)
    ensures var rows := ProgressOf(done, quotes, target, accountIdFilter, today, firstId).rows;
      var held := HeldOf(done, quotes, target, accountIdFilter, today);
      && |rows| == |held|
      && forall i :: 0 <= i < |rows| ==>
           var v := ValuedOf(held[i], quotes, target, accountIdFilter, today);
           && v.Some? && v.value.tally.units > 0.0
           && rows[i] == RowOf(held[i], v.value.prices, v.value.tally, firstId + i)
  {
    if done != [] {
      var n := |done| - 1;
      ProgressRows(done[..n], quotes, target, accountIdFilter, today, firstId);
    }
  }

  /**
   * One pass of the loop of `valueHoldings`: values `security` at its quote,
   * adds it to the totals and gives it a row under the next holding id when
   * its filtered lots hold units.
   */
  method ValueSecurity(security: SecurityData, quotes: map<string, Quote>, target: string, accountIdFilter: string,
                       today: int, idGen: IdGenerator, rows: seq<HoldingRow>, totals: Totals, ghost firstId: int)
    returns (rows': seq<HoldingRow>, totals': Totals)
    requires idGen.Valid() && idGen.holdingId == firstId + |rows|
    modifies idGen
    ensures idGen.Valid() && idGen.holdingId == firstId + |rows'|
    ensures idGen.tradeId == old(idGen.tradeId) && idGen.buyHistoryId == old(idGen.buyHistoryId)
    ensures idGen.sellHistoryId == old(idGen.sellHistoryId)
    ensures Progress(rows', totals') ==
      Step(Progress(rows, totals), security, ValuedOf(security, quotes, target, accountIdFilter, today), firstId)
  {
    rows', totals' := rows, totals;
    if security.holdings != [] {
      var prices := PricesOf(quotes, target, security.symbol);
      if prices.Some? {
        var p := prices.value;
        var t := TallyHoldings(security.holdings, accountIdFilter, p.lastPrice, p.previousPrice, today);
        assert ValuedOf(security, quotes, target, accountIdFilter, today) == Some(Valued(p, t));
        totals' := Totals(totals.value + Converted(t.marketValue, p.rate),
                          totals.previousValue + Converted(t.previousValue, p.previousRate),
                          totals.cost + Converted(t.cost, p.rate));
        if t.units > 0.0 {
          var id := idGen.NextHoldingId();
          rows' := rows + [RowOf(security, p, t, id)];
        }
      }
    }
  }

  /**
   * The outer loop of `processHoldingAndDataPointsWithQuotes`: securities
   * without lots or without a usable quote are skipped, the others are
   * tallied and added to the combined figures, and each one the account
   * still holds units of gets a row under the next holding id.
   */
  method ValueHoldings(securities: seq<SecurityData>, quotes: map<string, Quote>, target: string,
                       accountIdFilter: string, today: int, idGen: IdGenerator)
    returns (rows: seq<HoldingRow>, totals: Totals)
    requires idGen.Valid()
    modifies idGen
    ensures idGen.Valid()
    ensures Progress(rows, totals) == ProgressOf(securities, quotes, target, accountIdFilter, today, old(idGen.holdingId))
    ensures idGen.holdingId == old(idGen.holdingId) + |rows|
    ensures idGen.tradeId == old(idGen.tradeId) && idGen.buyHistoryId == old(idGen.buyHistoryId)
    ensures idGen.sellHistoryId == old(idGen.sellHistoryId)
  {
    rows, totals := [], Totals(0.0, 0.0, 0.0);
    var i := 0;
    while i < |securities|
      invariant i <= |securities| && idGen.Valid()
      invariant Progress(rows, totals) == ProgressOf(securities[..i], quotes, target, accountIdFilter, today,
                                                     old(idGen.holdingId))
      invariant idGen.holdingId == old(idGen.holdingId) + |rows|
      invariant idGen.tradeId == old(idGen.tradeId) && idGen.buyHistoryId == old(idGen.buyHistoryId)
      invariant idGen.sellHistoryId == old(idGen.sellHistoryId)
    {
      ProgressOfSnoc(securities, i, quotes, target, accountIdFilter, today, old(idGen.holdingId));
      rows, totals := ValueSecurity(securities[i], quotes, target, accountIdFilter, today, idGen, rows, totals,
                                    old(idGen.holdingId));
      i := i + 1;
    }
    assert securities[..i] == securities;
  }

  function RowMarketValue(row: HoldingRow): real { row.marketValue }

  /** A usable quote for `symbol` converts into the target currency at a rate of 1. */
  predicate AtParity(quotes: map<string, Quote>, target: string, symbol: string) {
    PricesOf(quotes, target, symbol).Some? ==> PricesOf(quotes, target, symbol).value.rate == 1.0
  }

  /**
   * When every security converts at a rate of 1 (it is in the target
   * currency, for one), the rows' market values add up to the combined market
   * value, so the weights are shares of the portfolio. With other rates they
   * need not: a row's value is in its security's currency and the combined
   * value in the target's.
   */
  lemma {:induction false} RowsAddUp(done: seq<SecurityData>, quotes: map<string, Quote>, target: string,
                                     accountIdFilter: string, today: int, firstId: int)
    requires forall s :: s in done ==> AtParity(quotes, target, s.symbol)
    requires forall s, h :: s in done && h in s.holdings ==> h.quantity > 0.0
    ensures var p := ProgressOf(done, quotes, target, accountIdFilter, today, firstId);
      Sum(p.rows, RowMarketValue) == p.totals.value
  {
    if done != [] {
      var n := |done| - 1;
      assert forall s :: s in done[..n] ==> s in done;
      RowsAddUp(done[..n], quotes, target, accountIdFilter, today, firstId);
      var before := ProgressOf(done[..n], quotes, target, accountIdFilter, today, firstId);
      var v := ValuedOf(done[n], quotes, target, accountIdFilter, today);
      assert ProgressOf(done, quotes, target, accountIdFilter, today, firstId) == Step(before, done[n], v, firstId);
      if v.Some? {
        assert done[n] in done;
        var t := v.value.tally;
        assert Converted(t.marketValue, v.value.prices.rate) == t.marketValue;
        if t.units > 0.0 {
          var row := RowOf(done[n], v.value.prices, t, firstId + |before.rows|);
          SumAppend(before.rows, [row], RowMarketValue);
          assert [row][1..] == [];
        } else {
          NoUnitsNoValue(done[n].holdings, accountIdFilter, v.value.prices.lastPrice, v.value.prices.previousPrice,
                         today);
        }
      }
    }
  }

  /**
   * The weight of a row: its market value over the combined value. The source
   * divides without a guard, so a zero combined value gives NaN or an
   * infinity there; `None` stands for that here.
   */
  function Weighted(row: HoldingRow, combinedValue: real): (r: HoldingRow)
    ensures r == row.(weightPerc := r.weightPerc)
    ensures IsQuotient(r.weightPerc, row.marketValue, combinedValue)
  {
    row.(weightPerc := Quotient(row.marketValue, combinedValue))
  }

  /** The weight loop: every row, in place, gets its weight against the combined value. */
  method SetWeights(rows: seq<HoldingRow>, combinedValue: real) returns (weighted: seq<HoldingRow>)
    ensures |weighted| == |rows|
    ensures forall i :: 0 <= i < |rows| ==> weighted[i] == Weighted(rows[i], combinedValue)
  {
    weighted := rows;
    var i := 0;
    while i < |weighted|
      invariant i <= |weighted| == |rows|
      invariant forall j :: 0 <= j < i ==> weighted[j] == Weighted(rows[j], combinedValue)
      invariant forall j :: i <= j < |rows| ==> weighted[j] == rows[j]
    {
      weighted := weighted[i := Weighted(weighted[i], combinedValue)];
      i := i + 1;
    }
  }
}

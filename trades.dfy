/**
 * The trade ledger of one security (electron/api/trades.ts): buying appends a
 * lot, selling consumes the account's lots oldest first, in place, and both
 * keep the buy and sell histories in date order. The sell loop is proved to
 * write exactly the entries, and to leave exactly the lots, that module
 * LotMatching computes from the lots' values.
 */
module Trades {
  import opened Wrappers
  import opened Seqs
  import opened Sorting
  import opened Sums
  import opened Records
  import opened LotMatching

  datatype TradeError =
    | QuantityZero
    | UnknownSymbol(symbol: string)
    | GstNotANumber
    | InsufficientQuantity(required: real, owned: real)
    | NoSecurityData(symbol: string)

  /** A holding object; a partial sale shrinks its quantity and fees in place. */
  class Lot {
    const accountId: string
    const date: int
    const price: real
    var quantity: real
    var brokerage: real
    var gst: real

    function Value(): (h: Holding)
      reads this
      ensures h.accountId == accountId && h.date == date && h.price == price
      ensures h.quantity == quantity && h.brokerage == brokerage && h.gst == gst
    {
      Holding(accountId, date, quantity, price, brokerage, gst)
    }

    constructor (h: Holding)
      ensures Value() == h
    {
      accountId, date, price := h.accountId, h.date, h.price;
      quantity, brokerage, gst := h.quantity, h.brokerage, h.gst;
    }

    /** A sale of `quantitySold` of the lot's units, not all of them: the lot shrinks in place. */
    method SellPart(quantitySold: real)
      requires quantity != 0.0
      modifies this
      ensures Value() == Shrink(old(Value()), quantitySold)
    {
      var buyRatio := quantitySold / quantity;
      quantity := quantity - quantitySold;
      brokerage := brokerage * (1.0 - buyRatio);
      gst := gst * (1.0 - buyRatio);
    }
  }

  /** The values the lots hold right now. */
  function Snapshot(lots: seq<Lot>): (hs: seq<Holding>)
    reads lots
    ensures |hs| == |lots|
    ensures forall i :: 0 <= i < |lots| ==> hs[i] == lots[i].Value()
  {
    seq(|lots|, i requires 0 <= i < |lots| reads lots => lots[i].Value())
  }

  function LotDate(l: Lot): int { l.date }

  /** Lots of `accountId` bought on or before `date`: the lots a sale on `date` may consume. */
  function IsCandidate(accountId: string, date: int): Lot -> bool {
    (l: Lot) => l.accountId == accountId && l.date <= date
  }

  function Eligible(lots: seq<Lot>, accountId: string, date: int): seq<Lot> {
    Filter(lots, IsCandidate(accountId, date))
  }

  function NotIn(gone: set<Lot>): Lot -> bool {
    (l: Lot) => l !in gone
  }

  /** `lots` without the lots in `gone`, in their original order. */
  function Exclude(lots: seq<Lot>, gone: set<Lot>): seq<Lot> {
    Filter(lots, NotIn(gone))
  }

  function Elements(lots: seq<Lot>): set<Lot> {
    set l | l in lots
  }

  function OfAccount(accountId: string): Holding -> bool {
    (h: Holding) => h.accountId == accountId
  }

  /** The units `accountId` holds: the filter-and-reduce of `availableUnits`. */
  function AccountUnits(hs: seq<Holding>, accountId: string): real {
    Sum(Filter(hs, OfAccount(accountId)), Quantity)
  }

  function BuyOfAccount(accountId: string): BuyEntry -> bool {
    (e: BuyEntry) => e.accountId == accountId
  }

  function SaleOfAccount(accountId: string): SellEntry -> bool {
    (e: SellEntry) => e.accountId == accountId
  }

  function BoughtQuantity(e: BuyEntry): real { e.quantity }

  /** The units `accountId` bought, over a buy history. */
  function Bought(history: seq<BuyEntry>, accountId: string): real {
    Sum(Filter(history, BuyOfAccount(accountId)), BoughtQuantity)
  }

  /** The units `accountId` sold, over a sell history. */
  function Sold(history: seq<SellEntry>, accountId: string): real {
    Sum(Filter(history, SaleOfAccount(accountId)), SoldQuantity)
  }

  /** Every account holds in its open lots what it bought less what it sold. */
  ghost predicate Conserved(hs: seq<Holding>, buys: seq<BuyEntry>, sells: seq<SellEntry>) {
    forall a :: AccountUnits(hs, a) == Bought(buys, a) - Sold(sells, a)
  }

  /** What a sell trade takes from `a`'s units: its quantity when `a` sells a positive quantity, else nothing. */
  function SoldBy(trade: TradeData, a: string): real {
    if a == trade.accountId && trade.quantity > 0.0 then trade.quantity else 0.0
  }

  /** A sell trade's account holds its quantity fewer units after the sale; every other account holds as many. */
  ghost predicate UnitsSold(hs: seq<Holding>, hs': seq<Holding>, trade: TradeData) {
    forall a :: AccountUnits(hs', a) == AccountUnits(hs, a) - SoldBy(trade, a)
  }

  /** Total units of a list of lots: the `reduce` that computes the owned units of a sale. */
  function Units(lots: seq<Lot>): real
    reads lots
  {
    Sum(Snapshot(lots), Quantity)
  }

  /** The holding a buy trade creates; its GST is `gstPercent` per cent of the brokerage. */
  function NewHolding(trade: TradeData, gstPercent: real): (h: Holding)
    ensures h.gst * 100.0 == trade.brokerage * gstPercent
    ensures h.accountId == trade.accountId && h.date == trade.date
    ensures h.quantity == trade.quantity && h.price == trade.price && h.brokerage == trade.brokerage
  {
    Holding(trade.accountId, trade.date, trade.quantity, trade.price, trade.brokerage,
            trade.brokerage * gstPercent / 100.0)
  }

  /** The buy-history entry of a buy trade: the holding plus its total cost. */
  function BuyRecord(tradeId: string, h: Holding): (e: BuyEntry)
    ensures e.total == h.quantity * h.price + h.brokerage + h.gst
    ensures e.accountId == h.accountId && e.date == h.date && e.quantity == h.quantity
    ensures e.price == h.price && e.brokerage == h.brokerage && e.gst == h.gst
  {
    BuyEntry(tradeId, h.quantity * h.price + h.brokerage + h.gst,
             h.accountId, h.date, h.quantity, h.price, h.brokerage, h.gst)
  }

  /** The sell GST as written: `brokerage * gstPercent`, with no division by 100. */
  function SellGst(trade: TradeData, gstPercent: real): real {
    trade.brokerage * gstPercent
  }

  /** `fifo` lists the lots a sale by `accountId` on `date` may consume, oldest first. */
  predicate IsFifo(fifo: seq<Lot>, holdings: seq<Lot>, accountId: string, date: int) {
    && multiset(fifo) == multiset(Eligible(holdings, accountId, date))
    && Elements(fifo) <= Elements(holdings)
    && SortedBy(fifo, LotDate)
  }

  /**
   * A sale that went through, on the lists: `before` holds the values of the
   * candidate lots `fifo` when it started, the sell history gained exactly
   * their FIFO entries (in some order), and the first `consumed` of them are
   * gone from the holdings, which otherwise keep their order.
   */
  predicate SaleWritten(holdings: seq<Lot>, sellHistory: seq<SellEntry>, holdings': seq<Lot>, sellHistory': seq<SellEntry>,
                        fifo: seq<Lot>, consumed: nat, before: seq<Holding>, sale: Sale) {
    && NonZeroLots(before)
    && consumed <= |fifo|
    && multiset(sellHistory') == multiset(sellHistory + FifoEntries(before, sale.trade.quantity, sale))
    && holdings' == Exclude(holdings, Elements(fifo[..consumed]))
  }

  /**
   * A sale that went through, from the state before it: `SaleWritten` holds
   * of the lists, what is left of the candidates `fifo` is exactly their FIFO
   * remainder, every lot that was not a candidate is untouched, and the
   * selling account holds the trade's quantity fewer units.
   */
  twostate predicate SaleMade(holdings: seq<Lot>, sellHistory: seq<SellEntry>, new holdings': seq<Lot>,
                              sellHistory': seq<SellEntry>, fifo: seq<Lot>, consumed: nat, sale: Sale)
    reads holdings, holdings', fifo
  {
    var before := old(Snapshot(fifo));
    && SaleWritten(holdings, sellHistory, holdings', sellHistory', fifo, consumed, before, sale)
    && Snapshot(fifo[consumed..]) == FifoRest(before, sale.trade.quantity)
    && (forall l :: l in holdings && l !in fifo ==> unchanged(l))
    && UnitsSold(old(Snapshot(holdings)), Snapshot(holdings'), sale.trade)
  }

  /** The value-level part of `Security.Valid`, over a snapshot of the lots. */
  ghost predicate Ledger(lots: seq<Holding>, buys: seq<BuyEntry>, sells: seq<SellEntry>)
  {
    && NonZeroLots(lots)
    && SortedBy(buys, BuyDate)
    && SortedBy(sells, SellDate)
    && Conserved(lots, buys, sells)
  }

  /** See `Security.Valid`. */
  ghost predicate LedgerValid(lots: seq<Lot>, buys: seq<BuyEntry>, sells: seq<SellEntry>)
    reads lots
  {
    Distinct(lots) && Ledger(Snapshot(lots), buys, sells)
  }

  /** The ledger of one security, as stored under its symbol. */
  class Security {
    const symbol: string
    var holdings: seq<Lot>
    var buyHistory: seq<BuyEntry>
    var sellHistory: seq<SellEntry>

    /**
     * Every lot is listed once, none is empty (zero-quantity trades are refused
     * and a partial sale leaves a positive remainder), both histories are in
     * date order, and every account holds in its lots exactly what its buy
     * entries bought less what its sell entries sold.
     */
    ghost predicate Valid()
      reads this, holdings
    {
      LedgerValid(holdings, buyHistory, sellHistory)
    }

    constructor (symbol: string)
      ensures Valid()
      ensures this.symbol == symbol && holdings == [] && buyHistory == [] && sellHistory == []
    {
      this.symbol := symbol;
      holdings, buyHistory, sellHistory := [], [], [];
    }

    /**
     * `buyTrade`: a new lot is appended and its entry is merged into the buy
     * history by date; the lots already held and the sell history are untouched.
     */
    method BuyTrade(trade: TradeData, gstPercent: real, tradeId: string) returns (lot: Lot)
      requires Valid()
      requires trade.quantity != 0.0
      modifies this
      ensures Valid()
      ensures fresh(lot) && lot.Value() == NewHolding(trade, gstPercent)
      ensures holdings == old(holdings) + [lot]
      ensures Snapshot(old(holdings)) == old(Snapshot(holdings))
      ensures multiset(buyHistory) == multiset(old(buyHistory)) + multiset{BuyRecord(tradeId, lot.Value())}
      ensures sellHistory == old(sellHistory)
      ensures forall a :: AccountUnits(Snapshot(holdings), a)
                == old(AccountUnits(Snapshot(holdings), a)) + (if a == trade.accountId then trade.quantity else 0.0)
    {
      var h := NewHolding(trade, gstPercent);
      lot := new Lot(h);
      holdings := holdings + [lot];
      buyHistory := SortByKey(buyHistory + [BuyRecord(tradeId, h)], BuyDate);
      assert Snapshot(holdings) == old(Snapshot(holdings)) + [h];
      forall a ensures AccountUnits(Snapshot(holdings), a)
                == old(AccountUnits(Snapshot(holdings), a)) + (if a == trade.accountId then trade.quantity else 0.0)
      {
        AccountUnitsAppend(old(Snapshot(holdings)), [h], a);
      }
      BoughtSorted(old(buyHistory), buyHistory, BuyRecord(tradeId, h));
    }

    /**
     * `sellTrade`: the account's lots bought on or before the sell date are
     * taken oldest first (`fifo`). When they hold fewer units than the trade
     * sells, the sale is refused and nothing changes. Otherwise the sell history
     * gains exactly the FIFO entries of those lots and is re-sorted by date, the
     * first `consumed` lots are gone from the holdings, what is left of the
     * candidates is exactly the FIFO remainder, and every other lot is untouched.
     */
    method SellTrade(trade: TradeData, gstPercent: real, tradeId: string)
      returns (r: Outcome<TradeError>, ghost fifo: seq<Lot>, ghost consumed: nat)
      requires Valid()
      modifies this, holdings
      ensures Valid()
      ensures old(allocated(fifo))
      ensures buyHistory == old(buyHistory)
      ensures IsFifo(fifo, old(holdings), trade.accountId, trade.date)
      ensures r.Fail? <==> old(Units(Eligible(holdings, trade.accountId, trade.date))) < trade.quantity
      ensures r.Fail? ==>
        && r.error == InsufficientQuantity(trade.quantity, old(Units(Eligible(holdings, trade.accountId, trade.date))))
        && unchanged(this)
        && forall l :: l in holdings ==> unchanged(l)
      ensures r.Pass? ==>
        SaleMade(old(holdings), old(sellHistory), holdings, sellHistory, fifo, consumed,
                 Sale(trade, tradeId, SellGst(trade, gstPercent)))
    {
      var holdings', sellHistory';
      r, holdings', sellHistory', fifo, consumed := SellLots(holdings, sellHistory, trade, gstPercent, tradeId, buyHistory);
      ghost var now := Snapshot(holdings');
      holdings, sellHistory := holdings', sellHistory';
      forall i | 0 <= i < |holdings| ensures Snapshot(holdings)[i] == now[i] {
        assert holdings[i] in holdings';
      }
      assert Snapshot(holdings) == now;
    }
  }

  /**
   * `availableUnits`: the units `accountId` holds in the security stored under
   * `symbol`, and an error when there is no such security.
   */
  method AvailableUnits(securities: map<string, Security>, symbol: string, accountId: string)
    returns (r: Result<real, TradeError>)
    ensures symbol !in securities <==> r == Err(NoSecurityData(symbol))
    ensures symbol in securities ==>
      r == Ok(Sum(Filter(Snapshot(securities[symbol].holdings), OfAccount(accountId)), Quantity))
  {
    if symbol !in securities {
      return Err(NoSecurityData(symbol));
    }
    var security := securities[symbol];
    r := Ok(AccountUnits(Snapshot(security.holdings), accountId));
  }

  /**
   * `addTrade`: a zero quantity, an unknown symbol and an unreadable GST
   * setting (`None`, for NaN) are refused in that order and change nothing;
   * otherwise the trade is a buy or a sell on the security stored under its
   * symbol, with every promise of `Security.BuyTrade` or `Security.SellTrade`,
   * and every other security is untouched. `fifo` and `consumed` are the
   * sale's candidates and how many of them it used up.
   */
  method AddTrade(securities: map<string, Security>, gstSetting: Option<real>, data: TradeData, tradeId: string)
    returns (r: Outcome<TradeError>, ghost fifo: seq<Lot>, ghost consumed: nat)
    requires data.symbol in securities ==> securities[data.symbol].Valid()
    modifies securities.Values
    modifies if data.symbol in securities then securities[data.symbol].holdings else []
    ensures data.quantity == 0.0 ==> r == Fail(QuantityZero)
    ensures data.quantity != 0.0 && data.symbol !in securities ==> r == Fail(UnknownSymbol(data.symbol))
    ensures data.quantity != 0.0 && data.symbol in securities && gstSetting.None? ==> r == Fail(GstNotANumber)
    ensures data.symbol in securities ==> securities[data.symbol].Valid()
    ensures forall s :: s in securities.Values && (data.symbol !in securities || s != securities[data.symbol]) ==>
      unchanged(s)
    ensures data.quantity != 0.0 && data.symbol in securities && gstSetting.Some? && data.kind == Buy ==>
      var s := securities[data.symbol];
      var h := NewHolding(data, gstSetting.value);
      && r == Pass
      && |s.holdings| == old(|s.holdings|) + 1
      && s.holdings[..old(|s.holdings|)] == old(s.holdings)
      && s.holdings[old(|s.holdings|)].Value() == h
      && Snapshot(old(s.holdings)) == old(Snapshot(s.holdings))
      && multiset(s.buyHistory) == multiset(old(s.buyHistory)) + multiset{BuyRecord(tradeId, h)}
      && s.sellHistory == old(s.sellHistory)
      && forall a :: AccountUnits(Snapshot(s.holdings), a)
           == old(AccountUnits(Snapshot(s.holdings), a)) + (if a == data.accountId then data.quantity else 0.0)
    ensures data.quantity != 0.0 && data.symbol in securities && gstSetting.Some? && data.kind == Sell ==>
      var s := securities[data.symbol];
      && (r.Fail? <==> old(Units(Eligible(s.holdings, data.accountId, data.date))) < data.quantity)
      && old(allocated(fifo))
      && s.buyHistory == old(s.buyHistory)
      && IsFifo(fifo, old(s.holdings), data.accountId, data.date)
    ensures data.quantity != 0.0 && data.symbol in securities && gstSetting.Some? && data.kind == Sell && r.Pass? ==>
      var s := securities[data.symbol];
      SaleMade(old(s.holdings), old(s.sellHistory), s.holdings, s.sellHistory, fifo, consumed,
               Sale(data, tradeId, SellGst(data, gstSetting.value)))
    ensures r.Fail? && data.symbol in securities ==>
      var s := securities[data.symbol];
      unchanged(s) && forall l :: l in s.holdings ==> unchanged(l)
  {
    fifo, consumed := [], 0;
    if data.quantity == 0.0 {
      return Fail(QuantityZero), fifo, consumed;
    }
    if data.symbol !in securities {
      return Fail(UnknownSymbol(data.symbol)), fifo, consumed;
    }
    var security := securities[data.symbol];
    if gstSetting.None? {
      return Fail(GstNotANumber), fifo, consumed;
    }
    var gstPercent := gstSetting.value;
    if data.kind == Buy {
      var lot := security.BuyTrade(data, gstPercent, tradeId);
      r := Pass;
    } else {
      r, fifo, consumed := security.SellTrade(data, gstPercent, tradeId);
    }
  }

  /**
   * The body of `sellTrade` on the security's holdings list and sell history,
   * which it returns: see `Security.SellTrade`.
   */
  method SellLots(holdings: seq<Lot>, sellHistory: seq<SellEntry>, trade: TradeData, gstPercent: real, tradeId: string,
                  ghost buyHistory: seq<BuyEntry>)
    returns (r: Outcome<TradeError>, holdings': seq<Lot>, sellHistory': seq<SellEntry>,
             ghost fifo: seq<Lot>, ghost consumed: nat)
    requires LedgerValid(holdings, buyHistory, sellHistory)
    modifies holdings
    ensures LedgerValid(holdings', buyHistory, sellHistory')
    ensures old(allocated(fifo))
    ensures IsFifo(fifo, holdings, trade.accountId, trade.date)
    ensures r.Fail? <==> old(Units(Eligible(holdings, trade.accountId, trade.date))) < trade.quantity
    ensures r.Fail? ==>
      && r.error == InsufficientQuantity(trade.quantity, old(Units(Eligible(holdings, trade.accountId, trade.date))))
      && holdings' == holdings && sellHistory' == sellHistory
      && forall l :: l in holdings ==> unchanged(l)
    ensures r.Pass? ==>
      SaleMade(holdings, sellHistory, holdings', sellHistory', fifo, consumed,
               Sale(trade, tradeId, SellGst(trade, gstPercent)))
  {
    ghost var owned := Units(Eligible(holdings, trade.accountId, trade.date));
    var candidates := Eligible(holdings, trade.accountId, trade.date);
    candidates := SortByKey(candidates, LotDate);
    fifo := candidates;
    SortedCandidates(holdings, trade.accountId, trade.date, fifo);
    assert forall i :: 0 <= i < |fifo| ==> fifo[i] in holdings;
    assert old(allocated(fifo));
    consumed := 0;
    var ownedUnits := Units(candidates);
    assert ownedUnits == owned;
    if ownedUnits < trade.quantity {
      r := Fail(InsufficientQuantity(trade.quantity, ownedUnits));
      holdings', sellHistory' := holdings, sellHistory;
      return;
    }

    LotsNonZero(holdings);
    LotsNonZeroSnapshot(fifo);
    var sale := Sale(trade, tradeId, SellGst(trade, gstPercent));
    ghost var before := Snapshot(fifo);
    ghost var others := Exclude(holdings, Elements(fifo));
    LotsUnitsSplit(holdings, others, fifo);
    holdings', sellHistory', consumed := SellOldestFirst(candidates, sale, holdings, sellHistory, Snapshot(fifo));
    FilterDistinct(holdings, NotIn(Elements(fifo[..consumed])));
    LotsNonZeroSnapshot(holdings');
    RestUnitsSplit(holdings, fifo, consumed, holdings', others);
    forall i | 0 <= i < |others| ensures Snapshot(others)[i] == old(Snapshot(others))[i] {
      ExcludeKeeps(holdings, Elements(fifo), others[i]);
    }
    assert Snapshot(others) == old(Snapshot(others));
    FifoRestUnits(before, sale);
    sellHistory' := SortByKey(sellHistory', SellDate);
    SaleConserves(old(Snapshot(holdings)), Snapshot(holdings'), buyHistory, sellHistory, sellHistory', before, sale);
    r := Pass;
  }

  /**
   * The `while (remainingQuantity > 0)` loop of `sellTrade`, on the security's
   * holdings list and sell history: `fifo` holds the candidate lots oldest
   * first, and each pass writes the entry of the oldest lot left, then splices
   * that lot out of the holdings when it was sold in full or shrinks it in place
   * when it was sold in part. A pass that sells a lot in part leaves nothing to
   * sell, so it is the last one: `SellWholeLots` runs the passes that sell
   * whole lots and the partial pass, when there is one, follows it.
   * `before` holds the candidates' values when the loop starts.
   */
  method SellOldestFirst(fifo: seq<Lot>, sale: Sale, holdings: seq<Lot>, sellHistory: seq<SellEntry>,
                         ghost before: seq<Holding>)
    returns (holdings': seq<Lot>, sellHistory': seq<SellEntry>, ghost consumed: nat)
    requires Distinct(fifo) && Distinct(holdings)
    requires Elements(fifo) <= Elements(holdings)
    requires AllNonZero(holdings)
    requires before == Snapshot(fifo) && NonZeroLots(before)
    requires sale.trade.quantity <= Sum(before, Quantity)
    modifies fifo
    ensures consumed <= |fifo|
    ensures sellHistory' == sellHistory + FifoEntries(before, sale.trade.quantity, sale)
    ensures holdings' == Exclude(holdings, Elements(fifo[..consumed]))
    ensures Snapshot(fifo[consumed..]) == FifoRest(before, sale.trade.quantity)
    ensures AllNonZero(holdings')
  {
    var sold, remaining;
    holdings', sellHistory', sold, remaining := SellWholeLots(fifo, sale, holdings, sellHistory, before);
    consumed := sold;
    ExcludedNonZero(holdings, Elements(fifo[..consumed]));
    if remaining > 0.0 {
      var holding := fifo[sold];
      var lot := holding.Value();
      assert lot == before[consumed];
      var quantitySold := Min(lot.quantity, remaining);
      PartLotSold(sellHistory, before, sale, consumed, remaining, sellHistory');
      sellHistory' := sellHistory' + [SaleEntry(lot, quantitySold, sale)];
      DistinctSplit(fifo, consumed);
      ghost var untouched := Snapshot(fifo[consumed + 1..]);
      SnapshotSlice(fifo, consumed + 1);
      holding.SellPart(quantitySold);
      assert Snapshot(fifo[consumed + 1..]) == untouched;
      assert fifo[consumed..] == [holding] + fifo[consumed + 1..];
      SnapshotCons(holding, fifo[consumed + 1..]);
    } else {
      NoLotSold(sellHistory, before, sale, consumed, remaining, sellHistory');
      SnapshotSlice(fifo, consumed);
    }
  }

  /**
   * The passes of the sell loop that sell a whole lot: each writes the entry of
   * the oldest candidate left and splices that lot out of the holdings. They
   * stop when nothing is left to sell or the next lot holds more than is left.
   */
  method SellWholeLots(fifo: seq<Lot>, sale: Sale, holdings: seq<Lot>, sellHistory: seq<SellEntry>,
                       ghost before: seq<Holding>)
    returns (holdings': seq<Lot>, sellHistory': seq<SellEntry>, consumed: nat, remaining: real)
    requires Distinct(fifo) && Distinct(holdings)
    requires Elements(fifo) <= Elements(holdings)
    requires before == Snapshot(fifo) && NonZeroLots(before)
    requires sale.trade.quantity <= Sum(before, Quantity)
    ensures consumed <= |fifo|
    ensures WholeLotsSold(sellHistory, before, sale, consumed, remaining, sellHistory')
    ensures remaining > 0.0 ==> Min(before[consumed].quantity, remaining) != before[consumed].quantity
    ensures holdings' == Exclude(holdings, Elements(fifo[..consumed]))
  {
    consumed := 0;
    ExcludeNothing(holdings, Elements(fifo[..0]));
    holdings', sellHistory' := holdings, sellHistory;
    var candidates := fifo;
    remaining := sale.trade.quantity;
    WholeLotsBegin(sellHistory, before, sale);
    while remaining > 0.0 && Min(candidates[0].quantity, remaining) == candidates[0].quantity
      invariant consumed <= |fifo| && candidates == fifo[consumed..]
      invariant WholeLotsSold(sellHistory, before, sale, consumed, remaining, sellHistory')
      invariant holdings' == Exclude(holdings, Elements(fifo[..consumed]))
      decreases |candidates|
    {
      var holding := candidates[0];
      var lot := holding.Value();
      assert lot == before[consumed];
      var quantitySold := Min(lot.quantity, remaining);
      WholeLotStep(sellHistory, before, sale, consumed, remaining, sellHistory');
      sellHistory' := sellHistory' + [SaleEntry(lot, quantitySold, sale)];
      DistinctSplit(fifo, consumed);
      ExcludeKeeps(holdings, Elements(fifo[..consumed]), holding);
      var index := IndexOf(holdings', holding);
      ExcludeOneMore(holdings, Elements(fifo[..consumed]), holdings', index);
      if index != -1 {
        holdings' := holdings'[..index] + holdings'[index + 1..];
      }
      ElementsSnoc(fifo, consumed);
      remaining := remaining - quantitySold;
      candidates := candidates[1..];
      consumed := consumed + 1;
    }
    assert remaining > 0.0 ==> fifo[consumed].Value() == before[consumed];
  }

  /**
   * Where the sell loop stands after selling whole lots: the first `consumed`
   * candidates are sold, the sell history has gone from `history` to `written`,
   * and `remaining` units are still to be sold out of the rest.
   */
  ghost predicate WholeLotsSold(history: seq<SellEntry>, before: seq<Holding>, sale: Sale, consumed: nat,
                                remaining: real, written: seq<SellEntry>)
  {
    && NonZeroLots(before) && consumed <= |before|
    && (remaining > 0.0 ==>
          sale.trade.quantity > 0.0 && consumed < |before| && remaining <= Sum(before[consumed..], Quantity))
    && NonZeroLots(before[consumed..])
    && history + FifoEntries(before, sale.trade.quantity, sale)
         == written + FifoEntries(before[consumed..], remaining, sale)
    && FifoRest(before, sale.trade.quantity) == FifoRest(before[consumed..], remaining)
  }

  lemma WholeLotsBegin(history: seq<SellEntry>, before: seq<Holding>, sale: Sale)
    requires NonZeroLots(before) && sale.trade.quantity <= Sum(before, Quantity)
    ensures WholeLotsSold(history, before, sale, 0, sale.trade.quantity, history)
  {
    assert before[0..] == before;
  }

  /** A pass that sells the oldest lot left in full. */
  lemma WholeLotStep(history: seq<SellEntry>, before: seq<Holding>, sale: Sale, consumed: nat,
                     remaining: real, written: seq<SellEntry>)
    requires WholeLotsSold(history, before, sale, consumed, remaining, written) && remaining > 0.0
    requires Min(before[consumed].quantity, remaining) == before[consumed].quantity
    ensures var lot := before[consumed];
      WholeLotsSold(history, before, sale, consumed + 1, remaining - lot.quantity,
                    written + [SaleEntry(lot, lot.quantity, sale)])
  {
    var lot := before[consumed];
    var pending := before[consumed..];
    assert pending[1..] == before[consumed + 1..];
    var tail := FifoEntries(pending[1..], remaining - lot.quantity, sale);
    assert FifoEntries(pending, remaining, sale) == [SaleEntry(lot, lot.quantity, sale)] + tail;
    assert written + ([SaleEntry(lot, lot.quantity, sale)] + tail)
        == (written + [SaleEntry(lot, lot.quantity, sale)]) + tail;
    assert Sum(pending, Quantity) == lot.quantity + Sum(pending[1..], Quantity);
    assert FifoRest(pending, remaining) == FifoRest(pending[1..], remaining - lot.quantity);
  }

  /** The last pass, which sells the oldest lot left in part. */
  lemma PartLotSold(history: seq<SellEntry>, before: seq<Holding>, sale: Sale, consumed: nat,
                    remaining: real, written: seq<SellEntry>)
    requires WholeLotsSold(history, before, sale, consumed, remaining, written) && remaining > 0.0
    requires Min(before[consumed].quantity, remaining) != before[consumed].quantity
    ensures var lot := before[consumed];
      && written + [SaleEntry(lot, remaining, sale)] == history + FifoEntries(before, sale.trade.quantity, sale)
      && FifoRest(before, sale.trade.quantity) == [Shrink(lot, remaining)] + before[consumed + 1..]
      && Shrink(lot, remaining).quantity != 0.0
  {
    var pending := before[consumed..];
    assert pending[1..] == before[consumed + 1..];
    assert FifoEntries(pending[1..], 0.0, sale) == [];
  }

  /** The loop ran out of units to sell. */
  lemma NoLotSold(history: seq<SellEntry>, before: seq<Holding>, sale: Sale, consumed: nat,
                  remaining: real, written: seq<SellEntry>)
    requires WholeLotsSold(history, before, sale, consumed, remaining, written) && remaining <= 0.0
    ensures written == history + FifoEntries(before, sale.trade.quantity, sale)
    ensures FifoRest(before, sale.trade.quantity) == before[consumed..]
  {
    assert written + [] == written;
  }

  /**
   * The sale's candidates, sorted: distinct lots of the ledger, non-empty when
   * the ledger's are, holding as many units as before the sort.
   */
  lemma SortedCandidates(lots: seq<Lot>, accountId: string, date: int, fifo: seq<Lot>)
    requires Distinct(lots)
    requires multiset(fifo) == multiset(Eligible(lots, accountId, date))
    ensures Distinct(fifo)
    ensures forall l :: l in fifo ==> l in lots
    ensures Elements(fifo) <= Elements(lots)
    ensures forall i :: 0 <= i < |fifo| ==> fifo[i].accountId == accountId && fifo[i].date <= date
    ensures AllNonZero(lots) ==> AllNonZero(fifo)
    ensures Units(fifo) == Units(Eligible(lots, accountId, date))
  {
    var eligible := Eligible(lots, accountId, date);
    FilterDistinct(lots, IsCandidate(accountId, date));
    PermutationDistinct(eligible, fifo);
    SnapshotPermutation(eligible, fifo);
    SumPermutation(Snapshot(eligible), Snapshot(fifo), Quantity);
    forall l | l in fifo ensures l in lots && l.accountId == accountId && l.date <= date {
      assert l in multiset(eligible);
      FilterMembers(lots, IsCandidate(accountId, date), l);
    }
  }

  /** Splicing the lot at `index` out of `kept = Exclude(s, gone)` excludes one more lot. */
  lemma ExcludeOneMore(s: seq<Lot>, gone: set<Lot>, kept: seq<Lot>, index: int)
    requires Distinct(s) && kept == Exclude(s, gone) && 0 <= index < |kept|
    ensures kept[..index] + kept[index + 1..] == Exclude(s, gone + {kept[index]})
  {
    FilterDistinct(s, NotIn(gone));
    RemoveAtIsFilter(kept, index, NotIn({kept[index]}));
    FilterFilter(s, NotIn(gone), NotIn({kept[index]}), NotIn(gone + {kept[index]}));
  }

  /** The `i`th of distinct lots is neither among those before it nor among those after it. */
  lemma DistinctSplit(lots: seq<Lot>, i: nat)
    requires Distinct(lots) && i < |lots|
    ensures lots[i] in Elements(lots)
    ensures lots[i] !in Elements(lots[..i]) && lots[i] !in lots[i + 1..]
  {
  }

  /** Lots left out of non-empty lots are non-empty. */
  lemma ExcludedNonZero(s: seq<Lot>, gone: set<Lot>)
    requires AllNonZero(s)
    ensures AllNonZero(Exclude(s, gone))
  {
    forall l | l in Exclude(s, gone) ensures l.quantity != 0.0 {
      ExcludeKeeps(s, gone, l);
    }
  }

  lemma ElementsSnoc(lots: seq<Lot>, k: nat)
    requires k < |lots|
    ensures Elements(lots[..k + 1]) == Elements(lots[..k]) + {lots[k]}
  {
    assert lots[..k + 1] == lots[..k] + [lots[k]];
  }

  lemma SnapshotCons(l: Lot, lots: seq<Lot>)
    ensures Snapshot([l] + lots) == [l.Value()] + Snapshot(lots)
  {
  }

  lemma SnapshotSlice(lots: seq<Lot>, k: nat)
    requires k <= |lots|
    ensures Snapshot(lots[k..]) == Snapshot(lots)[k..]
  {
  }

  lemma ExcludeNothing(s: seq<Lot>, gone: set<Lot>)
    requires gone == {}
    ensures Exclude(s, gone) == s
  {
    FilterKeepsAll(s, NotIn(gone));
  }

  lemma ExcludeKeeps(s: seq<Lot>, gone: set<Lot>, x: Lot)
    ensures x in Exclude(s, gone) <==> x in s && x !in gone
  {
    FilterMembers(s, NotIn(gone), x);
  }

  /** No lot is empty. */
  ghost predicate AllNonZero(lots: seq<Lot>)
    reads lots
  {
    forall l :: l in lots ==> l.quantity != 0.0
  }

  lemma LotsNonZero(lots: seq<Lot>)
    requires NonZeroLots(Snapshot(lots))
    ensures AllNonZero(lots)
  {
    forall l | l in lots ensures l.quantity != 0.0 {
      var j :| 0 <= j < |lots| && lots[j] == l;
      assert Snapshot(lots)[j].quantity != 0.0;
    }
  }

  lemma LotsNonZeroSnapshot(lots: seq<Lot>)
    requires AllNonZero(lots)
    ensures NonZeroLots(Snapshot(lots))
  {
    forall j | 0 <= j < |lots| ensures Snapshot(lots)[j].quantity != 0.0 {
      assert lots[j] in lots;
    }
  }

  /** Reordering lots reorders their values. */
  lemma {:induction false} SnapshotPermutation(a: seq<Lot>, b: seq<Lot>)
    requires multiset(a) == multiset(b)
    ensures multiset(Snapshot(a)) == multiset(Snapshot(b))
    decreases |a|
  {
    if a == [] {
      assert |b| == |multiset(b)| == 0;
    } else {
      var x := a[0];
      assert x in multiset(b);
      var j :| 0 <= j < |b| && b[j] == x;
      var b' := b[..j] + b[j + 1..];
      assert b == b[..j] + [x] + b[j + 1..];
      assert multiset(b') == multiset(b) - multiset{x};
      assert a[..0] + a[1..] == a[1..];
      assert a == [x] + a[1..];
      assert multiset(a[1..]) == multiset(a) - multiset{x};
      SnapshotPermutation(a[1..], b');
      SnapshotRemove(a, 0);
      SnapshotRemove(b, j);
    }
  }

  lemma SnapshotRemove(s: seq<Lot>, j: nat)
    requires j < |s|
    ensures multiset(Snapshot(s)) == multiset(Snapshot(s[..j] + s[j + 1..])) + multiset{s[j].Value()}
  {
    var t := Snapshot(s);
    assert t == t[..j] + [t[j]] + t[j + 1..];
    assert Snapshot(s[..j] + s[j + 1..]) == t[..j] + t[j + 1..];
  }


  lemma AccountUnitsAppend(a: seq<Holding>, b: seq<Holding>, accountId: string)
    ensures AccountUnits(a + b, accountId) == AccountUnits(a, accountId) + AccountUnits(b, accountId)
    ensures |b| == 1 ==> AccountUnits(b, accountId) == if b[0].accountId == accountId then b[0].quantity else 0.0
  {
    FilterAppend(a, b, OfAccount(accountId));
    SumAppend(Filter(a, OfAccount(accountId)), Filter(b, OfAccount(accountId)), Quantity);
    if |b| == 1 {
      assert b[1..] == [];
    }
  }

  /** A buy entry merged into the buy history adds its quantity to its account's purchases. */
  lemma BoughtSorted(history: seq<BuyEntry>, sorted: seq<BuyEntry>, e: BuyEntry)
    requires multiset(sorted) == multiset(history + [e])
    ensures forall a :: Bought(sorted, a) == Bought(history, a) + (if e.accountId == a then e.quantity else 0.0)
  {
    forall a ensures Bought(sorted, a) == Bought(history, a) + (if e.accountId == a then e.quantity else 0.0) {
      FilterSumPermutation(sorted, history + [e], BuyOfAccount(a), BoughtQuantity);
      FilterSumSnoc(history, e, BuyOfAccount(a), BoughtQuantity);
    }
  }

  /**
   * A sale keeps every account's units equal to what it bought less what it
   * sold: the selling account's lots lose the trade's quantity and its FIFO
   * entries sell exactly that quantity.
   */
  lemma SaleConserves(hs: seq<Holding>, hs': seq<Holding>, buys: seq<BuyEntry>, sells: seq<SellEntry>,
                      sells': seq<SellEntry>, before: seq<Holding>, sale: Sale)
    requires Conserved(hs, buys, sells)
    requires NonZeroLots(before)
    requires sale.trade.quantity > 0.0 ==> sale.trade.quantity <= Sum(before, Quantity)
    requires multiset(sells') == multiset(sells + FifoEntries(before, sale.trade.quantity, sale))
    requires UnitsSold(hs, hs', sale.trade)
    ensures Conserved(hs', buys, sells')
  {
    var es := FifoEntries(before, sale.trade.quantity, sale);
    FifoEntriesFollowLots(before, sale.trade.quantity, sale);
    if sale.trade.quantity > 0.0 {
      SaleSellsTradeQuantity(before, sale);
    }
    forall a ensures AccountUnits(hs', a) == Bought(buys, a) - Sold(sells', a) {
      FilterSumPermutation(sells', sells + es, SaleOfAccount(a), SoldQuantity);
      FilterSumAppend(sells, es, SaleOfAccount(a), SoldQuantity);
      FilterSumUniform(es, SaleOfAccount(a), SoldQuantity, a == sale.trade.accountId);
    }
  }

  /** Lots of one account, all of them: every other account holds none of their units. */
  lemma AccountUnitsOfOne(hs: seq<Holding>, accountId: string)
    requires forall i :: 0 <= i < |hs| ==> hs[i].accountId == accountId
    ensures forall a :: AccountUnits(hs, a) == if a == accountId then Sum(hs, Quantity) else 0.0
  {
    forall a ensures AccountUnits(hs, a) == if a == accountId then Sum(hs, Quantity) else 0.0 {
      FilterSumUniform(hs, OfAccount(a), Quantity, a == accountId);
    }
  }

  /**
   * The candidates of a sale all belong to the selling account; what the sale
   * leaves of them holds the trade's quantity fewer of that account's units.
   */
  lemma FifoRestUnits(before: seq<Holding>, sale: Sale)
    requires NonZeroLots(before)
    requires forall i :: 0 <= i < |before| ==> before[i].accountId == sale.trade.accountId
    requires sale.trade.quantity > 0.0 ==> sale.trade.quantity <= Sum(before, Quantity)
    ensures forall a :: AccountUnits(FifoRest(before, sale.trade.quantity), a)
                          == AccountUnits(before, a) - SoldBy(sale.trade, a)
  {
    var rest := FifoRest(before, sale.trade.quantity);
    FifoRestKeepsAccount(before, sale.trade.quantity, sale.trade.accountId);
    AccountUnitsOfOne(before, sale.trade.accountId);
    AccountUnitsOfOne(rest, sale.trade.accountId);
    if sale.trade.quantity > 0.0 {
      SaleSellsTradeQuantity(before, sale);
    }
  }

  /** What a sale leaves of one account's lots still belongs to that account. */
  lemma {:induction false} FifoRestKeepsAccount(lots: seq<Holding>, remaining: real, accountId: string)
    requires NonZeroLots(lots)
    requires forall i :: 0 <= i < |lots| ==> lots[i].accountId == accountId
    ensures forall i :: 0 <= i < |FifoRest(lots, remaining)| ==> FifoRest(lots, remaining)[i].accountId == accountId
  {
    if remaining > 0.0 && lots != [] {
      var sold := Min(lots[0].quantity, remaining);
      if sold == lots[0].quantity {
        FifoRestKeepsAccount(lots[1..], remaining - sold, accountId);
      }
    }
  }

  /** Lots filed under two rearranged parts hold, per account, the units of both parts together. */
  lemma LotsUnitsSplit(s: seq<Lot>, t1: seq<Lot>, t2: seq<Lot>)
    requires Distinct(s) && Distinct(t2) && Elements(t2) <= Elements(s) && t1 == Exclude(s, Elements(t2))
    ensures forall a :: AccountUnits(Snapshot(s), a) == AccountUnits(Snapshot(t1), a) + AccountUnits(Snapshot(t2), a)
  {
    ExcludeSplit(s, t2);
    assert multiset(s) == multiset(t1 + t2);
    SnapshotPermutation(s, t1 + t2);
    assert Snapshot(t1 + t2) == Snapshot(t1) + Snapshot(t2);
    forall a ensures AccountUnits(Snapshot(s), a) == AccountUnits(Snapshot(t1), a) + AccountUnits(Snapshot(t2), a) {
      FilterSumPermutation(Snapshot(s), Snapshot(t1 + t2), OfAccount(a), Quantity);
      AccountUnitsAppend(Snapshot(t1), Snapshot(t2), a);
    }
  }

  /** The distinct lots of `s` are those not in `t` together with `t`, when `t` lists some of them once each. */
  lemma ExcludeSplit(s: seq<Lot>, t: seq<Lot>)
    requires Distinct(s) && Distinct(t) && Elements(t) <= Elements(s)
    ensures multiset(s) == multiset(Exclude(s, Elements(t))) + multiset(t)
  {
    var kept := InSet(Elements(t));
    FilterPartition(s, NotIn(Elements(t)), kept);
    FilterDistinct(s, kept);
    forall l ensures l in Filter(s, kept) <==> l in t {
      FilterMembers(s, kept, l);
      assert l in t <==> l in Elements(t);
      assert l in Elements(s) <==> l in s;
    }
    SameElements(Filter(s, kept), t);
  }

  function InSet(lots: set<Lot>): Lot -> bool {
    (l: Lot) => l in lots
  }

  /**
   * After a sale, the holdings are the lots that were never candidates
   * together with the candidates left over, `fifo[consumed..]`.
   */
  lemma RestUnitsSplit(holdings: seq<Lot>, fifo: seq<Lot>, consumed: nat, holdings': seq<Lot>, others: seq<Lot>)
    requires Distinct(holdings) && Distinct(fifo) && Elements(fifo) <= Elements(holdings) && consumed <= |fifo|
    requires holdings' == Exclude(holdings, Elements(fifo[..consumed]))
    requires others == Exclude(holdings, Elements(fifo))
    ensures forall a :: AccountUnits(Snapshot(holdings'), a)
                          == AccountUnits(Snapshot(others), a) + AccountUnits(Snapshot(fifo[consumed..]), a)
  {
    var gone := Elements(fifo[..consumed]);
    var rest := fifo[consumed..];
    assert fifo == fifo[..consumed] + rest;
    assert Elements(fifo) == gone + Elements(rest);
    FilterDistinct(holdings, NotIn(gone));
    forall l | l in rest ensures l in holdings' {
      var j :| 0 <= j < |rest| && rest[j] == l;
      assert l == fifo[consumed + j] && l in Elements(fifo);
      assert l !in gone;
      ExcludeKeeps(holdings, gone, l);
    }
    FilterFilter(holdings, NotIn(gone), NotIn(Elements(rest)), NotIn(Elements(fifo)));
    LotsUnitsSplit(holdings', others, rest);
  }
}

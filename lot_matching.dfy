/**
 * The arithmetic of a sell trade (electron/api/trades.ts, sellTrade): FIFO
 * consumption of the candidate lots, the proportional split of the buy and sell
 * fees, profit or loss, and the 50% CGT discount. Everything here is a function
 * of values; the class in module Trades runs the same steps in place and is
 * proved to produce exactly these entries and these remaining lots.
 */
module LotMatching {
  import opened Records
  import opened Sums

  datatype TradeKind = Buy | Sell

  datatype TradeData = TradeData(
    accountId: string,
    symbol: string,
    kind: TradeKind,
    date: int,
    quantity: real,
    price: real,
    brokerage: real)

  /** Length of the holding period, in days, after which a gain is discounted. */
  const DAYS_IN_YEAR: int := 365

  /** Stands for `dayjs(sell).diff(dayjs(buy), 'year', true) > 1` on day ordinals. */
  predicate HeldOverOneYear(buyDate: int, sellDate: int) {
    sellDate - buyDate > DAYS_IN_YEAR
  }

  function Min(a: real, b: real): real {
    if a < b then a else b
  }

  /** Every lot in the ledger has a non-zero quantity (zero-quantity trades are refused). */
  predicate NonZeroLots(lots: seq<Holding>) {
    forall i :: 0 <= i < |lots| ==> lots[i].quantity != 0.0
  }

  /** What one sell trade shares across all of its entries. */
  datatype Sale = Sale(trade: TradeData, tradeId: string, totalSellGst: real)

  function Brokerage(h: Holding): real { h.brokerage }
  function Gst(h: Holding): real { h.gst }

  function SoldQuantity(e: SellEntry): real { e.quantity }
  function AppliedBuyBrokerage(e: SellEntry): real { e.appliedBuyBrokerage }
  function AppliedBuyGst(e: SellEntry): real { e.appliedBuyGst }
  function AppliedSellBrokerage(e: SellEntry): real { e.appliedSellBrokerage }
  function AppliedSellGst(e: SellEntry): real { e.appliedSellGst }

  /** The part of `amount` that `part` of `whole` units carry. */
  function ShareOf(part: real, whole: real, amount: real): real
    requires whole != 0.0
  {
    part / whole * amount
  }

  /** The sell-history entry for selling `sold` units out of lot `h`. */
  function SaleEntry(h: Holding, sold: real, sale: Sale): SellEntry
    requires h.quantity != 0.0 && sale.trade.quantity != 0.0
  {
    var trade := sale.trade;
    var buyRatio := sold / h.quantity;
    var appliedBuyBrokerage := buyRatio * h.brokerage;
    var appliedSellBrokerage := ShareOf(sold, trade.quantity, trade.brokerage);
    var appliedBuyGst := buyRatio * h.gst;
    var appliedSellGst := ShareOf(sold, trade.quantity, sale.totalSellGst);
    var totalCost := sold * h.price + appliedBuyBrokerage + appliedBuyGst;
    var totalRevenue := sold * trade.price - appliedSellBrokerage - appliedSellGst;
    var profitOrLoss := totalRevenue - totalCost;
    var cgtDiscount := profitOrLoss > 0.0 && HeldOverOneYear(h.date, trade.date);
    var capitalGainOrLoss := if cgtDiscount then profitOrLoss / 2.0 else profitOrLoss;
    SellEntry(sale.tradeId, trade.accountId, h.date, trade.date, sold, h.price, trade.price,
              appliedBuyBrokerage, appliedSellBrokerage, appliedBuyGst, appliedSellGst,
              totalRevenue, profitOrLoss, capitalGainOrLoss, cgtDiscount)
  }

  /** Lot `h` after `sold` of its units were sold: quantity and fees shrink by the same ratio. */
  function Shrink(h: Holding, sold: real): Holding
    requires h.quantity != 0.0
  {
    var buyRatio := sold / h.quantity;
    h.(quantity := h.quantity - sold,
       brokerage := h.brokerage * (1.0 - buyRatio),
       gst := h.gst * (1.0 - buyRatio))
  }

  /** The entries written while `remaining` units are still to be sold out of `lots`, oldest first. */
  function FifoEntries(lots: seq<Holding>, remaining: real, sale: Sale): seq<SellEntry>
    requires NonZeroLots(lots)
    requires remaining > 0.0 ==> sale.trade.quantity > 0.0
  {
    if remaining <= 0.0 || lots == [] then []
    else
      var sold := Min(lots[0].quantity, remaining);
      [SaleEntry(lots[0], sold, sale)] + FifoEntries(lots[1..], remaining - sold, sale)
  }

  /**
   * The candidate lots left once `remaining` units were sold: a fully consumed lot
   * is gone, a partly consumed one is shrunk in place, the rest are untouched.
   */
  function FifoRest(lots: seq<Holding>, remaining: real): seq<Holding>
    requires NonZeroLots(lots)
  {
    if remaining <= 0.0 || lots == [] then lots
    else
      var sold := Min(lots[0].quantity, remaining);
      if sold == lots[0].quantity then FifoRest(lots[1..], remaining - sold)
      else [Shrink(lots[0], sold)] + lots[1..]
  }

  /** The accounting identities and the CGT rule every sell-history entry obeys. */
  predicate SaleRules(e: SellEntry) {
    && e.total == e.quantity * e.sellPrice - e.appliedSellBrokerage - e.appliedSellGst
    && e.profitOrLoss == e.total - (e.quantity * e.buyPrice + e.appliedBuyBrokerage + e.appliedBuyGst)
    && (e.cgtDiscount <==> e.profitOrLoss > 0.0 && HeldOverOneYear(e.buyDate, e.sellDate))
    && e.capitalGainOrLoss == (if e.cgtDiscount then e.profitOrLoss / 2.0 else e.profitOrLoss)
  }

  // ---------------------------------------------------------------------------
  // Conservation of units

  /**
   * When the lots hold at least `remaining` units, the entries sell exactly
   * `remaining` units and the candidate lots lose exactly that many.
   */
  lemma {:induction false} FifoConservesUnits(lots: seq<Holding>, remaining: real, sale: Sale)
    requires NonZeroLots(lots)
    requires remaining > 0.0 ==> sale.trade.quantity > 0.0
    requires 0.0 <= remaining <= Sum(lots, Quantity)
    ensures Sum(FifoEntries(lots, remaining, sale), SoldQuantity) == remaining
    ensures Sum(FifoRest(lots, remaining), Quantity) == Sum(lots, Quantity) - remaining
  {
    if remaining <= 0.0 || lots == [] {
    } else {
      var sold := Min(lots[0].quantity, remaining);
      if sold == lots[0].quantity {
        FifoConservesUnits(lots[1..], remaining - sold, sale);
      } else {
        var rest := [Shrink(lots[0], sold)] + lots[1..];
        assert rest[1..] == lots[1..];
        assert FifoEntries(lots[1..], remaining - sold, sale) == [];
      }
    }
  }

  /** Lemma FifoConservesUnits for a whole trade: the entries add up to the trade's quantity. */
  lemma SaleSellsTradeQuantity(lots: seq<Holding>, sale: Sale)
    requires NonZeroLots(lots)
    requires 0.0 < sale.trade.quantity <= Sum(lots, Quantity)
    ensures Sum(FifoEntries(lots, sale.trade.quantity, sale), SoldQuantity) == sale.trade.quantity
    ensures Sum(FifoRest(lots, sale.trade.quantity), Quantity) == Sum(lots, Quantity) - sale.trade.quantity
  {
    FifoConservesUnits(lots, sale.trade.quantity, sale);
  }

  // ---------------------------------------------------------------------------
  // FIFO order

  /** Entry i is written for lot i: oldest lot first, all sharing the trade's id, account and dates. */
  lemma {:induction false} FifoEntriesFollowLots(lots: seq<Holding>, remaining: real, sale: Sale)
    requires NonZeroLots(lots)
    requires remaining > 0.0 ==> sale.trade.quantity > 0.0
    ensures var es := FifoEntries(lots, remaining, sale);
      && |es| <= |lots|
      && forall i :: 0 <= i < |es| ==>
           && es[i].buyDate == lots[i].date
           && es[i].buyPrice == lots[i].price
           && es[i].tradeId == sale.tradeId
           && es[i].accountId == sale.trade.accountId
           && es[i].sellDate == sale.trade.date
           && es[i].sellPrice == sale.trade.price
  {
    if remaining <= 0.0 || lots == [] {
    } else {
      var sold := Min(lots[0].quantity, remaining);
      FifoEntriesFollowLots(lots[1..], remaining - sold, sale);
    }
  }

  /** Entry i sells min(lot i, what is still to be sold after lots 0..i-1). */
  predicate TakesMinimum(es: seq<SellEntry>, lots: seq<Holding>, remaining: real) {
    && |es| <= |lots|
    && forall i :: 0 <= i < |es| ==>
         es[i].quantity == Min(lots[i].quantity, remaining - Sum(lots[..i], Quantity))
  }

  lemma {:induction false} FifoTakesMinimum(lots: seq<Holding>, remaining: real, sale: Sale)
    requires NonZeroLots(lots)
    requires remaining > 0.0 ==> sale.trade.quantity > 0.0
    ensures TakesMinimum(FifoEntries(lots, remaining, sale), lots, remaining)
  {
    if remaining > 0.0 && lots != [] {
      var sold := Min(lots[0].quantity, remaining);
      var tail := FifoEntries(lots[1..], remaining - sold, sale);
      FifoTakesMinimum(lots[1..], remaining - sold, sale);
      var e := SaleEntry(lots[0], sold, sale);
      assert FifoEntries(lots, remaining, sale) == [e] + tail;
      TakesMinimumCons(e, tail, lots, remaining);
    } else {
      assert FifoEntries(lots, remaining, sale) == [];
    }
  }

  /** The step of FifoTakesMinimum: a later entry exists only when the first lot was consumed entirely. */
  lemma TakesMinimumCons(e: SellEntry, tail: seq<SellEntry>, lots: seq<Holding>, remaining: real)
    requires lots != [] && e.quantity == Min(lots[0].quantity, remaining)
    requires tail != [] ==> e.quantity == lots[0].quantity
    requires TakesMinimum(tail, lots[1..], remaining - e.quantity)
    ensures TakesMinimum([e] + tail, lots, remaining)
  {
    var es := [e] + tail;
    assert lots[..0] == [];
    forall i | 0 < i < |es|
      ensures es[i].quantity == Min(lots[i].quantity, remaining - Sum(lots[..i], Quantity))
    {
      assert es[i] == tail[i - 1];
      assert lots[..i][1..] == lots[1..][..i - 1];
    }
  }

  /** Every lot the entries reach but the last is consumed entirely. */
  lemma {:induction false} FifoConsumesWholeLots(lots: seq<Holding>, remaining: real, sale: Sale)
    requires NonZeroLots(lots)
    requires remaining > 0.0 ==> sale.trade.quantity > 0.0
    ensures var es := FifoEntries(lots, remaining, sale);
      && |es| <= |lots|
      && forall i :: 0 <= i < |es| - 1 ==> es[i].quantity == lots[i].quantity
  {
    if remaining > 0.0 && lots != [] {
      var sold := Min(lots[0].quantity, remaining);
      var es := FifoEntries(lots, remaining, sale);
      var tail := FifoEntries(lots[1..], remaining - sold, sale);
      FifoConsumesWholeLots(lots[1..], remaining - sold, sale);
      assert es == [SaleEntry(lots[0], sold, sale)] + tail;
      forall i | 0 <= i < |es| - 1 ensures es[i].quantity == lots[i].quantity {
        if i == 0 {
          assert |tail| > 0;
        } else {
          assert es[i] == tail[i - 1];
        }
      }
    }
  }

  /**
   * The lots left are those the entries did not reach, preceded, when the last
   * reached lot was only partly consumed, by what is left of it.
   */
  lemma {:induction false} FifoRestShape(lots: seq<Holding>, remaining: real, sale: Sale)
    requires NonZeroLots(lots)
    requires remaining > 0.0 ==> sale.trade.quantity > 0.0
    ensures var es := FifoEntries(lots, remaining, sale);
      && |es| <= |lots|
      && (|| FifoRest(lots, remaining) == lots[|es|..]
          || (&& 0 < |es|
              && es[|es| - 1].quantity != lots[|es| - 1].quantity
              && FifoRest(lots, remaining) == [Shrink(lots[|es| - 1], es[|es| - 1].quantity)] + lots[|es|..]))
  {
    if remaining <= 0.0 || lots == [] {
    } else {
      var sold := Min(lots[0].quantity, remaining);
      FifoRestShape(lots[1..], remaining - sold, sale);
      var es := FifoEntries(lots, remaining, sale);
      var tail := FifoEntries(lots[1..], remaining - sold, sale);
      assert es == [SaleEntry(lots[0], sold, sale)] + tail;
      if sold == lots[0].quantity {
        assert lots[1..][|tail|..] == lots[|es|..];
        if 0 < |tail| {
          assert lots[1..][|tail| - 1] == lots[|es| - 1];
        }
      } else {
        assert tail == [];
      }
    }
  }

  // ---------------------------------------------------------------------------
  // Fees

  /** Splitting a lot neither creates nor loses units, buy brokerage or buy GST. */
  lemma SplitConservesLot(h: Holding, sold: real, sale: Sale)
    requires h.quantity != 0.0 && sale.trade.quantity != 0.0
    ensures sold + Shrink(h, sold).quantity == h.quantity
    ensures SaleEntry(h, sold, sale).appliedBuyBrokerage + Shrink(h, sold).brokerage == h.brokerage
    ensures SaleEntry(h, sold, sale).appliedBuyGst + Shrink(h, sold).gst == h.gst
  {
    var r := sold / h.quantity;
    assert r * h.brokerage + h.brokerage * (1.0 - r) == h.brokerage;
    assert r * h.gst + h.gst * (1.0 - r) == h.gst;
  }

  /**
   * Buy fees travel with the units: what the entries apply plus what stays on
   * the remaining lots equals what the candidate lots carried before the sale.
   */
  lemma {:induction false} FifoConservesBuyFees(lots: seq<Holding>, remaining: real, sale: Sale)
    requires NonZeroLots(lots)
    requires remaining > 0.0 ==> sale.trade.quantity > 0.0
    ensures var es := FifoEntries(lots, remaining, sale);
      && Sum(es, AppliedBuyBrokerage) + Sum(FifoRest(lots, remaining), Brokerage) == Sum(lots, Brokerage)
      && Sum(es, AppliedBuyGst) + Sum(FifoRest(lots, remaining), Gst) == Sum(lots, Gst)
  {
    if remaining <= 0.0 || lots == [] {
    } else {
      var sold := Min(lots[0].quantity, remaining);
      SplitConservesLot(lots[0], sold, sale);
      var e := SaleEntry(lots[0], sold, sale);
      if sold == lots[0].quantity {
        FifoConservesBuyFees(lots[1..], remaining - sold, sale);
        RatioOfWhole(lots[0].quantity);
        assert e.appliedBuyBrokerage == lots[0].brokerage && e.appliedBuyGst == lots[0].gst;
      } else {
        var rest := [Shrink(lots[0], sold)] + lots[1..];
        assert rest[1..] == lots[1..];
        assert FifoEntries(lots[1..], remaining - sold, sale) == [];
      }
    }
  }

  /** Each entry applies its share `quantity / trade.quantity` of the sell brokerage and of the sell GST. */
  predicate AppliesSellShares(es: seq<SellEntry>, sale: Sale)
    requires sale.trade.quantity != 0.0
  {
    forall i :: 0 <= i < |es| ==>
      && es[i].appliedSellBrokerage == ShareOf(es[i].quantity, sale.trade.quantity, sale.trade.brokerage)
      && es[i].appliedSellGst == ShareOf(es[i].quantity, sale.trade.quantity, sale.totalSellGst)
  }

  lemma {:induction false} FifoSellShares(lots: seq<Holding>, remaining: real, sale: Sale)
    requires NonZeroLots(lots)
    requires sale.trade.quantity > 0.0
    ensures AppliesSellShares(FifoEntries(lots, remaining, sale), sale)
  {
    if remaining > 0.0 && lots != [] {
      var sold := Min(lots[0].quantity, remaining);
      var tail := FifoEntries(lots[1..], remaining - sold, sale);
      var e := SaleEntry(lots[0], sold, sale);
      FifoSellShares(lots[1..], remaining - sold, sale);
      assert FifoEntries(lots, remaining, sale) == [e] + tail;
      SharesCons(e, tail, sale);
    } else {
      assert FifoEntries(lots, remaining, sale) == [];
    }
  }

  lemma SharesCons(e: SellEntry, tail: seq<SellEntry>, sale: Sale)
    requires sale.trade.quantity != 0.0 && AppliesSellShares(tail, sale)
    requires AppliesSellShares([e], sale)
    ensures AppliesSellShares([e] + tail, sale)
  {
    assert forall i :: 0 < i < |tail| + 1 ==> ([e] + tail)[i] == tail[i - 1];
  }

  /** When every entry applies its share of `amount` through `f`, the entries apply the share of their units. */
  lemma {:induction false} SharesSum(es: seq<SellEntry>, f: SellEntry -> real, q: real, amount: real)
    requires q != 0.0
    requires forall i :: 0 <= i < |es| ==> f(es[i]) == ShareOf(es[i].quantity, q, amount)
    ensures Sum(es, f) == ShareOf(Sum(es, SoldQuantity), q, amount)
  {
    if es == [] {
      NoShare(0.0, q, amount);
    } else {
      assert forall i :: 0 <= i < |es[1..]| ==> es[1..][i] == es[i + 1];
      SharesSum(es[1..], f, q, amount);
      SharesAdd(es[0].quantity, Sum(es[1..], SoldQuantity), Sum(es, SoldQuantity), q, amount);
    }
  }

  /** Selling a whole lot (or a whole trade) is a ratio of one. */
  lemma RatioOfWhole(x: real)
    requires x != 0.0
    ensures x / x == 1.0
  {
    var y := x / x;
    assert y * x == x;
    assert (y - 1.0) * x == 0.0;
  }

  /** Two shares of the same amount add up to the share of the summed quantities. */
  lemma SharesAdd(a: real, b: real, c: real, q: real, amount: real)
    requires q != 0.0 && c == a + b
    ensures ShareOf(a, q, amount) + ShareOf(b, q, amount) == ShareOf(c, q, amount)
  {
    assert a / q + b / q == c / q;
  }

  /** All the units carry the whole amount. */
  lemma WholeShare(a: real, q: real, amount: real)
    requires q != 0.0 && a == q
    ensures ShareOf(a, q, amount) == amount
  {
    RatioOfWhole(q);
  }

  /** No units carry no share. */
  lemma NoShare(a: real, q: real, amount: real)
    requires q != 0.0 && a == 0.0
    ensures ShareOf(a, q, amount) == 0.0
  {
  }

  /** Over one sell trade the entries apply exactly the trade's brokerage and sell GST. */
  lemma SaleAppliesTradeFees(lots: seq<Holding>, sale: Sale)
    requires NonZeroLots(lots)
    requires 0.0 < sale.trade.quantity <= Sum(lots, Quantity)
    ensures Sum(FifoEntries(lots, sale.trade.quantity, sale), AppliedSellBrokerage) == sale.trade.brokerage
    ensures Sum(FifoEntries(lots, sale.trade.quantity, sale), AppliedSellGst) == sale.totalSellGst
  {
    FifoSellShares(lots, sale.trade.quantity, sale);
    FifoConservesUnits(lots, sale.trade.quantity, sale);
    TradeShares(FifoEntries(lots, sale.trade.quantity, sale), sale);
  }

  /** Entries that apply their shares and sell the whole trade apply its whole fees. */
  lemma TradeShares(es: seq<SellEntry>, sale: Sale)
    requires sale.trade.quantity != 0.0
    requires AppliesSellShares(es, sale) && Sum(es, SoldQuantity) == sale.trade.quantity
    ensures Sum(es, AppliedSellBrokerage) == sale.trade.brokerage
    ensures Sum(es, AppliedSellGst) == sale.totalSellGst
  {
    var q := sale.trade.quantity;
    SharesSum(es, AppliedSellBrokerage, q, sale.trade.brokerage);
    SharesSum(es, AppliedSellGst, q, sale.totalSellGst);
    WholeShare(Sum(es, SoldQuantity), q, sale.trade.brokerage);
    WholeShare(Sum(es, SoldQuantity), q, sale.totalSellGst);
  }

  // ---------------------------------------------------------------------------
  // Profit, loss and the CGT discount

  lemma {:induction false} FifoEntriesObeySaleRules(lots: seq<Holding>, remaining: real, sale: Sale)
    requires NonZeroLots(lots)
    requires remaining > 0.0 ==> sale.trade.quantity > 0.0
    ensures forall e :: e in FifoEntries(lots, remaining, sale) ==> SaleRules(e)
  {
    if remaining <= 0.0 || lots == [] {
    } else {
      var sold := Min(lots[0].quantity, remaining);
      FifoEntriesObeySaleRules(lots[1..], remaining - sold, sale);
      EntryObeysSaleRules(lots[0], sold, sale);
      assert FifoEntries(lots, remaining, sale)
          == [SaleEntry(lots[0], sold, sale)] + FifoEntries(lots[1..], remaining - sold, sale);
    }
  }

  lemma EntryObeysSaleRules(h: Holding, sold: real, sale: Sale)
    requires h.quantity != 0.0 && sale.trade.quantity != 0.0
    ensures SaleRules(SaleEntry(h, sold, sale))
  {
  }

  /** A loss is never discounted; a discounted gain is halved, so it stays positive and smaller. */
  lemma DiscountOnlyHalvesGains(e: SellEntry)
    requires SaleRules(e)
    ensures e.profitOrLoss <= 0.0 ==> !e.cgtDiscount && e.capitalGainOrLoss == e.profitOrLoss
    ensures e.cgtDiscount ==> 0.0 < e.capitalGainOrLoss < e.profitOrLoss
    ensures e.capitalGainOrLoss <= e.profitOrLoss
  {
  }
}

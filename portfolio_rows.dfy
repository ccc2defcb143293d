/**
 * The history and trade rows of the "Portfolio" page, built from one
 * security by `processTradesAndHistory` in electron/api/portfolio.ts. Every
 * history entry of the filtered account becomes a row of its own; the trade
 * rows are keyed by trade id, so the sell entries one sale wrote for the
 * lots it consumed are added up into a single row.
 */
module PortfolioRows {
  import opened Seqs
  import opened Sums
  import opened Records
  import opened OrderedMaps

  datatype TradeType = BUY | SELL

  datatype TradeRow = TradeRow(
    id: int,
    tradeId: string,
    date: int,
    accountName: string,
    kind: TradeType,
    symbol: string,
    currency: string,
    exchange: string,
    quantity: real,
    price: real,
    brokerage: real,
    gst: real,
    total: real)

  /** A buy-history entry without its account id, plus the row's id, account name and security. */
  datatype BuyHistoryRow = BuyHistoryRow(
    id: int,
    tradeId: string,
    total: real,
    date: int,
    quantity: real,
    price: real,
    brokerage: real,
    gst: real,
    accountName: string,
    symbol: string,
    currency: string,
    exchange: string)

  /** A sell-history entry without its account id, plus the row's id, account name and security. */
  datatype SellHistoryRow = SellHistoryRow(
    id: int,
    tradeId: string,
    buyDate: int,
    sellDate: int,
    quantity: real,
    buyPrice: real,
    sellPrice: real,
    appliedBuyBrokerage: real,
    appliedSellBrokerage: real,
    appliedBuyGst: real,
    appliedSellGst: real,
    total: real,
    profitOrLoss: real,
    capitalGainOrLoss: real,
    cgtDiscount: bool,
    accountName: string,
    symbol: string,
    currency: string,
    exchange: string)

  /** The name of the account, or the empty string when no account has the id. */
  function AccountName(accounts: map<string, Account>, accountId: string): string {
    if accountId in accounts then accounts[accountId].name else ""
  }

  function BuyRowOf(e: BuyEntry, id: int, accounts: map<string, Account>, security: SecurityData): BuyHistoryRow {
    BuyHistoryRow(id, e.tradeId, e.total, e.date, e.quantity, e.price, e.brokerage, e.gst,
                  AccountName(accounts, e.accountId), security.symbol, security.currency, security.exchange)
  }

  function SellRowOf(e: SellEntry, id: int, accounts: map<string, Account>, security: SecurityData): SellHistoryRow {
    SellHistoryRow(id, e.tradeId, e.buyDate, e.sellDate, e.quantity, e.buyPrice, e.sellPrice,
                   e.appliedBuyBrokerage, e.appliedSellBrokerage, e.appliedBuyGst, e.appliedSellGst,
                   e.total, e.profitOrLoss, e.capitalGainOrLoss, e.cgtDiscount,
                   AccountName(accounts, e.accountId), security.symbol, security.currency, security.exchange)
  }

  /** The trade row a buy entry sets. */
  function BuyTradeOf(e: BuyEntry, id: int, accounts: map<string, Account>, security: SecurityData): TradeRow {
    TradeRow(id, e.tradeId, e.date, AccountName(accounts, e.accountId), BUY, security.symbol, security.currency,
             security.exchange, e.quantity, e.price, e.brokerage, e.gst, e.total)
  }

  /** The trade row the first sell entry of a trade starts: its date and price are the sale's. */
  function SellTradeOf(e: SellEntry, id: int, accounts: map<string, Account>, security: SecurityData): TradeRow {
    TradeRow(id, e.tradeId, e.sellDate, AccountName(accounts, e.accountId), SELL, security.symbol, security.currency,
             security.exchange, e.quantity, e.sellPrice, e.appliedSellBrokerage, e.appliedSellGst, e.total)
  }

  /** A further sell entry of a trade adds its units, sell brokerage, sell GST and total to the row. */
  function AddSale(row: TradeRow, e: SellEntry): TradeRow {
    row.(quantity := row.quantity + e.quantity, brokerage := row.brokerage + e.appliedSellBrokerage,
         gst := row.gst + e.appliedSellGst, total := row.total + e.total)
  }

  // ------------------------------------------------------------------------
  // History rows
  // ------------------------------------------------------------------------

  /** The buy-history rows of the kept entries, in order, numbered consecutively from `firstId`. */
  function BuyRows(kept: seq<BuyEntry>, accounts: map<string, Account>, security: SecurityData, firstId: int)
    : seq<BuyHistoryRow>
  {
    seq(|kept|, k requires 0 <= k < |kept| => BuyRowOf(kept[k], firstId + k, accounts, security))
  }

  /** The sell-history rows of the kept entries, in order, numbered consecutively from `firstId`. */
  function SellRows(kept: seq<SellEntry>, accounts: map<string, Account>, security: SecurityData, firstId: int)
    : seq<SellHistoryRow>
  {
    seq(|kept|, k requires 0 <= k < |kept| => SellRowOf(kept[k], firstId + k, accounts, security))
  }

  lemma BuyRowsSnoc(kept: seq<BuyEntry>, e: BuyEntry, accounts: map<string, Account>, security: SecurityData, firstId: int)
    ensures BuyRows(kept + [e], accounts, security, firstId) ==
            BuyRows(kept, accounts, security, firstId) + [BuyRowOf(e, firstId + |kept|, accounts, security)]
  {
  }

  lemma SellRowsSnoc(kept: seq<SellEntry>, e: SellEntry, accounts: map<string, Account>, security: SecurityData, firstId: int)
    ensures SellRows(kept + [e], accounts, security, firstId) ==
            SellRows(kept, accounts, security, firstId) + [SellRowOf(e, firstId + |kept|, accounts, security)]
  {
  }

  // ------------------------------------------------------------------------
  // Trade rows
  // ------------------------------------------------------------------------

  /** The trades map of `processTradesAndHistory`, with the next trade id the generator hands out. */
  datatype TradeTable = TradeTable(trades: OMap<string, TradeRow>, nextId: int)

  /** A buy entry sets its trade's row, replacing any earlier one, under a new trade id. */
  function AddBuy(t: TradeTable, e: BuyEntry, accounts: map<string, Account>, security: SecurityData): TradeTable
  {
    TradeTable(t.trades.Set(e.tradeId, BuyTradeOf(e, t.nextId, accounts, security)), t.nextId + 1)
  }

  /** A sell entry adds into its trade's row, or starts that row under a new trade id. */
  function AddSell(t: TradeTable, e: SellEntry, accounts: map<string, Account>, security: SecurityData): TradeTable
  {
    if e.tradeId in t.trades.entries then
      TradeTable(t.trades.Set(e.tradeId, AddSale(t.trades.entries[e.tradeId], e)), t.nextId)
    else
      TradeTable(t.trades.Set(e.tradeId, SellTradeOf(e, t.nextId, accounts, security)), t.nextId + 1)
  }

  /** The first loop: the kept buy entries, in order, from an empty map. */
  function BuyTrades(kept: seq<BuyEntry>, accounts: map<string, Account>, security: SecurityData, firstId: int)
    : TradeTable
  {
    if kept == [] then TradeTable(EmptyMap(), firstId)
    else
      var n := |kept| - 1;
      AddBuy(BuyTrades(kept[..n], accounts, security, firstId), kept[n], accounts, security)
  }

  /** The second loop: the kept sell entries, in order, from the table the first loop left. */
  function SellTrades(kept: seq<SellEntry>, start: TradeTable, accounts: map<string, Account>, security: SecurityData)
    : TradeTable
  {
    if kept == [] then start
    else
      var n := |kept| - 1;
      AddSell(SellTrades(kept[..n], start, accounts, security), kept[n], accounts, security)
  }

  /** Both loops. */
  function Trades(buys: seq<BuyEntry>, sells: seq<SellEntry>, accounts: map<string, Account>,
                  security: SecurityData, firstId: int): TradeTable
  {
    SellTrades(sells, BuyTrades(buys, accounts, security, firstId), accounts, security)
  }

  lemma BuyTradesSnoc(kept: seq<BuyEntry>, e: BuyEntry, accounts: map<string, Account>, security: SecurityData,
                      firstId: int)
    ensures BuyTrades(kept + [e], accounts, security, firstId) ==
            AddBuy(BuyTrades(kept, accounts, security, firstId), e, accounts, security)
  {
    assert (kept + [e])[..|kept|] == kept;
  }

  lemma SellTradesSnoc(kept: seq<SellEntry>, e: SellEntry, start: TradeTable, accounts: map<string, Account>,
                       security: SecurityData)
    ensures SellTrades(kept + [e], start, accounts, security) ==
            AddSell(SellTrades(kept, start, accounts, security), e, accounts, security)
  {
    assert (kept + [e])[..|kept|] == kept;
  }

  /**
   * The rows `processTradesAndHistory` attaches: the map's values in the
   * order their trade ids were first set. No two rows belong to the same
   * trade or share a row id, and every id lies between `firstId` and the
   * generator's next id.
   */
  function TradeRows(buys: seq<BuyEntry>, sells: seq<SellEntry>, accounts: map<string, Account>,
                     security: SecurityData, firstId: int): (rows: seq<TradeRow>)
    ensures var t := Trades(buys, sells, accounts, security, firstId);
      && t.trades.Valid() && |rows| == |t.trades.keys|
      && (forall i :: 0 <= i < |rows| ==> rows[i] == t.trades.entries[t.trades.keys[i]])
      && (forall i :: 0 <= i < |rows| ==> rows[i].tradeId == t.trades.keys[i] && firstId <= rows[i].id < t.nextId)
      && (forall i, j :: 0 <= i < j < |rows| ==> rows[i].tradeId != rows[j].tradeId && rows[i].id != rows[j].id)
  {
    var t := Trades(buys, sells, accounts, security, firstId);
    TradesNumbered(buys, sells, accounts, security, firstId);
    var rows := t.trades.Values();
    assert forall i :: 0 <= i < |rows| ==> t.trades.keys[i] in t.trades.entries;
    rows
  }

  /** The last position of an entry of trade `tradeId`, or -1 when there is none. */
  function LastOfTrade(kept: seq<BuyEntry>, tradeId: string): (k: int)
    ensures -1 <= k < |kept|
    ensures k >= 0 ==> kept[k].tradeId == tradeId
    ensures forall j :: k < j < |kept| ==> kept[j].tradeId != tradeId
  {
    if kept == [] then -1
    else if kept[|kept| - 1].tradeId == tradeId then |kept| - 1
    else LastOfTrade(kept[..|kept| - 1], tradeId)
  }

  function SaleOfTrade(tradeId: string): SellEntry -> bool {
    (e: SellEntry) => e.tradeId == tradeId
  }

  function SoldUnits(e: SellEntry): real { e.quantity }
  function SellBrokerage(e: SellEntry): real { e.appliedSellBrokerage }
  function SellGst(e: SellEntry): real { e.appliedSellGst }
  function SellTotal(e: SellEntry): real { e.total }

  /** A row with the units, sell brokerage, sell GST and totals of `sales` added to it. */
  function Totalled(row: TradeRow, sales: seq<SellEntry>): TradeRow {
    row.(quantity := row.quantity + Sum(sales, SoldUnits), brokerage := row.brokerage + Sum(sales, SellBrokerage),
         gst := row.gst + Sum(sales, SellGst), total := row.total + Sum(sales, SellTotal))
  }

  lemma TotalledSnoc(row: TradeRow, sales: seq<SellEntry>, e: SellEntry)
    ensures AddSale(Totalled(row, sales), e) == Totalled(row, sales + [e])
  {
    SumAppend(sales, [e], SoldUnits);
    SumAppend(sales, [e], SellBrokerage);
    SumAppend(sales, [e], SellGst);
    SumAppend(sales, [e], SellTotal);
  }

  lemma {:induction false} BuyTradesNextId(kept: seq<BuyEntry>, accounts: map<string, Account>,
                                           security: SecurityData, firstId: int)
    ensures BuyTrades(kept, accounts, security, firstId).nextId == firstId + |kept|
  {
    if kept != [] {
      BuyTradesNextId(kept[..|kept| - 1], accounts, security, firstId);
    }
  }

  /** After the first loop a trade has a row exactly when a kept buy entry carries its id. */
  lemma {:induction false} BuyTradesKeys(kept: seq<BuyEntry>, accounts: map<string, Account>, security: SecurityData,
                                         firstId: int, tradeId: string)
    ensures tradeId in BuyTrades(kept, accounts, security, firstId).trades.entries <==> LastOfTrade(kept, tradeId) >= 0
  {
    if kept != [] {
      var n := |kept| - 1;
      BuyTradesKeys(kept[..n], accounts, security, firstId, tradeId);
      assert BuyTrades(kept, accounts, security, firstId)
          == AddBuy(BuyTrades(kept[..n], accounts, security, firstId), kept[n], accounts, security);
    }
  }

  /**
   * After the first loop a trade has a row exactly when a kept buy entry
   * carries its id, and the row is the one the last such entry set.
   */
  lemma {:induction false} BuyTradesRow(kept: seq<BuyEntry>, accounts: map<string, Account>, security: SecurityData,
                                        firstId: int, tradeId: string)
    ensures tradeId in BuyTrades(kept, accounts, security, firstId).trades.entries <==> LastOfTrade(kept, tradeId) >= 0
    ensures var k := LastOfTrade(kept, tradeId);
      k >= 0 ==> BuyTrades(kept, accounts, security, firstId).trades.entries[tradeId]
                 == BuyTradeOf(kept[k], firstId + k, accounts, security)
  {
    BuyTradesKeys(kept, accounts, security, firstId, tradeId);
    if kept != [] {
      var n := |kept| - 1;
      if kept[n].tradeId == tradeId {
        BuyTradesLast(kept, accounts, security, firstId);
      } else {
        BuyTradesRow(kept[..n], accounts, security, firstId, tradeId);
        BuyTradesOther(kept, accounts, security, firstId, tradeId);
      }
    }
  }

  /** The last kept buy entry's row is the one it set, under the last trade id drawn. */
  lemma BuyTradesLast(kept: seq<BuyEntry>, accounts: map<string, Account>, security: SecurityData, firstId: int)
    requires kept != []
    ensures var n := |kept| - 1;
      var t := BuyTrades(kept, accounts, security, firstId).trades.entries;
      kept[n].tradeId in t && t[kept[n].tradeId] == BuyTradeOf(kept[n], firstId + n, accounts, security)
  {
    BuyTradesNextId(kept[..|kept| - 1], accounts, security, firstId);
  }

  /**
   * A kept buy entry of another trade leaves the row of `tradeId`, and the
   * last position of that trade, as they were.
   */
  lemma BuyTradesOther(kept: seq<BuyEntry>, accounts: map<string, Account>, security: SecurityData, firstId: int,
                       tradeId: string)
    requires kept != [] && kept[|kept| - 1].tradeId != tradeId
    ensures var n := |kept| - 1;
      var k := LastOfTrade(kept[..n], tradeId);
      var before := BuyTrades(kept[..n], accounts, security, firstId).trades.entries;
      var t := BuyTrades(kept, accounts, security, firstId).trades.entries;
      && LastOfTrade(kept, tradeId) == k
      && (k >= 0 ==> kept[k] == kept[..n][k])
      && (tradeId in t <==> tradeId in before)
      && (tradeId in t ==> t[tradeId] == before[tradeId])
  {
  }

  /**
   * What the second loop has done to the row of trade `tradeId` once it has
   * gone through `sales`, the kept sell entries of that trade: a row it
   * started from has their units, sell brokerage, sell GST and totals added;
   * otherwise the row exists exactly when there were such entries, and it is
   * the first one's row with the others' amounts added.
   */
  ghost predicate AddedUp(t: map<string, TradeRow>, start: map<string, TradeRow>, sales: seq<SellEntry>,
                          tradeId: string, accounts: map<string, Account>, security: SecurityData)
  {
    && (tradeId in t <==> tradeId in start || sales != [])
    && (tradeId in start ==> t[tradeId] == Totalled(start[tradeId], sales))
    && (tradeId !in start && sales != [] ==>
          t[tradeId] == Totalled(SellTradeOf(sales[0], t[tradeId].id, accounts, security), sales[1..]))
  }

  lemma AddSellAddedUp(before: TradeTable, e: SellEntry, start: map<string, TradeRow>, sales: seq<SellEntry>,
                       tradeId: string, accounts: map<string, Account>, security: SecurityData)
    requires AddedUp(before.trades.entries, start, sales, tradeId, accounts, security)
    ensures AddedUp(AddSell(before, e, accounts, security).trades.entries, start,
                    sales + (if e.tradeId == tradeId then [e] else []), tradeId, accounts, security)
  {
    var b := before.trades.entries;
    var t := AddSell(before, e, accounts, security).trades.entries;
    if e.tradeId == tradeId {
      var all := sales + [e];
      if tradeId in b {
        assert t[tradeId] == AddSale(b[tradeId], e);
        if tradeId in start {
          TotalledSnoc(start[tradeId], sales, e);
        } else {
          TotalledSnoc(SellTradeOf(sales[0], b[tradeId].id, accounts, security), sales[1..], e);
          assert all[0] == sales[0] && all[1..] == sales[1..] + [e];
        }
      } else {
        assert all == [e];
        assert t[tradeId] == SellTradeOf(e, before.nextId, accounts, security);
      }
    } else {
      assert sales + [] == sales;
    }
  }

  /** The second loop adds every kept sell entry of a trade into that trade's row. */
  lemma {:induction false} SellTradesRow(kept: seq<SellEntry>, start: TradeTable, accounts: map<string, Account>,
                                         security: SecurityData, tradeId: string)
    ensures AddedUp(SellTrades(kept, start, accounts, security).trades.entries, start.trades.entries,
                    Filter(kept, SaleOfTrade(tradeId)), tradeId, accounts, security)
  {
    if kept != [] {
      var n := |kept| - 1;
      SellTradesRow(kept[..n], start, accounts, security, tradeId);
      var before := SellTrades(kept[..n], start, accounts, security);
      AddSellAddedUp(before, kept[n], start.trades.entries, Filter(kept[..n], SaleOfTrade(tradeId)),
                     tradeId, accounts, security);
      FilterSnoc(kept[..n], kept[n], SaleOfTrade(tradeId));
      assert kept[..n] + [kept[n]] == kept;
    }
  }

  /** Sum over a non-empty list: its first element's value plus the rest's. */
  lemma SumFirst<T>(s: seq<T>, f: T -> real)
    requires s != []
    ensures Sum(s, f) == f(s[0]) + Sum(s[1..], f)
  {
  }

  /**
   * A trade that only sold: its row is a SELL row with the date and price of
   * its first kept entry and the summed units, sell brokerage, sell GST and
   * totals of all of them.
   */
  lemma SoldOnlyRow(buys: seq<BuyEntry>, sells: seq<SellEntry>, accounts: map<string, Account>,
                    security: SecurityData, firstId: int, tradeId: string)
    requires LastOfTrade(buys, tradeId) == -1
    requires Filter(sells, SaleOfTrade(tradeId)) != []
    ensures var t := Trades(buys, sells, accounts, security, firstId).trades.entries;
      var sales := Filter(sells, SaleOfTrade(tradeId));
      && tradeId in t && t[tradeId].kind == SELL && t[tradeId].tradeId == tradeId
      && t[tradeId].date == sales[0].sellDate && t[tradeId].price == sales[0].sellPrice
      && t[tradeId].quantity == Sum(sales, SoldUnits) && t[tradeId].brokerage == Sum(sales, SellBrokerage)
      && t[tradeId].gst == Sum(sales, SellGst) && t[tradeId].total == Sum(sales, SellTotal)
  {
    var start := BuyTrades(buys, accounts, security, firstId);
    BuyTradesRow(buys, accounts, security, firstId, tradeId);
    SellTradesRow(sells, start, accounts, security, tradeId);
    var sales := Filter(sells, SaleOfTrade(tradeId));
    FilterMembers(sells, SaleOfTrade(tradeId), sales[0]);
    SumFirst(sales, SoldUnits);
    SumFirst(sales, SellBrokerage);
    SumFirst(sales, SellGst);
    SumFirst(sales, SellTotal);
  }

  /** Each row sits under its own trade id, and no two rows share a row id, all below the next id. */
  ghost predicate WellNumbered(t: TradeTable, firstId: int) {
    && t.trades.Valid() && firstId <= t.nextId
    && (forall k :: k in t.trades.entries ==> t.trades.entries[k].tradeId == k)
    && (forall k :: k in t.trades.entries ==> firstId <= t.trades.entries[k].id < t.nextId)
    && (forall k, k' :: k in t.trades.entries && k' in t.trades.entries && k != k' ==>
          t.trades.entries[k].id != t.trades.entries[k'].id)
  }

  lemma AddBuyNumbered(before: TradeTable, e: BuyEntry, accounts: map<string, Account>, security: SecurityData,
                        firstId: int)
    requires WellNumbered(before, firstId)
    ensures WellNumbered(AddBuy(before, e, accounts, security), firstId)
    ensures AddBuy(before, e, accounts, security).nextId >= before.nextId
  {
    var t := AddBuy(before, e, accounts, security);
    forall k | k in t.trades.entries && k != e.tradeId
      ensures t.trades.entries[k] == before.trades.entries[k]
    {
    }
    assert t.trades.entries[e.tradeId].id == before.nextId;
  }

  lemma AddSellNumbered(before: TradeTable, e: SellEntry, accounts: map<string, Account>, security: SecurityData,
                        firstId: int)
    requires WellNumbered(before, firstId)
    ensures WellNumbered(AddSell(before, e, accounts, security), firstId)
    ensures AddSell(before, e, accounts, security).nextId >= before.nextId
  {
    var t := AddSell(before, e, accounts, security);
    forall k | k in t.trades.entries && k != e.tradeId
      ensures t.trades.entries[k] == before.trades.entries[k]
    {
    }
    if e.tradeId in before.trades.entries {
      assert t.trades.entries[e.tradeId].id == before.trades.entries[e.tradeId].id;
    } else {
      assert t.trades.entries[e.tradeId].id == before.nextId;
    }
  }

  lemma {:induction false} BuyTradesNumbered(kept: seq<BuyEntry>, accounts: map<string, Account>,
                                             security: SecurityData, firstId: int)
    ensures WellNumbered(BuyTrades(kept, accounts, security, firstId), firstId)
    ensures BuyTrades(kept, accounts, security, firstId).nextId >= firstId
  {
    if kept != [] {
      var n := |kept| - 1;
      BuyTradesNumbered(kept[..n], accounts, security, firstId);
      AddBuyNumbered(BuyTrades(kept[..n], accounts, security, firstId), kept[n], accounts, security, firstId);
    }
  }

  lemma {:induction false} SellTradesNumbered(kept: seq<SellEntry>, start: TradeTable, accounts: map<string, Account>,
                                              security: SecurityData, firstId: int)
    requires WellNumbered(start, firstId)
    ensures WellNumbered(SellTrades(kept, start, accounts, security), firstId)
    ensures SellTrades(kept, start, accounts, security).nextId >= start.nextId
  {
    if kept != [] {
      var n := |kept| - 1;
      SellTradesNumbered(kept[..n], start, accounts, security, firstId);
      AddSellNumbered(SellTrades(kept[..n], start, accounts, security), kept[n], accounts, security, firstId);
    }
  }

  /**
   * The trade rows have different ids, drawn from `firstId` up to the
   * generator's next id, and each sits under its own trade id.
   */
  lemma TradesNumbered(buys: seq<BuyEntry>, sells: seq<SellEntry>, accounts: map<string, Account>,
                       security: SecurityData, firstId: int)
    ensures WellNumbered(Trades(buys, sells, accounts, security, firstId), firstId)
  {
    BuyTradesNumbered(buys, accounts, security, firstId);
    SellTradesNumbered(sells, BuyTrades(buys, accounts, security, firstId), accounts, security, firstId);
  }
}

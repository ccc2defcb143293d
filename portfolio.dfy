/**
 * The "Portfolio" page of electron/api/portfolio.ts: the securities that
 * match the page's filter, a value for every calendar day of the chart
 * rebuilt from the trade histories and the price and exchange-rate series,
 * the history and trade rows, and a row per security still held, valued
 * with the latest quotes.
 */
module Portfolio {
  import opened Wrappers
  import opened Seqs
  import opened Sums
  import opened Sorting
  import opened Records
  import opened OrderedMaps
  import opened Quotes
  import opened Cursors
  import opened PortfolioRows
  import opened HoldingRows

  /** The page's filter: an account (empty for all) and the classifications a security must carry. */
  datatype PortfolioFilterValues = PortfolioFilterValues(
    accountId: string,
    countries: seq<string>,
    financialStatus: seq<string>,
    miningStatus: seq<string>,
    resources: seq<string>,
    products: seq<string>,
    recommendations: seq<string>)

  /** A fetched price history: its currency and its entries, ascending by date. */
  datatype Historical = Historical(currency: string, entries: seq<SeriesEntry>)

  /** A fetched exchange-rate history into the target currency, ascending by date. */
  datatype ExchangeRate = ExchangeRate(entries: seq<SeriesEntry>)

  datatype PortfolioData = PortfolioData(
    chart: seq<ChartDataPoint>,
    holdings: seq<HoldingRow>,
    trades: seq<TradeRow>,
    buyHistory: seq<BuyHistoryRow>,
    sellHistory: seq<SellHistoryRow>,
    marketValue: real,
    todayChange: real,
    todayChangePerc: Option<real>,
    profitOrLoss: real,
    profitOrLossPerc: Option<real>,
    currency: string)

  /** What the page shows before anything is added. */
  const EMPTY_RESULT: PortfolioData := PortfolioData([], [], [], [], [], 0.0, 0.0, None, 0.0, None, DEFAULT_CURRENCY)

  function PointTime(p: ChartDataPoint): int { p.time }

  // ------------------------------------------------------------------------
  // Selecting securities
  // ------------------------------------------------------------------------

  /** Every required value is present. */
  predicate Includes(required: seq<string>, present: seq<string>) {
    forall v :: v in required ==> v in present
  }

  /** A security passes the filter when it carries every selected classification. */
  predicate Matches(values: PortfolioFilterValues, s: SecurityData) {
    && Includes(values.countries, s.countries)
    && Includes(values.financialStatus, s.financialStatus)
    && Includes(values.miningStatus, s.miningStatus)
    && Includes(values.resources, s.resources)
    && Includes(values.products, s.products)
    && Includes(values.recommendations, s.recommendations)
  }

  /**
   * The stored securities that match, each under its symbol, in store order:
   * exactly the matching securities are kept.
   */
  function Select(values: PortfolioFilterValues, store: seq<SecurityData>): (m: OMap<string, SecurityData>)
    ensures m.Valid()
    ensures forall k :: k in m.entries ==> m.entries[k].symbol == k && Matches(values, m.entries[k]) && m.entries[k] in store
    ensures forall s :: s in store && Matches(values, s) ==> s.symbol in m.entries
  {
    if store == [] then EmptyMap()
    else
      var n := |store| - 1;
      var before := Select(values, store[..n]);
      assert forall s :: s in store ==> s in store[..n] || s == store[n];
      if Matches(values, store[n]) then before.Set(store[n].symbol, store[n]) else before
  }

  lemma SelectSnoc(values: PortfolioFilterValues, store: seq<SecurityData>, i: nat)
    requires i < |store|
    ensures Select(values, store[..i + 1]) ==
      if Matches(values, store[i]) then Select(values, store[..i]).Set(store[i].symbol, store[i])
      else Select(values, store[..i])
  {
    assert store[..i + 1][..i] == store[..i];
  }

  // ------------------------------------------------------------------------
  // Valuing the chart's days
  // ------------------------------------------------------------------------

  /** The days from `start` through `today`, each with value 0. */
  function Days(start: int, today: int): (points: seq<ChartDataPoint>)
    ensures |points| == if start <= today then today - start + 1 else 0
    ensures forall i :: 0 <= i < |points| ==> points[i] == ChartDataPoint(start + i, 0.0)
    decreases today - start
  {
    if start > today then [] else [ChartDataPoint(start, 0.0)] + Days(start + 1, today)
  }

  /**
   * Today's point of the chart set to `value`: the last point is overwritten
   * when it is today's, otherwise a point for today is appended.
   */
  function WithToday(points: seq<ChartDataPoint>, today: int, value: real): (r: seq<ChartDataPoint>)
    requires points != []
    ensures |r| == if points[|points| - 1].time == today then |points| else |points| + 1
    ensures r[|r| - 1] == ChartDataPoint(today, value)
    ensures forall i :: 0 <= i < |points| && i < |r| - 1 ==> r[i] == points[i]
  {
    var last := |points| - 1;
    if points[last].time == today then points[last := points[last].(value := value)]
    else points + [ChartDataPoint(today, value)]
  }

  /** Times strictly increasing: one point per day, in order. */
  predicate Ascending(points: seq<ChartDataPoint>) {
    forall i, j :: 0 <= i < j < |points| ==> points[i].time < points[j].time
  }

  /**
   * On a chart with one point per day, in order, up to today, today's point
   * ends up the only one for today: the chart stays in order and every other
   * point keeps its value.
   */
  lemma WithTodayAscending(points: seq<ChartDataPoint>, today: int, value: real)
    requires points != [] && Ascending(points) && points[|points| - 1].time <= today
    ensures var r := WithToday(points, today, value);
      && Ascending(r)
      && (forall i :: 0 <= i < |r| && r[i].time == today ==> r[i].value == value)
      && (forall i :: 0 <= i < |points| && points[i].time != today ==> r[i] == points[i])
  {
    var r := WithToday(points, today, value);
    forall i, j | 0 <= i < j < |r| ensures r[i].time < r[j].time {
      if j == |r| - 1 {
        assert points[i].time <= points[|points| - 1].time;
      }
    }
  }

  /** The rate cursor of a security: a real cursor, or the constant 1 when no conversion is needed. */
  datatype RateCursor = OneToOne | Series(cursor: EntryIterator)

  /** The rate the rate cursor gives for `time`. */
  function RateAt(exchangeRateEntries: Option<seq<SeriesEntry>>, time: int): real
    requires exchangeRateEntries.Some? ==> exchangeRateEntries.value != []
  {
    match exchangeRateEntries
    case None => 1.0
    case Some(entries) => entries[LatestIndex(entries, time)].value
  }

  /**
   * What a security adds to the day `time`: the units its filtered account
   * held before that day, times the last adjusted close before it, times the
   * last exchange rate before it.
   */
  function PointValue(security: SecurityData, accountIdFilter: string, historicalEntries: seq<SeriesEntry>,
                      exchangeRateEntries: Option<seq<SeriesEntry>>, time: int): real
    requires historicalEntries != []
    requires exchangeRateEntries.Some? ==> exchangeRateEntries.value != []
  {
    Worth(UnitsAt(security.buyHistory, security.sellHistory, accountIdFilter, time),
          historicalEntries[LatestIndex(historicalEntries, time)].value,
          RateAt(exchangeRateEntries, time))
  }

  /**
   * The three cursors of one security, all last asked about `last`: the unit
   * tracker over its histories, the price cursor and the rate cursor.
   */
  ghost predicate CursorsAt(tracker: UnitTracker, prices: EntryIterator, rates: RateCursor, security: SecurityData,
                            accountIdFilter: string, historicalEntries: seq<SeriesEntry>,
                            exchangeRateEntries: Option<seq<SeriesEntry>>, last: Option<int>)
    reads tracker, prices, if rates.Series? then {rates.cursor} else {}
  {
    && tracker.Valid() && prices.Valid()
    && tracker.buyHistory == security.buyHistory && tracker.sellHistory == security.sellHistory
    && tracker.accountIdFilter == accountIdFilter && prices.entries == historicalEntries
    && tracker.last == last && prices.last == last
    && (rates.Series? <==> exchangeRateEntries.Some?)
    && (rates.Series? ==>
          && rates.cursor.Valid() && rates.cursor.entries == exchangeRateEntries.value
          && rates.cursor != prices && rates.cursor.last == last)
  }

  /** One day of `processDataPoints`: asks the three cursors about `time` and returns the security's value on it. */
  method ValueDay(tracker: UnitTracker, prices: EntryIterator, rates: RateCursor, security: SecurityData,
                  accountIdFilter: string, historicalEntries: seq<SeriesEntry>,
                  exchangeRateEntries: Option<seq<SeriesEntry>>, ghost last: Option<int>, time: int)
    returns (added: real)
    requires CursorsAt(tracker, prices, rates, security, accountIdFilter, historicalEntries, exchangeRateEntries, last)
    requires last.None? || last.value <= time
    modifies tracker, prices, if rates.Series? then {rates.cursor} else {}
    ensures CursorsAt(tracker, prices, rates, security, accountIdFilter, historicalEntries, exchangeRateEntries, Some(time))
    ensures historicalEntries != [] && (exchangeRateEntries.Some? ==> exchangeRateEntries.value != [])
    ensures added == PointValue(security, accountIdFilter, historicalEntries, exchangeRateEntries, time)
  {
    var units := tracker.GetUnitsAtTime(time);
    assert units == UnitsAt(security.buyHistory, security.sellHistory, accountIdFilter, time);
    var price := prices.GetEntryAtTime(time);
    assert price.value == historicalEntries[LatestIndex(historicalEntries, time)].value;
    var rate := RateOfDay(rates, exchangeRateEntries, last, time);
    added := Worth(units, price.value, rate);
  }

  /** Asks the rate cursor about `time`; without a rate series the rate is 1. */
  method RateOfDay(rates: RateCursor, exchangeRateEntries: Option<seq<SeriesEntry>>, ghost last: Option<int>, time: int)
    returns (rate: real)
    requires rates.Series? <==> exchangeRateEntries.Some?
    requires rates.Series? ==> rates.cursor.Valid() && rates.cursor.entries == exchangeRateEntries.value && rates.cursor.last == last
    requires last.None? || last.value <= time
    modifies if rates.Series? then {rates.cursor} else {}
    ensures rates.Series? ==> rates.cursor.Valid() && rates.cursor.last == Some(time)
    ensures exchangeRateEntries.Some? ==> exchangeRateEntries.value != []
    ensures rate == RateAt(exchangeRateEntries, time)
  {
    rate := 1.0;
    if rates.Series? {
      var entry := rates.cursor.GetEntryAtTime(time);
      rate := entry.value;
    }
  }

  /** A day with the security's value on it added. */
  function ValuedPoint(point: ChartDataPoint, security: SecurityData, accountIdFilter: string,
                       historicalEntries: seq<SeriesEntry>, exchangeRateEntries: Option<seq<SeriesEntry>>): ChartDataPoint
    requires historicalEntries != []
    requires exchangeRateEntries.Some? ==> exchangeRateEntries.value != []
  {
    point.(value := point.value + PointValue(security, accountIdFilter, historicalEntries, exchangeRateEntries, point.time))
  }

  /** The first `n` days of `original` are valued in `points`; the rest are untouched. */
  ghost predicate ValuedUpTo(points: seq<ChartDataPoint>, original: seq<ChartDataPoint>, n: nat, security: SecurityData,
                             accountIdFilter: string, historicalEntries: seq<SeriesEntry>,
                             exchangeRateEntries: Option<seq<SeriesEntry>>)
    requires historicalEntries != []
    requires exchangeRateEntries.Some? ==> exchangeRateEntries.value != []
  {
    && |points| == |original| && n <= |points|
    && (forall j :: 0 <= j < n ==>
          points[j] == ValuedPoint(original[j], security, accountIdFilter, historicalEntries, exchangeRateEntries))
    && (forall j :: n <= j < |points| ==> points[j] == original[j])
  }

  lemma ValuedUpToStep(points: seq<ChartDataPoint>, original: seq<ChartDataPoint>, n: nat, security: SecurityData,
                       accountIdFilter: string, historicalEntries: seq<SeriesEntry>,
                       exchangeRateEntries: Option<seq<SeriesEntry>>, added: real)
    requires historicalEntries != []
    requires exchangeRateEntries.Some? ==> exchangeRateEntries.value != []
    requires ValuedUpTo(points, original, n, security, accountIdFilter, historicalEntries, exchangeRateEntries)
    requires n < |points|
    requires added == PointValue(security, accountIdFilter, historicalEntries, exchangeRateEntries, points[n].time)
    ensures ValuedUpTo(points[n := points[n].(value := points[n].value + added)], original, n + 1,
                       security, accountIdFilter, historicalEntries, exchangeRateEntries)
  {
  }

  /**
   * The loop of `processDataPoints`: asks the cursors about every day in
   * turn and adds the security's value on that day to it.
   */
  method ValueDays(original: seq<ChartDataPoint>, tracker: UnitTracker, prices: EntryIterator, rates: RateCursor,
                   security: SecurityData, accountIdFilter: string, historicalEntries: seq<SeriesEntry>,
                   exchangeRateEntries: Option<seq<SeriesEntry>>)
    returns (points: seq<ChartDataPoint>)
    requires CursorsAt(tracker, prices, rates, security, accountIdFilter, historicalEntries, exchangeRateEntries, None)
    requires SortedBy(original, PointTime)
    modifies tracker, prices, if rates.Series? then {rates.cursor} else {}
    ensures historicalEntries != [] && (exchangeRateEntries.Some? ==> exchangeRateEntries.value != [])
    ensures |points| == |original|
    ensures forall j :: 0 <= j < |points| ==>
      points[j] == ValuedPoint(original[j], security, accountIdFilter, historicalEntries, exchangeRateEntries)
  {
    points := original;
    ghost var last: Option<int> := None;
    var i := 0;
    while i < |points|
      invariant ValuedUpTo(points, original, i, security, accountIdFilter, historicalEntries, exchangeRateEntries)
      invariant CursorsAt(tracker, prices, rates, security, accountIdFilter, historicalEntries, exchangeRateEntries, last)
      invariant i == 0 ==> last == None
      invariant i > 0 ==> last == Some(original[i - 1].time)
    {
      assert i > 0 ==> PointTime(original[i - 1]) <= PointTime(original[i]);
      var added := ValueDay(tracker, prices, rates, security, accountIdFilter, historicalEntries,
                            exchangeRateEntries, last, points[i].time);
      ValuedUpToStep(points, original, i, security, accountIdFilter, historicalEntries, exchangeRateEntries, added);
      last := Some(points[i].time);
      points := points[i := points[i].(value := points[i].value + added)];
      i := i + 1;
    }
  }

  // ------------------------------------------------------------------------
  // History and trade rows
  // ------------------------------------------------------------------------

  /**
   * After the buy entries `kept`: their rows numbered from `firstBuyId`, the
   * trades map they build from trade id `firstTradeId`, and the next ids.
   */
  ghost predicate BuysRecorded(rows: seq<BuyHistoryRow>, trades: OMap<string, TradeRow>, nextBuyId: int, nextTradeId: int,
                               kept: seq<BuyEntry>, accounts: map<string, Account>, security: SecurityData,
                               firstBuyId: int, firstTradeId: int)
  {
    && rows == BuyRows(kept, accounts, security, firstBuyId)
    && TradeTable(trades, nextTradeId) == BuyTrades(kept, accounts, security, firstTradeId)
    && nextBuyId == firstBuyId + |kept|
  }

  lemma BuysRecordedStep(rows: seq<BuyHistoryRow>, trades: OMap<string, TradeRow>, nextBuyId: int, nextTradeId: int,
                         kept: seq<BuyEntry>, e: BuyEntry, accounts: map<string, Account>, security: SecurityData,
                         firstBuyId: int, firstTradeId: int)
    requires BuysRecorded(rows, trades, nextBuyId, nextTradeId, kept, accounts, security, firstBuyId, firstTradeId)
    ensures BuysRecorded(rows + [BuyRowOf(e, nextBuyId, accounts, security)],
                         trades.Set(e.tradeId, BuyTradeOf(e, nextTradeId, accounts, security)),
                         nextBuyId + 1, nextTradeId + 1, kept + [e], accounts, security, firstBuyId, firstTradeId)
  {
    BuyRowsSnoc(kept, e, accounts, security, firstBuyId);
    BuyTradesSnoc(kept, e, accounts, security, firstTradeId);
    var before := BuyTrades(kept, accounts, security, firstTradeId);
    assert before == TradeTable(trades, nextTradeId);
    assert AddBuy(before, e, accounts, security) ==
      TradeTable(trades.Set(e.tradeId, BuyTradeOf(e, nextTradeId, accounts, security)), nextTradeId + 1);
  }

  /**
   * The first loop of `processTradesAndHistory`: every buy entry of the
   * filtered account gets a buy-history row under the next buy-history id and
   * sets its trade's row under the next trade id.
   */
  method RecordBuys(security: SecurityData, accountIdFilter: string, accounts: map<string, Account>, idGen: IdGenerator)
    returns (rows: seq<BuyHistoryRow>, trades: OMap<string, TradeRow>)
    requires idGen.Valid()
    modifies idGen
    ensures idGen.Valid()
    ensures BuysRecorded(rows, trades, idGen.buyHistoryId, idGen.tradeId,
                         Filter(security.buyHistory, BuyCounts(accountIdFilter)), accounts, security,
                         old(idGen.buyHistoryId), old(idGen.tradeId))
    ensures idGen.holdingId == old(idGen.holdingId) && idGen.sellHistoryId == old(idGen.sellHistoryId)
  {
    rows, trades := [], EmptyMap();
    var history := security.buyHistory;
    var i := 0;
    while i < |history|
      invariant i <= |history| && idGen.Valid()
      invariant BuysRecorded(rows, trades, idGen.buyHistoryId, idGen.tradeId,
                             Filter(history[..i], BuyCounts(accountIdFilter)), accounts, security,
                             old(idGen.buyHistoryId), old(idGen.tradeId))
      invariant idGen.holdingId == old(idGen.holdingId) && idGen.sellHistoryId == old(idGen.sellHistoryId)
    {
      var entry := history[i];
      ghost var kept := Filter(history[..i], BuyCounts(accountIdFilter));
      FilterPrefixSnoc(history, i, BuyCounts(accountIdFilter));
      assert Filter(history[..i + 1], BuyCounts(accountIdFilter)) ==
        if PassesFilter(accountIdFilter, entry.accountId) then kept + [entry] else kept;
      if PassesFilter(accountIdFilter, entry.accountId) {
        BuysRecordedStep(rows, trades, idGen.buyHistoryId, idGen.tradeId, kept, entry, accounts, security,
                         old(idGen.buyHistoryId), old(idGen.tradeId));
        var id := idGen.NextBuyHistoryId();
        rows := rows + [BuyRowOf(entry, id, accounts, security)];
        var tradeRowId := idGen.NextTradeId();
        trades := trades.Set(entry.tradeId, BuyTradeOf(entry, tradeRowId, accounts, security));
      }
      i := i + 1;
    }
    assert history[..i] == history;
  }

  /**
   * After the sell entries `kept`: their rows numbered from `firstSellId`, the
   * trades map they build on `start`, and the next ids.
   */
  ghost predicate SellsRecorded(rows: seq<SellHistoryRow>, trades: OMap<string, TradeRow>, nextSellId: int, nextTradeId: int,
                                kept: seq<SellEntry>, start: TradeTable, accounts: map<string, Account>,
                                security: SecurityData, firstSellId: int)
  {
    && rows == SellRows(kept, accounts, security, firstSellId)
    && TradeTable(trades, nextTradeId) == SellTrades(kept, start, accounts, security)
    && nextSellId == firstSellId + |kept|
  }

  lemma SellsRecordedStep(rows: seq<SellHistoryRow>, trades: OMap<string, TradeRow>, nextSellId: int, nextTradeId: int,
                          kept: seq<SellEntry>, e: SellEntry, start: TradeTable, accounts: map<string, Account>,
                          security: SecurityData, firstSellId: int)
    requires SellsRecorded(rows, trades, nextSellId, nextTradeId, kept, start, accounts, security, firstSellId)
    ensures var next := AddSell(TradeTable(trades, nextTradeId), e, accounts, security);
      SellsRecorded(rows + [SellRowOf(e, nextSellId, accounts, security)], next.trades, nextSellId + 1, next.nextId,
                    kept + [e], start, accounts, security, firstSellId)
  {
    SellRowsSnoc(kept, e, accounts, security, firstSellId);
    SellTradesSnoc(kept, e, start, accounts, security);
  }

  /**
   * One sell entry of the filtered account: its sell-history row under the
   * next sell-history id, and its trade's row extended, or started under the
   * next trade id.
   */
  method RecordSell(entry: SellEntry, accounts: map<string, Account>, security: SecurityData, idGen: IdGenerator,
                    trades: OMap<string, TradeRow>)
    returns (row: SellHistoryRow, trades': OMap<string, TradeRow>)
    requires idGen.Valid()
    modifies idGen
    ensures idGen.Valid()
    ensures row == SellRowOf(entry, old(idGen.sellHistoryId), accounts, security)
    ensures idGen.sellHistoryId == old(idGen.sellHistoryId) + 1
    ensures TradeTable(trades', idGen.tradeId) == AddSell(TradeTable(trades, old(idGen.tradeId)), entry, accounts, security)
    ensures idGen.holdingId == old(idGen.holdingId) && idGen.buyHistoryId == old(idGen.buyHistoryId)
  {
    var id := idGen.NextSellHistoryId();
    row := SellRowOf(entry, id, accounts, security);
    var existing := trades.Get(entry.tradeId);
    if existing.Some? {
      trades' := trades.Set(entry.tradeId, AddSale(existing.value, entry));
    } else {
      var tradeRowId := idGen.NextTradeId();
      trades' := trades.Set(entry.tradeId, SellTradeOf(entry, tradeRowId, accounts, security));
    }
  }

  /**
   * The second loop of `processTradesAndHistory`: every sell entry of the
   * filtered account gets a sell-history row under the next sell-history id,
   * and adds into its trade's row, or starts one under the next trade id.
   */
  method RecordSells(security: SecurityData, accountIdFilter: string, accounts: map<string, Account>,
                     idGen: IdGenerator, start: OMap<string, TradeRow>)
    returns (rows: seq<SellHistoryRow>, trades: OMap<string, TradeRow>)
    requires idGen.Valid()
    modifies idGen
    ensures idGen.Valid()
    ensures SellsRecorded(rows, trades, idGen.sellHistoryId, idGen.tradeId,
                          Filter(security.sellHistory, SellCounts(accountIdFilter)),
                          TradeTable(start, old(idGen.tradeId)), accounts, security, old(idGen.sellHistoryId))
    ensures idGen.holdingId == old(idGen.holdingId) && idGen.buyHistoryId == old(idGen.buyHistoryId)
  {
    rows, trades := [], start;
    var history := security.sellHistory;
    var i := 0;
    while i < |history|
      invariant i <= |history| && idGen.Valid()
      invariant SellsRecorded(rows, trades, idGen.sellHistoryId, idGen.tradeId,
                              Filter(history[..i], SellCounts(accountIdFilter)),
                              TradeTable(start, old(idGen.tradeId)), accounts, security, old(idGen.sellHistoryId))
      invariant idGen.holdingId == old(idGen.holdingId) && idGen.buyHistoryId == old(idGen.buyHistoryId)
    {
      var entry := history[i];
      ghost var kept := Filter(history[..i], SellCounts(accountIdFilter));
      FilterPrefixSnoc(history, i, SellCounts(accountIdFilter));
      assert Filter(history[..i + 1], SellCounts(accountIdFilter)) ==
        if PassesFilter(accountIdFilter, entry.accountId) then kept + [entry] else kept;
      if PassesFilter(accountIdFilter, entry.accountId) {
        SellsRecordedStep(rows, trades, idGen.sellHistoryId, idGen.tradeId, kept, entry,
                          TradeTable(start, old(idGen.tradeId)), accounts, security, old(idGen.sellHistoryId));
        var row;
        row, trades := RecordSell(entry, accounts, security, idGen, trades);
        rows := rows + [row];
      }
      i := i + 1;
    }
    assert history[..i] == history;
  }

  /** `weighted` is `rows`, each with its weight against the combined value. */
  ghost predicate Weighs(weighted: seq<HoldingRow>, rows: seq<HoldingRow>, combinedValue: real) {
    && |weighted| == |rows|
    && forall i :: 0 <= i < |rows| ==> weighted[i] == Weighted(rows[i], combinedValue)
  }

  /**
   * The page's totals: the combined market value, today's change against
   * yesterday's combined value, and the profit against the combined cost,
   * each with its quotient.
   */
  ghost predicate Shows(r: PortfolioData, t: Totals) {
    && r.marketValue == t.value
    && r.todayChange + t.previousValue == t.value
    && IsQuotient(r.todayChangePerc, r.todayChange, t.previousValue)
    && r.profitOrLoss + t.cost == t.value
    && IsQuotient(r.profitOrLossPerc, r.profitOrLoss, t.cost)
  }

  // ------------------------------------------------------------------------
  // The securities loop of `assemble`
  // ------------------------------------------------------------------------

  /** The histories a security's chart values come from: prices, and rates when its currency is not the target. */
  datatype Sources = Sources(historicalEntries: seq<SeriesEntry>, exchangeRateEntries: Option<seq<SeriesEntry>>)

  /**
   * A security's histories, or `None` when it is skipped: its price history
   * is missing or empty, or its currency is not the target and the rate
   * history of that currency is missing or empty.
   */
  function SourcesOf(security: SecurityData, historicals: map<string, Historical>,
                     exchangeRates: map<string, ExchangeRate>, target: string): (src: Option<Sources>)
    ensures src.Some? <==>
      && security.symbol in historicals && historicals[security.symbol].entries != []
      && (historicals[security.symbol].currency != target ==>
            historicals[security.symbol].currency in exchangeRates
            && exchangeRates[historicals[security.symbol].currency].entries != [])
    ensures src.Some? ==>
      && src.value.historicalEntries == historicals[security.symbol].entries
      && (src.value.exchangeRateEntries.Some? <==> historicals[security.symbol].currency != target)
      && (src.value.exchangeRateEntries.Some? ==>
            src.value.exchangeRateEntries.value == exchangeRates[historicals[security.symbol].currency].entries)
  {
    if security.symbol !in historicals || historicals[security.symbol].entries == [] then None
    else
      var historical := historicals[security.symbol];
      if historical.currency == target then Some(Sources(historical.entries, None))
      else if historical.currency !in exchangeRates || exchangeRates[historical.currency].entries == [] then None
      else Some(Sources(historical.entries, Some(exchangeRates[historical.currency].entries)))
  }

  /** What a security adds to the chart on day `time`; nothing when it is skipped. */
  function Contribution(security: SecurityData, accountIdFilter: string, historicals: map<string, Historical>,
                        exchangeRates: map<string, ExchangeRate>, target: string, time: int): real
  {
    match SourcesOf(security, historicals, exchangeRates, target)
    case None => 0.0
    case Some(src) => PointValue(security, accountIdFilter, src.historicalEntries, src.exchangeRateEntries, time)
  }

  /** The chart's value on day `time`: the contributions of the securities `done`. */
  function ChartValue(done: seq<SecurityData>, accountIdFilter: string, historicals: map<string, Historical>,
                      exchangeRates: map<string, ExchangeRate>, target: string, time: int): real
  {
    if done == [] then 0.0
    else
      var n := |done| - 1;
      ChartValue(done[..n], accountIdFilter, historicals, exchangeRates, target, time)
        + Contribution(done[n], accountIdFilter, historicals, exchangeRates, target, time)
  }

  lemma ChartValueSnoc(done: seq<SecurityData>, i: nat, accountIdFilter: string, historicals: map<string, Historical>,
                       exchangeRates: map<string, ExchangeRate>, target: string)
    requires i < |done|
    ensures forall time ::
      ChartValue(done[..i + 1], accountIdFilter, historicals, exchangeRates, target, time)
        == ChartValue(done[..i], accountIdFilter, historicals, exchangeRates, target, time)
           + Contribution(done[i], accountIdFilter, historicals, exchangeRates, target, time)
  {
    assert done[..i + 1][..i] == done[..i];
  }

  /** The history and trade rows recorded so far, and the counters the next rows are numbered from. */
  datatype Recorded = Recorded(buyHistory: seq<BuyHistoryRow>, sellHistory: seq<SellHistoryRow>, trades: seq<TradeRow>,
                               buyId: int, sellId: int, tradeId: int)

  /** No rows yet, every counter at 1. */
  const NOTHING_RECORDED: Recorded := Recorded([], [], [], 1, 1, 1)

  /**
   * One security's rows added to `r`: a history row per buy and sell entry
   * of the filtered account and its trade rows, numbered from the counters,
   * which move past the ids drawn.
   */
  function RecordSecurity(r: Recorded, security: SecurityData, accountIdFilter: string,
                          accounts: map<string, Account>): Recorded
  {
    var buys := Filter(security.buyHistory, BuyCounts(accountIdFilter));
    var sells := Filter(security.sellHistory, SellCounts(accountIdFilter));
    Recorded(r.buyHistory + BuyRows(buys, accounts, security, r.buyId),
             r.sellHistory + SellRows(sells, accounts, security, r.sellId),
             r.trades + TradeRows(buys, sells, accounts, security, r.tradeId),
             r.buyId + |buys|, r.sellId + |sells|, Trades(buys, sells, accounts, security, r.tradeId).nextId)
  }

  /** The rows the loop of `assemble` records over the securities `done`: those of every security it charts, in order. */
  function RecordedOf(done: seq<SecurityData>, accountIdFilter: string, accounts: map<string, Account>,
                      historicals: map<string, Historical>, exchangeRates: map<string, ExchangeRate>, target: string,
                      first: Recorded): Recorded
  {
    if done == [] then first
    else
      var n := |done| - 1;
      var before := RecordedOf(done[..n], accountIdFilter, accounts, historicals, exchangeRates, target, first);
      if SourcesOf(done[n], historicals, exchangeRates, target).Some?
      then RecordSecurity(before, done[n], accountIdFilter, accounts)
      else before
  }

  lemma RecordedOfSnoc(done: seq<SecurityData>, i: nat, accountIdFilter: string, accounts: map<string, Account>,
                       historicals: map<string, Historical>, exchangeRates: map<string, ExchangeRate>, target: string,
                       first: Recorded)
    requires i < |done|
    ensures var before := RecordedOf(done[..i], accountIdFilter, accounts, historicals, exchangeRates, target, first);
      RecordedOf(done[..i + 1], accountIdFilter, accounts, historicals, exchangeRates, target, first) ==
        if SourcesOf(done[i], historicals, exchangeRates, target).Some?
        then RecordSecurity(before, done[i], accountIdFilter, accounts)
        else before
  {
    assert done[..i + 1][..i] == done[..i];
  }

  /**
   * Rows numbered as the counters hand the ids out: history rows consecutively
   * from 1 with each counter one past its last row, and trade rows with
   * different ids, all from 1 and below the trade counter.
   */
  ghost predicate NumberedFromOne(r: Recorded) {
    && r.buyId == |r.buyHistory| + 1 && r.sellId == |r.sellHistory| + 1 && 1 <= r.tradeId
    && (forall i :: 0 <= i < |r.buyHistory| ==> r.buyHistory[i].id == i + 1)
    && (forall i :: 0 <= i < |r.sellHistory| ==> r.sellHistory[i].id == i + 1)
    && (forall i :: 0 <= i < |r.trades| ==> 1 <= r.trades[i].id < r.tradeId)
    && (forall i, j :: 0 <= i < j < |r.trades| ==> r.trades[i].id != r.trades[j].id)
  }

  /** Trade rows with different ids below `nextId` stay so when rows with different ids in `[nextId, nextId')` follow. */
  lemma TradeIdsAppend(before: seq<TradeRow>, rows: seq<TradeRow>, nextId: int, nextId': int)
    requires forall i :: 0 <= i < |before| ==> 1 <= before[i].id < nextId
    requires forall i, j :: 0 <= i < j < |before| ==> before[i].id != before[j].id
    requires 1 <= nextId <= nextId'
    requires forall i :: 0 <= i < |rows| ==> nextId <= rows[i].id < nextId'
    requires forall i, j :: 0 <= i < j < |rows| ==> rows[i].id != rows[j].id
    ensures var all := before + rows;
      && (forall i :: 0 <= i < |all| ==> 1 <= all[i].id < nextId')
      && (forall i, j :: 0 <= i < j < |all| ==> all[i].id != all[j].id)
  {
    var all, m := before + rows, |before|;
    forall i | 0 <= i < |all| ensures 1 <= all[i].id < nextId' {
      if i >= m {
        assert all[i] == rows[i - m];
      }
    }
    forall i, j | 0 <= i < j < |all| ensures all[i].id != all[j].id {
      if i >= m {
        assert all[i] == rows[i - m] && all[j] == rows[j - m];
      } else if j >= m {
        assert all[j] == rows[j - m];
      }
    }
  }

  /** Buy-history rows numbered from 1 stay so when the rows numbered from the next id follow. */
  lemma BuyIdsAppend(before: seq<BuyHistoryRow>, kept: seq<BuyEntry>, accounts: map<string, Account>,
                     security: SecurityData)
    requires forall i :: 0 <= i < |before| ==> before[i].id == i + 1
    ensures var all := before + BuyRows(kept, accounts, security, |before| + 1);
      forall i :: 0 <= i < |all| ==> all[i].id == i + 1
  {
  }

  /** Sell-history rows numbered from 1 stay so when the rows numbered from the next id follow. */
  lemma SellIdsAppend(before: seq<SellHistoryRow>, kept: seq<SellEntry>, accounts: map<string, Account>,
                      security: SecurityData)
    requires forall i :: 0 <= i < |before| ==> before[i].id == i + 1
    ensures var all := before + SellRows(kept, accounts, security, |before| + 1);
      forall i :: 0 <= i < |all| ==> all[i].id == i + 1
  {
  }

  /** Recording one more security keeps the rows numbered from one. */
  lemma RecordSecurityNumbered(before: Recorded, security: SecurityData, accountIdFilter: string,
                               accounts: map<string, Account>)
    requires NumberedFromOne(before)
    ensures NumberedFromOne(RecordSecurity(before, security, accountIdFilter, accounts))
  {
    var buys := Filter(security.buyHistory, BuyCounts(accountIdFilter));
    var sells := Filter(security.sellHistory, SellCounts(accountIdFilter));
    var t := Trades(buys, sells, accounts, security, before.tradeId);
    var rows := TradeRows(buys, sells, accounts, security, before.tradeId);
    var r := RecordSecurity(before, security, accountIdFilter, accounts);
    assert r.trades == before.trades + rows && r.tradeId == t.nextId;
    TradesNumbered(buys, sells, accounts, security, before.tradeId);
    TradeIdsAppend(before.trades, rows, before.tradeId, t.nextId);
    assert r.buyHistory == before.buyHistory + BuyRows(buys, accounts, security, |before.buyHistory| + 1);
    BuyIdsAppend(before.buyHistory, buys, accounts, security);
    assert r.sellHistory == before.sellHistory + SellRows(sells, accounts, security, |before.sellHistory| + 1);
    SellIdsAppend(before.sellHistory, sells, accounts, security);
  }

  /** The rows the loop of `assemble` records from fresh counters are numbered from one. */
  lemma {:induction false} RecordedNumbered(done: seq<SecurityData>, accountIdFilter: string,
                                            accounts: map<string, Account>, historicals: map<string, Historical>,
                                            exchangeRates: map<string, ExchangeRate>, target: string)
    ensures NumberedFromOne(RecordedOf(done, accountIdFilter, accounts, historicals, exchangeRates, target,
                                       NOTHING_RECORDED))
  {
    if done != [] {
      var n := |done| - 1;
      RecordedNumbered(done[..n], accountIdFilter, accounts, historicals, exchangeRates, target);
      var before := RecordedOf(done[..n], accountIdFilter, accounts, historicals, exchangeRates, target, NOTHING_RECORDED);
      if SourcesOf(done[n], historicals, exchangeRates, target).Some? {
        RecordSecurityNumbered(before, done[n], accountIdFilter, accounts);
      }
    }
  }

  /**
   * Every day of `points` keeps its time and has on top of its value in
   * `original` what the securities `done` add to that day.
   */
  ghost predicate Raised(points: seq<ChartDataPoint>, original: seq<ChartDataPoint>, done: seq<SecurityData>,
                         accountIdFilter: string, historicals: map<string, Historical>,
                         exchangeRates: map<string, ExchangeRate>, target: string)
  {
    && |points| == |original|
    && forall i :: 0 <= i < |points| ==>
         && points[i].time == original[i].time
         && points[i].value
              == original[i].value + ChartValue(done, accountIdFilter, historicals, exchangeRates, target, original[i].time)
  }

  /** Every day of `points` is that of `before` with the value `security` adds to that day on top. */
  ghost predicate RaisedBy(points: seq<ChartDataPoint>, before: seq<ChartDataPoint>, security: SecurityData,
                           accountIdFilter: string, historicals: map<string, Historical>,
                           exchangeRates: map<string, ExchangeRate>, target: string)
  {
    && |points| == |before|
    && forall j :: 0 <= j < |points| ==>
         points[j] == before[j].(value := before[j].value
                                          + Contribution(security, accountIdFilter, historicals, exchangeRates, target,
                                                         before[j].time))
  }

  /** One more security's values added to every day keeps the chart raised by the securities so far. */
  lemma RaisedStep(points: seq<ChartDataPoint>, before: seq<ChartDataPoint>, original: seq<ChartDataPoint>,
                   done: seq<SecurityData>, i: nat, accountIdFilter: string, historicals: map<string, Historical>,
                   exchangeRates: map<string, ExchangeRate>, target: string)
    requires i < |done|
    requires Raised(before, original, done[..i], accountIdFilter, historicals, exchangeRates, target)
    requires RaisedBy(points, before, done[i], accountIdFilter, historicals, exchangeRates, target)
    ensures Raised(points, original, done[..i + 1], accountIdFilter, historicals, exchangeRates, target)
  {
    ChartValueSnoc(done, i, accountIdFilter, historicals, exchangeRates, target);
  }

  /** The stored data the cursors rely on: every history in date order. */
  ghost predicate InDateOrder(securities: seq<SecurityData>, historicals: map<string, Historical>,
                              exchangeRates: map<string, ExchangeRate>)
  {
    && (forall s :: s in securities ==> SortedBy(s.buyHistory, BuyDate) && SortedBy(s.sellHistory, SellDate))
    && (forall k :: k in historicals ==> SortedBy(historicals[k].entries, EntryDate))
    && (forall c :: c in exchangeRates ==> SortedBy(exchangeRates[c].entries, EntryDate))
  }

  /**
   * The chart `assemble` builds: one point per day from `start` through
   * `today`, each day valued at what the securities `done` add to it, except
   * today's, which carries the combined market value.
   */
  ghost predicate ChartOfDays(chart: seq<ChartDataPoint>, start: int, today: int, done: seq<SecurityData>,
                              accountIdFilter: string, historicals: map<string, Historical>,
                              exchangeRates: map<string, ExchangeRate>, target: string, value: real)
  {
    && |chart| == today - start + 1
    && forall i :: 0 <= i < |chart| ==>
         chart[i] == ChartDataPoint(start + i, if start + i == today then value
                                               else ChartValue(done, accountIdFilter, historicals, exchangeRates, target,
                                                               start + i))
  }

  /**
   * Sorting the chart after today's point is set changes nothing: the days
   * are distinct and already in order, so the sorted chart is the one built.
   */
  lemma FinalChart(valued: seq<ChartDataPoint>, chart: seq<ChartDataPoint>, start: int, today: int,
                   done: seq<SecurityData>, accountIdFilter: string, historicals: map<string, Historical>,
                   exchangeRates: map<string, ExchangeRate>, target: string, value: real)
    requires start <= today
    requires Raised(valued, Days(start, today), done, accountIdFilter, historicals, exchangeRates, target)
    requires SortedBy(chart, PointTime) && multiset(chart) == multiset(WithToday(valued, today, value))
    ensures ChartOfDays(chart, start, today, done, accountIdFilter, historicals, exchangeRates, target, value)
  {
    var days := Days(start, today);
    assert forall i :: 0 <= i < |valued| ==>
      valued[i] == ChartDataPoint(start + i, ChartValue(done, accountIdFilter, historicals, exchangeRates, target, start + i));
    var last := WithToday(valued, today, value);
    assert |last| == |valued|;
    assert StrictlySortedBy(last, PointTime);
    SortedUnique(chart, last, PointTime);
  }

  /** The currencies of the fetched price histories, one per selected security that has one. */
  function CurrencyCodes(symbols: seq<string>, historicals: map<string, Historical>): (codes: seq<string>)
    ensures forall c :: c in codes <==> exists s :: s in symbols && s in historicals && historicals[s].currency == c
  {
    if symbols == [] then []
    else
      var rest := CurrencyCodes(symbols[1..], historicals);
      assert forall s :: s in symbols <==> s == symbols[0] || s in symbols[1..];
      if symbols[0] in historicals then [historicals[symbols[0]].currency] + rest else rest
  }

  // ------------------------------------------------------------------------
  // The assembler
  // ------------------------------------------------------------------------

  class PortfolioDataAssembler {
    const values: PortfolioFilterValues
    const service: QuoteService
    const idGen: IdGenerator
    var securities: OMap<string, SecurityData>
    var accounts: map<string, Account>
    var dataPoints: seq<ChartDataPoint>
    var result: PortfolioData

    constructor (values: PortfolioFilterValues)
      ensures this.values == values && fresh(service) && fresh(idGen)
      ensures service.targetCurrency == DEFAULT_CURRENCY && service.quotes == map[]
      ensures idGen.Valid() && idGen.holdingId == 1
      ensures idGen.tradeId == 1 && idGen.buyHistoryId == 1 && idGen.sellHistoryId == 1
      ensures securities == EmptyMap() && accounts == map[] && dataPoints == [] && result == EMPTY_RESULT
    {
      this.values := values;
      service := new QuoteService();
      idGen := new IdGenerator();
      securities := EmptyMap();
      accounts := map[];
      dataPoints := [];
      result := EMPTY_RESULT;
    }

    /** The history and trade rows in the result, and the counters the next ones are numbered from. */
    ghost function RecordedSoFar(): Recorded
      reads this, idGen
    {
      Recorded(result.buyHistory, result.sellHistory, result.trades, idGen.buyHistoryId, idGen.sellHistoryId,
               idGen.tradeId)
    }

    /** `initialiseSecurities`: keeps the stored securities that match the filter, keyed by symbol. */
    method InitialiseSecurities(store: seq<SecurityData>)
      modifies this
      ensures securities == Select(values, store)
      ensures accounts == old(accounts) && dataPoints == old(dataPoints) && result == old(result)
    {
      var selected := EmptyMap();
      var i := 0;
      while i < |store|
        invariant i <= |store|
        invariant selected == Select(values, store[..i])
        modifies {}
      {
        SelectSnoc(values, store, i);
        if Matches(values, store[i]) {
          selected := selected.Set(store[i].symbol, store[i]);
        }
        i := i + 1;
      }
      assert store[..i] == store;
      securities := selected;
    }

    /** `initialiseDataPoints`: appends one zero-valued point per day from `start` through `today`. */
    method InitialiseDataPoints(start: int, today: int)
      modifies this
      ensures dataPoints == old(dataPoints) + Days(start, today)
      ensures securities == old(securities) && accounts == old(accounts) && result == old(result)
    {
      var points := dataPoints;
      var currentDate := start;
      while currentDate <= today
        invariant start <= currentDate || currentDate == start
        invariant (start <= today ==> currentDate <= today + 1) && (start > today ==> currentDate == start)
        invariant points + Days(currentDate, today) == old(dataPoints) + Days(start, today)
        decreases today - currentDate
      {
        assert Days(currentDate, today) == [ChartDataPoint(currentDate, 0.0)] + Days(currentDate + 1, today);
        points := points + [ChartDataPoint(currentDate, 0.0)];
        currentDate := currentDate + 1;
      }
      dataPoints := points;
    }

    /**
     * `processDataPoints`: adds to every day the value `security` had on it,
     * walking the days in order with a unit tracker, a price cursor and a
     * rate cursor. The days must be ascending, as the cursors only move forward.
     */
    method ProcessDataPoints(security: SecurityData, historicalEntries: seq<SeriesEntry>,
                             exchangeRateEntries: Option<seq<SeriesEntry>>)
      requires SortedBy(security.buyHistory, BuyDate) && SortedBy(security.sellHistory, SellDate)
      requires historicalEntries != [] && SortedBy(historicalEntries, EntryDate)
      requires exchangeRateEntries.Some? ==>
        exchangeRateEntries.value != [] && SortedBy(exchangeRateEntries.value, EntryDate)
      requires SortedBy(dataPoints, PointTime)
      modifies this
      ensures |dataPoints| == |old(dataPoints)|
      ensures forall i :: 0 <= i < |dataPoints| ==>
        dataPoints[i] == ValuedPoint(old(dataPoints[i]), security, values.accountId, historicalEntries, exchangeRateEntries)
      ensures securities == old(securities) && accounts == old(accounts) && result == old(result)
    {
      var tracker := new UnitTracker(security.buyHistory, security.sellHistory, values.accountId);
      var prices := new EntryIterator(historicalEntries);
      var rates := OneToOne;
      if exchangeRateEntries.Some? {
        var cursor := new EntryIterator(exchangeRateEntries.value);
        rates := Series(cursor);
      }
      var points := ValueDays(dataPoints, tracker, prices, rates, security, values.accountId,
                              historicalEntries, exchangeRateEntries);
      dataPoints := points;
    }

    /**
     * `processTradesAndHistory`: appends a history row per buy and sell entry
     * of the filtered account and one trade row per trade they belong to, all
     * numbered by the id generator, whose counters advance by the rows handed out.
     */
    method ProcessTradesAndHistory(security: SecurityData)
      requires idGen.Valid()
      modifies this, idGen
      ensures idGen.Valid()
      ensures var buys := Filter(security.buyHistory, BuyCounts(values.accountId));
        var sells := Filter(security.sellHistory, SellCounts(values.accountId));
        && result == old(result).(
             buyHistory := old(result.buyHistory) + BuyRows(buys, accounts, security, old(idGen.buyHistoryId)),
             sellHistory := old(result.sellHistory) + SellRows(sells, accounts, security, old(idGen.sellHistoryId)),
             trades := old(result.trades) + TradeRows(buys, sells, accounts, security, old(idGen.tradeId)))
        && idGen.buyHistoryId == old(idGen.buyHistoryId) + |buys|
        && idGen.sellHistoryId == old(idGen.sellHistoryId) + |sells|
        && idGen.tradeId == Trades(buys, sells, accounts, security, old(idGen.tradeId)).nextId
      ensures idGen.holdingId == old(idGen.holdingId)
      ensures securities == old(securities) && accounts == old(accounts) && dataPoints == old(dataPoints)
    {
      var buyRows, trades := RecordBuys(security, values.accountId, accounts, idGen);
      var sellRows, allTrades := RecordSells(security, values.accountId, accounts, idGen, trades);
      ghost var buys := Filter(security.buyHistory, BuyCounts(values.accountId));
      ghost var sells := Filter(security.sellHistory, SellCounts(values.accountId));
      ghost var firstTradeId := old(idGen.tradeId);
      assert TradeTable(allTrades, idGen.tradeId) == Trades(buys, sells, accounts, security, firstTradeId);
      ghost var tradeRows := TradeRows(buys, sells, accounts, security, firstTradeId);
      result := result.(buyHistory := result.buyHistory + buyRows,
                        sellHistory := result.sellHistory + sellRows,
                        trades := result.trades + allTrades.Values());
    }

    /**
     * `processHoldingAndDataPointsWithQuotes`: the holdings table with every
     * row's weight, today's point of the chart set to the combined market
     * value, the chart in time order, and the page's totals in the target
     * currency. The weight divides a row's value in the security's own
     * currency by the combined value in the target currency, as the source
     * does. Each security is valued at the stored quotes and the rates
     * `getQuote` returns with them, and `today` is the current day.
     */
    method ProcessHoldingAndDataPointsWithQuotes(today: int)
      requires idGen.Valid() && securities.Valid() && dataPoints != []
      modifies this, idGen
      ensures idGen.Valid() && securities == old(securities) && accounts == old(accounts)
      ensures var p := ProgressOf(old(securities).Values(), service.quotes, service.targetCurrency, values.accountId, today,
                                  old(idGen.holdingId));
        && Weighs(result.holdings, old(result.holdings) + p.rows, p.totals.value)
        && dataPoints == WithToday(old(dataPoints), today, p.totals.value)
        && Shows(result, p.totals)
        && idGen.holdingId == old(idGen.holdingId) + |p.rows|
      ensures SortedBy(result.chart, PointTime) && multiset(result.chart) == multiset(dataPoints)
      ensures result.currency == service.GetTargetCurrency()
      ensures result.trades == old(result.trades) && result.buyHistory == old(result.buyHistory)
      ensures result.sellHistory == old(result.sellHistory)
      ensures idGen.tradeId == old(idGen.tradeId) && idGen.buyHistoryId == old(idGen.buyHistoryId)
      ensures idGen.sellHistoryId == old(idGen.sellHistoryId)
    {
      var rows, totals := ValueHoldings(securities.Values(), service.quotes, service.GetTargetCurrency(), values.accountId,
                                        today, idGen);
      PublishHoldings(rows, totals, today);
    }

    /**
     * The second half of `processHoldingAndDataPointsWithQuotes`: the rows
     * weighed against the combined value, today's point set to it, the chart
     * sorted, and the totals and their quotients shown.
     */
    method PublishHoldings(rows: seq<HoldingRow>, totals: Totals, today: int)
      requires dataPoints != []
      modifies this
      ensures securities == old(securities) && accounts == old(accounts)
      ensures Weighs(result.holdings, old(result.holdings) + rows, totals.value)
      ensures dataPoints == WithToday(old(dataPoints), today, totals.value)
      ensures Shows(result, totals)
      ensures SortedBy(result.chart, PointTime) && multiset(result.chart) == multiset(dataPoints)
      ensures result.currency == service.GetTargetCurrency()
      ensures result.trades == old(result.trades) && result.buyHistory == old(result.buyHistory)
      ensures result.sellHistory == old(result.sellHistory)
    {
      var weighted := SetWeights(result.holdings + rows, totals.value);
      var last := |dataPoints| - 1;
      if dataPoints[last].time == today {
        dataPoints := dataPoints[last := dataPoints[last].(value := totals.value)];
      } else {
        dataPoints := dataPoints + [ChartDataPoint(today, totals.value)];
      }
      assert dataPoints == WithToday(old(dataPoints), today, totals.value);
      var todayChange := totals.value - totals.previousValue;
      var profitOrLoss := totals.value - totals.cost;
      result := result.(holdings := weighted,
                        chart := SortByKey(dataPoints, PointTime),
                        marketValue := totals.value,
                        todayChange := todayChange,
                        todayChangePerc := Quotient(todayChange, totals.previousValue),
                        profitOrLoss := profitOrLoss,
                        profitOrLossPerc := Quotient(profitOrLoss, totals.cost),
                        currency := service.GetTargetCurrency());
    }

    /**
     * One pass of the loop of `assemble`: a security whose histories are
     * usable has its value added to every day of the chart and its trade and
     * history rows recorded; otherwise it is skipped.
     */
    method ProcessSecurity(security: SecurityData, historicals: map<string, Historical>,
                           exchangeRates: map<string, ExchangeRate>)
      requires idGen.Valid() && SortedBy(dataPoints, PointTime)
      requires InDateOrder([security], historicals, exchangeRates)
      modifies this, idGen
      ensures idGen.Valid() && idGen.holdingId == old(idGen.holdingId)
      ensures securities == old(securities) && accounts == old(accounts)
      ensures SortedBy(dataPoints, PointTime)
      ensures RaisedBy(dataPoints, old(dataPoints), security, values.accountId, historicals, exchangeRates,
                       service.targetCurrency)
      ensures result == old(result).(trades := result.trades, buyHistory := result.buyHistory,
                                      sellHistory := result.sellHistory)
      ensures RecordedSoFar() ==
        if SourcesOf(security, historicals, exchangeRates, service.targetCurrency).Some?
        then RecordSecurity(old(RecordedSoFar()), security, values.accountId, accounts)
        else old(RecordedSoFar())
    {
      assert security in [security];
      ghost var recorded := RecordedSoFar();
      var sources := SourcesOf(security, historicals, exchangeRates, service.GetTargetCurrency());
      if sources.Some? {
        ProcessDataPoints(security, sources.value.historicalEntries, sources.value.exchangeRateEntries);
        ProcessTradesAndHistory(security);
        assert RecordedSoFar() == RecordSecurity(recorded, security, values.accountId, accounts);
      }
    }

    /**
     * The loop of `assemble` over the selected securities: a security with
     * usable histories has its value added to every day of the chart and its
     * trade and history rows recorded; a skipped one changes nothing.
     */
    method ProcessSecurities(historicals: map<string, Historical>, exchangeRates: map<string, ExchangeRate>)
      requires idGen.Valid() && securities.Valid() && SortedBy(dataPoints, PointTime)
      requires InDateOrder(securities.Values(), historicals, exchangeRates)
      modifies this, idGen
      ensures idGen.Valid() && idGen.holdingId == old(idGen.holdingId)
      ensures securities == old(securities) && accounts == old(accounts)
      ensures Raised(dataPoints, old(dataPoints), securities.Values(), values.accountId, historicals, exchangeRates,
                     service.targetCurrency)
      ensures result == old(result).(trades := result.trades, buyHistory := result.buyHistory,
                                      sellHistory := result.sellHistory)
      ensures RecordedSoFar() == RecordedOf(securities.Values(), values.accountId, accounts, historicals, exchangeRates,
                                            service.targetCurrency, old(RecordedSoFar()))
    {
      var all := securities.Values();
      ghost var target := service.GetTargetCurrency();
      var i := 0;
      while i < |all|
        invariant i <= |all| && idGen.Valid() && idGen.holdingId == old(idGen.holdingId)
        invariant securities == old(securities) && accounts == old(accounts)
        invariant Raised(dataPoints, old(dataPoints), all[..i], values.accountId, historicals, exchangeRates, target)
        invariant SortedBy(dataPoints, PointTime)
        invariant result == old(result).(trades := result.trades, buyHistory := result.buyHistory,
                                          sellHistory := result.sellHistory)
        invariant RecordedSoFar() == RecordedOf(all[..i], values.accountId, accounts, historicals, exchangeRates, target,
                                                old(RecordedSoFar()))
      {
        ghost var before := dataPoints;
        RecordedOfSnoc(all, i, values.accountId, accounts, historicals, exchangeRates, target, old(RecordedSoFar()));
        ProcessSecurity(all[i], historicals, exchangeRates);
        RaisedStep(dataPoints, before, old(dataPoints), all, i, values.accountId, historicals, exchangeRates, target);
        i := i + 1;
      }
      assert all[..i] == all;
    }

    /**
     * The end of `assemble` once the quotes are in: the holdings step, after
     * which the chart holds exactly one point per day in order, with today's
     * carrying the combined market value.
     */
    method Finish(historicals: map<string, Historical>, exchangeRates: map<string, ExchangeRate>,
                  start: int, today: int)
      requires idGen.Valid() && securities.Valid() && start <= today && result.holdings == []
      requires Raised(dataPoints, Days(start, today), securities.Values(), values.accountId, historicals, exchangeRates,
                      service.targetCurrency)
      modifies this, idGen
      ensures securities == old(securities)
      ensures result.trades == old(result.trades) && result.buyHistory == old(result.buyHistory)
      ensures result.sellHistory == old(result.sellHistory)
      ensures var p := ProgressOf(securities.Values(), service.quotes, service.targetCurrency, values.accountId, today,
                                  old(idGen.holdingId));
        && result.currency == service.targetCurrency
        && Weighs(result.holdings, p.rows, p.totals.value)
        && Shows(result, p.totals)
        && ChartOfDays(result.chart, start, today, securities.Values(), values.accountId, historicals, exchangeRates,
                       service.targetCurrency, p.totals.value)
    {
      ghost var valued := dataPoints;
      ghost var p := ProgressOf(securities.Values(), service.quotes, service.targetCurrency, values.accountId, today,
                                idGen.holdingId);
      assert [] + p.rows == p.rows;
      assert dataPoints != [];
      ProcessHoldingAndDataPointsWithQuotes(today);
      FinalChart(valued, result.chart, start, today, securities.Values(), values.accountId, historicals,
                 exchangeRates, service.targetCurrency, result.marketValue);
    }

    /**
     * `assemble`, with every fetch already answered: `store` is the stored
     * securities, `historicals` and `exchangeRates` the fetched histories
     * (`None` when a fetch failed), `quoteResponse` the answer to the quote
     * request, and the chart runs from `start` (five years ago) through `today`.
     * It returns early, with what is built so far, when no security is
     * selected or a fetch failed.
     */
    method Assemble(store: seq<SecurityData>, currency: string, accountStore: map<string, Account>,
                    historicals: Option<map<string, Historical>>, exchangeRates: Option<map<string, ExchangeRate>>,
                    quoteResponse: Option<map<string, Quote>>, start: int, today: int)
      returns (r: PortfolioData)
      requires idGen.Valid() && dataPoints == [] && result == EMPTY_RESULT
      requires start <= today
      requires InDateOrder(store, if historicals.Some? then historicals.value else map[],
                           if exchangeRates.Some? then exchangeRates.value else map[])
      modifies this, idGen, service
      ensures r == result && securities == Select(values, store)
      ensures securities.keys == [] || historicals.None? || exchangeRates.None? ==> r == EMPTY_RESULT
      ensures securities.keys != [] && historicals.Some? && exchangeRates.Some? && quoteResponse.None? ==>
        r == EMPTY_RESULT.(trades := r.trades, buyHistory := r.buyHistory, sellHistory := r.sellHistory)
      ensures securities.keys != [] && historicals.Some? && exchangeRates.Some? ==>
        var recorded := RecordedOf(securities.Values(), values.accountId, accountStore, historicals.value,
                                   exchangeRates.value, currency,
                                   Recorded([], [], [], old(idGen.buyHistoryId), old(idGen.sellHistoryId),
                                            old(idGen.tradeId)));
        r.buyHistory == recorded.buyHistory && r.sellHistory == recorded.sellHistory && r.trades == recorded.trades
      ensures securities.keys != [] && historicals.Some? && exchangeRates.Some? && quoteResponse.Some? ==>
        var p := ProgressOf(securities.Values(), quoteResponse.value, currency, values.accountId, today,
                            old(idGen.holdingId));
        && service.quotes == quoteResponse.value
        && r.currency == currency
        && Weighs(r.holdings, p.rows, p.totals.value)
        && Shows(r, p.totals)
        && ChartOfDays(r.chart, start, today, securities.Values(), values.accountId, historicals.value,
                       exchangeRates.value, currency, p.totals.value)
    {
      InitialiseSecurities(store);
      if securities.keys == [] {
        return result;
      }
      service.SetTargetCurrency(currency);
      accounts := accountStore;
      if historicals.None? {
        return result;
      }
      var currencyCodes := CurrencyCodes(securities.keys, historicals.value);
      if exchangeRates.None? {
        return result;
      }
      InitialiseDataPoints(start, today);
      ProcessSecurities(historicals.value, exchangeRates.value);
      var requested, fetched := service.RequestQuoteData(securities.keys, currencyCodes, quoteResponse);
      if fetched.Fail? {
        return result;
      }
      Finish(historicals.value, exchangeRates.value, start, today);
      r := result;
    }
  }

  /**
   * `getPortfolioData`: a fresh assembler's result. With every fetch answered,
   * the holdings are numbered from 1, each row's weight is its market value
   * over the combined market value, and the chart has one point per day from
   * `start` through `today`, today's carrying the combined market value.
   */
  method GetPortfolioData(values: PortfolioFilterValues, store: seq<SecurityData>, currency: string,
                          accountStore: map<string, Account>, historicals: Option<map<string, Historical>>,
                          exchangeRates: Option<map<string, ExchangeRate>>, quoteResponse: Option<map<string, Quote>>,
                          start: int, today: int)
    returns (r: PortfolioData)
    requires start <= today
    requires InDateOrder(store, if historicals.Some? then historicals.value else map[],
                         if exchangeRates.Some? then exchangeRates.value else map[])
    ensures var selected := Select(values, store);
      selected.keys == [] || historicals.None? || exchangeRates.None? ==> r == EMPTY_RESULT
    ensures var selected := Select(values, store);
      selected.keys != [] && historicals.Some? && exchangeRates.Some? && quoteResponse.None? ==>
        r == EMPTY_RESULT.(trades := r.trades, buyHistory := r.buyHistory, sellHistory := r.sellHistory)
    ensures var selected := Select(values, store);
      selected.keys != [] && historicals.Some? && exchangeRates.Some? && quoteResponse.Some? ==>
        && r.currency == currency
        && (forall i :: 0 <= i < |r.holdings| ==>
              && r.holdings[i].id == i + 1
              && IsQuotient(r.holdings[i].weightPerc, r.holdings[i].marketValue, r.marketValue))
        && ChartOfDays(r.chart, start, today, selected.Values(), values.accountId, historicals.value,
                       exchangeRates.value, currency, r.marketValue)
    ensures var selected := Select(values, store);
      selected.keys != [] && historicals.Some? && exchangeRates.Some? && quoteResponse.Some? ==>
        var p := ProgressOf(selected.Values(), quoteResponse.value, currency, values.accountId, today, 1);
        Weighs(r.holdings, p.rows, p.totals.value) && Shows(r, p.totals)
    ensures var selected := Select(values, store);
      selected.keys != [] && historicals.Some? && exchangeRates.Some? ==>
        var recorded := RecordedOf(selected.Values(), values.accountId, accountStore, historicals.value,
                                   exchangeRates.value, currency, NOTHING_RECORDED);
        && r.buyHistory == recorded.buyHistory && r.sellHistory == recorded.sellHistory
        && r.trades == recorded.trades
        && (forall i :: 0 <= i < |r.buyHistory| ==> r.buyHistory[i].id == i + 1)
        && (forall i :: 0 <= i < |r.sellHistory| ==> r.sellHistory[i].id == i + 1)
        && (forall i, j :: 0 <= i < j < |r.trades| ==> r.trades[i].id != r.trades[j].id)
  {
    var assembler := new PortfolioDataAssembler(values);
    r := assembler.Assemble(store, currency, accountStore, historicals, exchangeRates, quoteResponse, start, today);
    if assembler.securities.keys != [] && historicals.Some? && exchangeRates.Some? {
      RecordedNumbered(assembler.securities.Values(), values.accountId, accountStore, historicals.value,
                       exchangeRates.value, currency);
    }
    if assembler.securities.keys != [] && historicals.Some? && exchangeRates.Some? && quoteResponse.Some? {
      var selected := assembler.securities.Values();
      ghost var p := ProgressOf(selected, quoteResponse.value, currency, values.accountId, today, 1);
      ProgressRows(selected, quoteResponse.value, currency, values.accountId, today, 1);
      assert Weighs(r.holdings, p.rows, p.totals.value) && r.marketValue == p.totals.value;
      forall i | 0 <= i < |r.holdings|
        ensures r.holdings[i].id == i + 1
        ensures IsQuotient(r.holdings[i].weightPerc, r.holdings[i].marketValue, r.marketValue)
      {
        assert r.holdings[i] == Weighted(p.rows[i], p.totals.value);
      }
    }
  }
}

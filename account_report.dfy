/**
 * The "Accounts" page of electron/api/accounts.ts: one row per account with
 * its realised profit from the sell history, and its market value, cost and
 * today's change from the open lots priced by the latest quotes. Each row
 * is kept in a map under the account id while the figures are accumulated.
 */
module AccountReport {
  import opened Wrappers
  import opened Seqs
  import opened Sums
  import opened Records
  import opened OrderedMaps
  import opened Quotes
  import opened TextOrder
  import opened AccountStore

  /** The figures summed up for one account. */
  datatype AccountDataInternal = AccountDataInternal(
    name: string,
    accountId: string,
    todayChange: real,
    realisedProfitOrLoss: real,
    realisedTotal: real,
    marketValue: real,
    totalCost: real)

  /** A row of the page. A percentage whose denominator is zero is `None`. */
  datatype AccountData = AccountData(
    name: string,
    accountId: string,
    todayChange: real,
    todayChangePerc: Option<real>,
    unrealisedProfitOrLoss: real,
    unrealisedProfitOrLossPerc: Option<real>,
    realisedProfitOrLoss: real,
    realisedProfitOrLossPerc: Option<real>,
    marketValue: real,
    totalCost: real,
    currency: string)

  type Rows = OMap<string, AccountDataInternal>

  /** Both maps list the same account ids, with the same names, in the same order. */
  predicate SameAccounts(before: Rows, after: Rows) {
    && after.keys == before.keys
    && after.entries.Keys == before.entries.Keys
    && (forall k :: k in after.entries ==>
          after.entries[k].name == before.entries[k].name && after.entries[k].accountId == before.entries[k].accountId)
  }

  /** The map's shape is all `Valid` looks at, so rows with the same accounts are equally well formed. */
  lemma SameAccountsValid(before: Rows, after: Rows)
    requires SameAccounts(before, after)
    ensures before.Valid() <==> after.Valid()
  {
  }

  // ------------------------------------------------------------------------
  // Initial rows
  // ------------------------------------------------------------------------

  function ZeroRow(account: Account): AccountDataInternal {
    AccountDataInternal(account.name, account.accountId, 0.0, 0.0, 0.0, 0.0, 0.0)
  }

  predicate IsZero(row: AccountDataInternal) {
    row.todayChange == 0.0 && row.realisedProfitOrLoss == 0.0 && row.realisedTotal == 0.0
    && row.marketValue == 0.0 && row.totalCost == 0.0
  }

  function Ids(accounts: seq<Account>): (ids: seq<string>)
    ensures |ids| == |accounts|
    ensures forall i :: 0 <= i < |accounts| ==> ids[i] == accounts[i].accountId
  {
    seq(|accounts|, i requires 0 <= i < |accounts| => accounts[i].accountId)
  }

  /**
   * The map `assemble` starts from: a zero-valued row under each account's
   * id, in the order the accounts are listed.
   */
  function ZeroRows(accounts: seq<Account>): (rows: Rows)
    ensures rows.Valid()
    ensures forall k :: k in rows.entries <==> k in Ids(accounts)
    ensures forall k :: k in rows.entries ==> IsZero(rows.entries[k]) && rows.entries[k].accountId == k
  {
    if accounts == [] then EmptyMap()
    else
      var n := |accounts| - 1;
      var front := accounts[..n];
      assert Ids(accounts) == Ids(front) + [accounts[n].accountId];
      ZeroRows(front).Set(accounts[n].accountId, ZeroRow(accounts[n]))
  }

  /** With distinct ids the map lists the accounts in their order, each under its own zero row. */
  lemma {:induction false} ZeroRowsInOrder(accounts: seq<Account>)
    requires Distinct(Ids(accounts))
    ensures ZeroRows(accounts).keys == Ids(accounts)
    ensures forall i :: 0 <= i < |accounts| ==> ZeroRows(accounts).entries[accounts[i].accountId] == ZeroRow(accounts[i])
  {
    if accounts != [] {
      var n := |accounts| - 1;
      var front := accounts[..n];
      assert Ids(accounts) == Ids(front) + [accounts[n].accountId];
      assert Distinct(Ids(front)) && accounts[n].accountId !in Ids(front);
      ZeroRowsInOrder(front);
      forall i | 0 <= i < |accounts|
        ensures ZeroRows(accounts).entries[accounts[i].accountId] == ZeroRow(accounts[i])
      {
        if i < n {
          assert Ids(accounts)[i] == accounts[i].accountId != accounts[n].accountId;
        }
      }
    }
  }

  // ------------------------------------------------------------------------
  // Realised profit or loss
  // ------------------------------------------------------------------------

  /** Every sell-history entry of every security, security by security. */
  function AllSells(securities: seq<SecurityData>): seq<SellEntry> {
    if securities == [] then []
    else AllSells(securities[..|securities| - 1]) + securities[|securities| - 1].sellHistory
  }

  /** Adds a sell-history entry to its account's realised figures; one of an unknown account is skipped. */
  function Realise(rows: Rows, e: SellEntry): (r: Rows)
    ensures SameAccounts(rows, r)
  {
    if e.accountId in rows.entries then
      var row := rows.entries[e.accountId];
      rows.Set(e.accountId, row.(realisedTotal := row.realisedTotal + e.total,
                                 realisedProfitOrLoss := row.realisedProfitOrLoss + e.profitOrLoss))
    else rows
  }

  function RealiseAll(rows: Rows, entries: seq<SellEntry>): (r: Rows)
    ensures SameAccounts(rows, r)
  {
    if entries == [] then rows
    else Realise(RealiseAll(rows, entries[..|entries| - 1]), entries[|entries| - 1])
  }

  function SoldBy(accountId: string): SellEntry -> bool {
    (e: SellEntry) => e.accountId == accountId
  }

  function SaleTotal(e: SellEntry): real { e.total }

  function SaleProfit(e: SellEntry): real { e.profitOrLoss }

  /**
   * Each account's realised total and profit grow by the sums over the sell
   * entries carrying its id; its other figures stay as they were.
   */
  lemma {:induction false} RealisedSums(rows: Rows, entries: seq<SellEntry>, accountId: string)
    requires accountId in rows.entries
    ensures var row := rows.entries[accountId];
      RealiseAll(rows, entries).entries[accountId] ==
        row.(realisedTotal := row.realisedTotal + Sum(Filter(entries, SoldBy(accountId)), SaleTotal),
             realisedProfitOrLoss := row.realisedProfitOrLoss + Sum(Filter(entries, SoldBy(accountId)), SaleProfit))
  {
    if entries != [] {
      var n := |entries| - 1;
      var e := entries[n];
      var before := RealiseAll(rows, entries[..n]);
      RealisedSums(rows, entries[..n], accountId);
      assert entries == entries[..n] + [e];
      assert RealiseAll(rows, entries) == Realise(before, e);
      RealiseRow(before, e, accountId);
      FilterSumSnoc(entries[..n], e, SoldBy(accountId), SaleTotal);
      FilterSumSnoc(entries[..n], e, SoldBy(accountId), SaleProfit);
    }
  }

  lemma RealiseRow(rows: Rows, e: SellEntry, accountId: string)
    requires accountId in rows.entries
    ensures var row := rows.entries[accountId];
      Realise(rows, e).entries[accountId] ==
        if e.accountId == accountId then
          row.(realisedTotal := row.realisedTotal + e.total,
               realisedProfitOrLoss := row.realisedProfitOrLoss + e.profitOrLoss)
        else row
  {
  }

  // ------------------------------------------------------------------------
  // Figures from quotes
  // ------------------------------------------------------------------------

  function MarketValueOf(p: Prices): Holding -> real {
    (h: Holding) => Worth(h.quantity, p.lastPrice, p.rate)
  }

  function CostOf(p: Prices): Holding -> real {
    (h: Holding) => Converted(h.price * h.quantity + h.brokerage + h.gst, p.rate)
  }

  /**
   * Today's change of a lot: against the previous close when it was bought
   * before today, against its buy price when bought today; both at the
   * previous day's rate.
   */
  function TodayChangeOf(p: Prices, today: int): Holding -> real {
    (h: Holding) =>
      if h.date < today then Worth(h.quantity, p.lastPrice, p.rate) - Worth(h.quantity, p.previousPrice, p.previousRate)
      else Worth(h.quantity, p.lastPrice, p.rate) - Worth(h.quantity, h.price, p.previousRate)
  }

  /** Adds an open lot to its account's figures; a lot of an unknown account is skipped. */
  function Value(rows: Rows, p: Prices, today: int, h: Holding): (r: Rows)
    ensures SameAccounts(rows, r)
  {
    if h.accountId in rows.entries then
      var row := rows.entries[h.accountId];
      rows.Set(h.accountId, row.(todayChange := row.todayChange + TodayChangeOf(p, today)(h),
                                 marketValue := row.marketValue + MarketValueOf(p)(h),
                                 totalCost := row.totalCost + CostOf(p)(h)))
    else rows
  }

  function ValueAll(rows: Rows, p: Prices, today: int, holdings: seq<Holding>): (r: Rows)
    ensures SameAccounts(rows, r)
  {
    if holdings == [] then rows
    else Value(ValueAll(rows, p, today, holdings[..|holdings| - 1]), p, today, holdings[|holdings| - 1])
  }

  function HeldBy(accountId: string): Holding -> bool {
    (h: Holding) => h.accountId == accountId
  }

  /**
   * Each account's today's change, market value and cost grow by the sums
   * over its lots; its realised figures stay as they were.
   */
  lemma {:induction false} ValuedSums(rows: Rows, p: Prices, today: int, holdings: seq<Holding>, accountId: string)
    requires accountId in rows.entries
    ensures var row := rows.entries[accountId];
      var own := Filter(holdings, HeldBy(accountId));
      ValueAll(rows, p, today, holdings).entries[accountId] ==
        row.(todayChange := row.todayChange + Sum(own, TodayChangeOf(p, today)),
             marketValue := row.marketValue + Sum(own, MarketValueOf(p)),
             totalCost := row.totalCost + Sum(own, CostOf(p)))
  {
    if holdings != [] {
      var n := |holdings| - 1;
      var h := holdings[n];
      var before := ValueAll(rows, p, today, holdings[..n]);
      ValuedSums(rows, p, today, holdings[..n], accountId);
      assert holdings == holdings[..n] + [h];
      assert ValueAll(rows, p, today, holdings) == Value(before, p, today, h);
      ValueRow(before, p, today, h, accountId);
      FilterSumSnoc(holdings[..n], h, HeldBy(accountId), TodayChangeOf(p, today));
      FilterSumSnoc(holdings[..n], h, HeldBy(accountId), MarketValueOf(p));
      FilterSumSnoc(holdings[..n], h, HeldBy(accountId), CostOf(p));
    }
  }

  lemma ValueRow(rows: Rows, p: Prices, today: int, h: Holding, accountId: string)
    requires accountId in rows.entries
    ensures var row := rows.entries[accountId];
      Value(rows, p, today, h).entries[accountId] ==
        if h.accountId == accountId then
          row.(todayChange := row.todayChange + TodayChangeOf(p, today)(h),
               marketValue := row.marketValue + MarketValueOf(p)(h),
               totalCost := row.totalCost + CostOf(p)(h))
        else row
  {
  }

  /** Folds the lots of every security with holdings and a usable quote into the rows. */
  function ValueSecurities(rows: Rows, securities: seq<SecurityData>, quotes: map<string, Quote>, target: string, today: int): (r: Rows)
    ensures SameAccounts(rows, r)
  {
    if securities == [] then rows
    else
      var n := |securities| - 1;
      var before := ValueSecurities(rows, securities[..n], quotes, target, today);
      var prices := PricesOf(quotes, target, securities[n].symbol);
      if securities[n].holdings == [] || prices.None? then before
      else ValueAll(before, prices.value, today, securities[n].holdings)
  }

  // ------------------------------------------------------------------------
  // Result rows
  // ------------------------------------------------------------------------

  function Abs(x: real): real {
    if x < 0.0 then -x else x
  }

  /**
   * `p` is the size of `num` relative to `den`: absent exactly when `den` is
   * zero, otherwise the non-negative factor that takes `|den|` to `|num|`.
   */
  ghost predicate IsRatio(p: Option<real>, num: real, den: real) {
    && (p.None? <==> den == 0.0)
    && (p.Some? ==> p.value >= 0.0 && p.value * Abs(den) == Abs(num))
  }

  /** `|num / den|`, or `None` when the denominator is zero. */
  function Perc(num: real, den: real): (p: Option<real>)
    ensures IsRatio(p, num, den)
  {
    if den != 0.0 then Some(Abs(num / den)) else None
  }

  /**
   * A row of the page: unrealised profit is market value less cost; the
   * percentages relate today's change to yesterday's value, the unrealised
   * profit to the cost and the realised profit to what the sold lots cost.
   */
  function ToAccountData(e: AccountDataInternal, currency: string): (d: AccountData)
    ensures d.name == e.name && d.accountId == e.accountId && d.currency == currency
    ensures d.todayChange == e.todayChange && d.realisedProfitOrLoss == e.realisedProfitOrLoss
    ensures d.marketValue == e.marketValue && d.totalCost == e.totalCost
    ensures d.unrealisedProfitOrLoss + d.totalCost == d.marketValue
    ensures IsRatio(d.todayChangePerc, d.todayChange, d.marketValue - d.todayChange)
    ensures IsRatio(d.unrealisedProfitOrLossPerc, d.unrealisedProfitOrLoss, d.totalCost)
    ensures IsRatio(d.realisedProfitOrLossPerc, d.realisedProfitOrLoss, e.realisedTotal - e.realisedProfitOrLoss)
  {
    var unrealised := e.marketValue - e.totalCost;
    AccountData(e.name, e.accountId, e.todayChange, Perc(e.todayChange, e.marketValue - e.todayChange),
                unrealised, Perc(unrealised, e.totalCost),
                e.realisedProfitOrLoss, Perc(e.realisedProfitOrLoss, e.realisedTotal - e.realisedProfitOrLoss),
                e.marketValue, e.totalCost, currency)
  }

  function DataName(d: AccountData): string { d.name }

  /** A row nothing has been added to: zero figures and every percentage `None`. */
  predicate IsZeroData(d: AccountData) {
    && d.todayChange == 0.0 && d.unrealisedProfitOrLoss == 0.0 && d.realisedProfitOrLoss == 0.0
    && d.marketValue == 0.0 && d.totalCost == 0.0
    && d.todayChangePerc.None? && d.unrealisedProfitOrLossPerc.None? && d.realisedProfitOrLossPerc.None?
  }

  function AllToAccountData(rows: seq<AccountDataInternal>, currency: string): (ds: seq<AccountData>)
    ensures |ds| == |rows|
    ensures forall i :: 0 <= i < |rows| ==> ds[i] == ToAccountData(rows[i], currency)
  {
    seq(|rows|, i requires 0 <= i < |rows| => ToAccountData(rows[i], currency))
  }

  /** `getResult`: one row per entry of the map, in the currency given, ordered by name. */
  function Results(rows: Rows, currency: string): (ds: seq<AccountData>)
    requires rows.Valid()
    ensures SortedByName(ds, DataName)
    ensures multiset(ds) == multiset(AllToAccountData(rows.Values(), currency))
    ensures |ds| == |rows.keys|
  {
    var unsorted := AllToAccountData(rows.Values(), currency);
    var sorted := SortByName(unsorted, DataName);
    assert |sorted| == |multiset(sorted)| == |multiset(unsorted)| == |unsorted|;
    sorted
  }

  /** Every row of the map appears among the results, turned into a page row. */
  lemma ResultsCover(rows: Rows, currency: string, accountId: string)
    requires rows.Valid() && accountId in rows.entries
    ensures ToAccountData(rows.entries[accountId], currency) in Results(rows, currency)
  {
    var i := IndexOf(rows.keys, accountId);
    var unsorted := AllToAccountData(rows.Values(), currency);
    assert unsorted[i] == ToAccountData(rows.entries[accountId], currency);
    assert unsorted[i] in multiset(unsorted);
  }

  /** Rows nothing has been added to give zero page rows. */
  lemma ZeroResults(rows: Rows, currency: string)
    requires rows.Valid()
    requires forall k :: k in rows.entries ==> IsZero(rows.entries[k])
    ensures forall d :: d in Results(rows, currency) ==> IsZeroData(d) && d.currency == currency
  {
    var unsorted := AllToAccountData(rows.Values(), currency);
    forall d | d in Results(rows, currency) ensures IsZeroData(d) && d.currency == currency {
      assert d in multiset(unsorted);
      var i :| 0 <= i < |unsorted| && unsorted[i] == d;
    }
  }

  // ------------------------------------------------------------------------
  // The assembler
  // ------------------------------------------------------------------------

  /** A security with any lot or history entry. */
  predicate HasData(s: SecurityData) {
    |s.buyHistory| > 0 || |s.sellHistory| > 0 || |s.holdings| > 0
  }

  function Symbols(securities: seq<SecurityData>): (symbols: seq<string>)
    ensures |symbols| == |securities|
  {
    seq(|securities|, i requires 0 <= i < |securities| => securities[i].symbol)
  }

  /** Securities without any data leave no sell entry to realise. */
  lemma {:induction false} NoDataNoSells(securities: seq<SecurityData>)
    requires forall i :: 0 <= i < |securities| ==> !HasData(securities[i])
    ensures AllSells(securities) == []
  {
    if securities != [] {
      NoDataNoSells(securities[..|securities| - 1]);
    }
  }

  lemma ZeroRowsSnoc(accounts: seq<Account>, i: nat)
    requires i < |accounts|
    ensures ZeroRows(accounts[..i + 1]) == ZeroRows(accounts[..i]).Set(accounts[i].accountId, ZeroRow(accounts[i]))
  {
    assert accounts[..i + 1][..i] == accounts[..i];
  }

  lemma AllSellsSnoc(securities: seq<SecurityData>, i: nat)
    requires i < |securities|
    ensures AllSells(securities[..i + 1]) == AllSells(securities[..i]) + securities[i].sellHistory
  {
    assert securities[..i + 1][..i] == securities[..i];
  }

  lemma RealiseAllSnoc(rows: Rows, sells: seq<SellEntry>, j: nat)
    requires j < |sells|
    ensures RealiseAll(rows, sells[..j + 1]) == Realise(RealiseAll(rows, sells[..j]), sells[j])
  {
    assert sells[..j + 1][..j] == sells[..j];
  }

  /** Realising two lists one after the other is realising them joined. */
  lemma {:induction false} RealiseAllAppend(rows: Rows, a: seq<SellEntry>, b: seq<SellEntry>)
    ensures RealiseAll(rows, a + b) == RealiseAll(RealiseAll(rows, a), b)
  {
    if b != [] {
      var n := |b| - 1;
      assert (a + b)[..|a + b| - 1] == a + b[..n];
      RealiseAllAppend(rows, a, b[..n]);
    } else {
      assert a + b == a;
    }
  }

  lemma ValueAllSnoc(rows: Rows, p: Prices, today: int, holdings: seq<Holding>, j: nat)
    requires j < |holdings|
    ensures ValueAll(rows, p, today, holdings[..j + 1]) == Value(ValueAll(rows, p, today, holdings[..j]), p, today, holdings[j])
  {
    assert holdings[..j + 1][..j] == holdings[..j];
  }

  lemma ValueSecuritiesSnoc(rows: Rows, securities: seq<SecurityData>, i: nat, quotes: map<string, Quote>, target: string, today: int)
    requires i < |securities|
    ensures var before := ValueSecurities(rows, securities[..i], quotes, target, today);
      var prices := PricesOf(quotes, target, securities[i].symbol);
      ValueSecurities(rows, securities[..i + 1], quotes, target, today) ==
        if securities[i].holdings == [] || prices.None? then before
        else ValueAll(before, prices.value, today, securities[i].holdings)
  {
    assert securities[..i + 1][..i] == securities[..i];
  }

  /** The inner loop of `processRealisedProfitOrLoss`: adds one security's sell entries. */
  method RealiseEach(rows: Rows, sells: seq<SellEntry>) returns (r: Rows)
    ensures r == RealiseAll(rows, sells)
  {
    r := rows;
    var j := 0;
    while j < |sells|
      invariant j <= |sells|
      invariant r == RealiseAll(rows, sells[..j])
    {
      RealiseAllSnoc(rows, sells, j);
      r := Realise(r, sells[j]);
      j := j + 1;
    }
    assert sells[..j] == sells;
  }

  /** The inner loop of `processDataWithQuotes`: adds one security's lots. */
  method ValueEach(rows: Rows, p: Prices, today: int, holdings: seq<Holding>) returns (r: Rows)
    ensures r == ValueAll(rows, p, today, holdings)
  {
    r := rows;
    var j := 0;
    while j < |holdings|
      invariant j <= |holdings|
      invariant r == ValueAll(rows, p, today, holdings[..j])
    {
      ValueAllSnoc(rows, p, today, holdings, j);
      r := Value(r, p, today, holdings[j]);
      j := j + 1;
    }
    assert holdings[..j] == holdings;
  }

  /**
   * The page's assembler. It owns the quote service it fetches with, as the
   * source's class extends that service.
   */
  class AccountDataAssembler {
    const service: QuoteService
    var securities: seq<SecurityData>
    var accounts: seq<Account>
    var accountDataMap: Rows

    constructor ()
      ensures fresh(service)
      ensures service.targetCurrency == DEFAULT_CURRENCY && service.quotes == map[]
      ensures securities == [] && accounts == [] && accountDataMap == EmptyMap()
    {
      service := new QuoteService();
      securities := [];
      accounts := [];
      accountDataMap := EmptyMap();
    }

    /** One zero-valued row per account. */
    method InitialiseAccountData()
      modifies this
      ensures accountDataMap == ZeroRows(accounts)
      ensures securities == old(securities) && accounts == old(accounts)
    {
      var list := accounts;
      var rows := EmptyMap();
      var i := 0;
      while i < |list|
        invariant i <= |list|
        invariant rows == ZeroRows(list[..i])
        modifies {}
      {
        ZeroRowsSnoc(list, i);
        rows := rows.Set(list[i].accountId, ZeroRow(list[i]));
        i := i + 1;
      }
      assert list[..i] == list;
      accountDataMap := rows;
    }

    /** `processRealisedProfitOrLoss`: adds every sell-history entry to its account's realised figures. */
    method ProcessRealisedProfitOrLoss()
      modifies this
      ensures accountDataMap == RealiseAll(old(accountDataMap), AllSells(securities))
      ensures securities == old(securities) && accounts == old(accounts)
    {
      var list := securities;
      var start := accountDataMap;
      var rows := start;
      var i := 0;
      while i < |list|
        invariant i <= |list|
        invariant rows == RealiseAll(start, AllSells(list[..i]))
        modifies {}
      {
        rows := RealiseEach(rows, list[i].sellHistory);
        AllSellsSnoc(list, i);
        RealiseAllAppend(start, AllSells(list[..i]), list[i].sellHistory);
        i := i + 1;
      }
      assert list[..i] == list;
      accountDataMap := rows;
    }

    /**
     * `processDataWithQuotes`: values the lots of every security that has
     * some, skipping a security whose quote cannot be used.
     */
    method ProcessDataWithQuotes(today: int)
      modifies this
      ensures accountDataMap == ValueSecurities(old(accountDataMap), securities, service.quotes, service.targetCurrency, today)
      ensures securities == old(securities) && accounts == old(accounts)
    {
      var list := securities;
      var quotes, target := service.quotes, service.GetTargetCurrency();
      var start := accountDataMap;
      var rows := start;
      var i := 0;
      while i < |list|
        invariant i <= |list|
        invariant rows == ValueSecurities(start, list[..i], quotes, target, today)
        modifies {}
      {
        var holdings := list[i].holdings;
        var prices := PricesOf(quotes, target, list[i].symbol);
        ValueSecuritiesSnoc(start, list, i, quotes, target, today);
        if holdings != [] && prices.Some? {
          rows := ValueEach(rows, prices.value, today, holdings);
        }
        i := i + 1;
      }
      assert list[..i] == list;
      accountDataMap := rows;
    }

    /** `getResult`: the page rows, in the service's target currency, ordered by name. */
    function GetResult(): (ds: seq<AccountData>)
      requires accountDataMap.Valid()
      reads this, service
      ensures ds == Results(accountDataMap, service.GetTargetCurrency())
    {
      Results(accountDataMap, service.GetTargetCurrency())
    }

    /**
     * `assemble`, run after every fetch has finished. `historicalCurrencies`
     * are the currencies of the fetched price histories (`None` when the
     * fetch failed) and `quoteResponse` is the answer to the quote request.
     */
    method Assemble(currency: string, securityStore: OMap<string, SecurityData>, accountStore: OMap<string, Account>,
                    historicalCurrencies: Option<seq<string>>, quoteResponse: Option<map<string, Quote>>,
                    today: int)
      returns (result: seq<AccountData>)
      requires securityStore.Valid() && accountStore.Valid()
      modifies this, service
      ensures securities == securityStore.Values() && accounts == accountStore.Values()
      ensures service.targetCurrency == currency
      ensures var initial := ZeroRows(accounts);
        var realised := RealiseAll(initial, AllSells(securities));
        accountDataMap ==
          if (forall i :: 0 <= i < |securities| ==> !HasData(securities[i])) || historicalCurrencies.None? then initial
          else if quoteResponse.None? then realised
          else ValueSecurities(realised, securities, quoteResponse.value, currency, today)
      ensures result == Results(accountDataMap, currency)
      ensures accountDataMap.Valid() && SameAccounts(ZeroRows(accounts), accountDataMap)
      ensures (forall i :: 0 <= i < |securities| ==> !HasData(securities[i])) ==> accountDataMap == ZeroRows(accounts)
    {
      service.SetTargetCurrency(currency);
      securities := securityStore.Values();
      accounts := accountStore.Values();
      InitialiseAccountData();

      var symbols := Symbols(Filter(securities, HasData));
      if |symbols| == 0 {
        forall i | 0 <= i < |securities| ensures !HasData(securities[i]) {
          FilterMembers(securities, HasData, securities[i]);
        }
        return GetResult();
      }
      var withData := Filter(securities, HasData);
      assert withData[0] in withData;
      FilterMembers(securities, HasData, withData[0]);
      if historicalCurrencies.None? {
        return GetResult();
      }
      var requested, fetched := service.RequestQuoteData(symbols, historicalCurrencies.value, quoteResponse);
      ProcessRealisedProfitOrLoss();
      if fetched.Fail? {
        return GetResult();
      }
      ProcessDataWithQuotes(today);
      result := GetResult();
    }
  }

  /**
   * `getAccountData`: a fresh assembler's result. There is one row per
   * account, carrying its name and id, in the target currency and ordered by
   * name; when no security has any data every row is zero. Otherwise, with
   * the price histories fetched, the rows carry every account's realised
   * figures and, once the quotes are in, its lots valued at them.
   */
  method GetAccountData(currency: string, securityStore: OMap<string, SecurityData>, accountStore: OMap<string, Account>,
                        historicalCurrencies: Option<seq<string>>, quoteResponse: Option<map<string, Quote>>,
                        today: int)
    returns (result: seq<AccountData>)
    requires securityStore.Valid() && accountStore.Valid() && KeyedById(accountStore.entries)
    ensures |result| == |accountStore.keys|
    ensures SortedByName(result, DataName)
    ensures forall d :: d in result ==> d.currency == currency
    ensures forall k :: k in accountStore.entries ==>
      exists d :: d in result && d.accountId == k && d.name == accountStore.entries[k].name
    ensures (forall s :: s in securityStore.entries ==> !HasData(securityStore.entries[s])) ==>
      forall d :: d in result ==> IsZeroData(d)
    ensures var securities := securityStore.Values();
      var realised := RealiseAll(ZeroRows(accountStore.Values()), AllSells(securities));
      (exists i :: 0 <= i < |securities| && HasData(securities[i])) && historicalCurrencies.Some? ==>
        result == Results(if quoteResponse.None? then realised
                          else ValueSecurities(realised, securities, quoteResponse.value, currency, today), currency)
  {
    var assembler := new AccountDataAssembler();
    result := assembler.Assemble(currency, securityStore, accountStore, historicalCurrencies, quoteResponse, today);
    ResultsPerAccount(accountStore, assembler.accountDataMap, currency);
    if forall s :: s in securityStore.entries ==> !HasData(securityStore.entries[s]) {
      var securities := securityStore.Values();
      forall i | 0 <= i < |securities| ensures !HasData(securities[i]) {
        assert securityStore.keys[i] in securityStore.entries;
      }
      ZeroResults(assembler.accountDataMap, currency);
    }
  }

  /** Rows that started as one zero row per stored account give one page row per account. */
  lemma ResultsPerAccount(accountStore: OMap<string, Account>, rows: Rows, currency: string)
    requires accountStore.Valid() && KeyedById(accountStore.entries)
    requires rows.Valid() && SameAccounts(ZeroRows(accountStore.Values()), rows)
    ensures |Results(rows, currency)| == |accountStore.keys|
    ensures forall d :: d in Results(rows, currency) ==> d.currency == currency
    ensures forall k :: k in accountStore.entries ==>
      exists d :: d in Results(rows, currency) && d.accountId == k && d.name == accountStore.entries[k].name
  {
    StoreRows(accountStore, ZeroRows(accountStore.Values()));
    ResultsCurrency(rows, currency);
    var results := Results(rows, currency);
    forall k | k in accountStore.entries
      ensures exists d :: d in results && d.accountId == k && d.name == accountStore.entries[k].name
    {
      ResultsCover(rows, currency, k);
      var d := ToAccountData(rows.entries[k], currency);
      assert d in results && d.accountId == k && d.name == accountStore.entries[k].name;
    }
  }

  /** Every page row is in the currency asked for. */
  lemma ResultsCurrency(rows: Rows, currency: string)
    requires rows.Valid()
    ensures forall d :: d in Results(rows, currency) ==> d.currency == currency
  {
    var unsorted := AllToAccountData(rows.Values(), currency);
    forall d | d in Results(rows, currency) ensures d.currency == currency {
      assert d in multiset(unsorted);
    }
  }

  /** The zero rows of a store list its accounts under their ids, in its order, with their names. */
  lemma StoreRows(accountStore: OMap<string, Account>, zero: Rows)
    requires accountStore.Valid() && KeyedById(accountStore.entries)
    requires zero == ZeroRows(accountStore.Values())
    ensures zero.keys == accountStore.keys
    ensures forall k :: k in zero.entries <==> k in accountStore.entries
    ensures forall k :: k in zero.entries ==>
      zero.entries[k].name == accountStore.entries[k].name && zero.entries[k].accountId == k
  {
    var accounts := accountStore.Values();
    assert Ids(accounts) == accountStore.keys;
    ZeroRowsInOrder(accounts);
    forall k | k in zero.entries
      ensures zero.entries[k].name == accountStore.entries[k].name && zero.entries[k].accountId == k
    {
      var i := IndexOf(accountStore.keys, k);
      assert accounts[i] == accountStore.entries[k];
    }
  }
}

/**
 * The forward-only helpers of the portfolio report (electron/api/portfolio.ts):
 * a cursor over a dated price or exchange-rate series, a tracker of the units
 * held as time advances, and the counters that number report rows. Queries
 * must come in non-decreasing time order; each object keeps, as ghost state,
 * the last time it was asked about.
 */
module Cursors {
  import opened Wrappers
  import opened Seqs
  import opened Sums
  import opened Sorting
  import opened Records

  function EntryDate(e: SeriesEntry): int { e.date }

  /**
   * The entry a series cursor settles on for `time`: the last entry dated
   * strictly before `time`, or the first entry when there is none.
   */
  function LatestIndex(entries: seq<SeriesEntry>, time: int): (i: nat)
    requires entries != []
    ensures i < |entries|
    ensures i == 0 || entries[i].date < time
    ensures forall j :: i < j < |entries| ==> time <= entries[j].date
  {
    LatestUpTo(entries, time, |entries| - 1)
  }

  /** `LatestIndex` among the first `n + 1` entries. */
  function LatestUpTo(entries: seq<SeriesEntry>, time: int, n: nat): (i: nat)
    requires n < |entries|
    ensures i <= n
    ensures i == 0 || entries[i].date < time
    ensures forall j :: i < j <= n ==> time <= entries[j].date
  {
    if n == 0 || entries[n].date < time then n else LatestUpTo(entries, time, n - 1)
  }

  /** A later query never settles on an earlier entry. */
  lemma LatestIndexMonotone(entries: seq<SeriesEntry>, earlier: int, later: int)
    requires entries != [] && earlier <= later
    ensures LatestIndex(entries, earlier) <= LatestIndex(entries, later)
  {
    var i := LatestIndex(entries, earlier);
    if i > 0 {
      assert entries[i].date < later;
    }
  }

  /** On an ascending series, an index whose successor is dated at or after `time` is the one. */
  lemma LatestIndexStop(entries: seq<SeriesEntry>, time: int, k: nat)
    requires entries != [] && SortedBy(entries, EntryDate)
    requires k <= LatestIndex(entries, time)
    requires k + 1 == |entries| || time <= entries[k + 1].date
    ensures k == LatestIndex(entries, time)
  {
  }

  /** `EntryIterator`: a cursor over one ascending series, moved forward as later times are asked for. */
  class EntryIterator {
    const entries: seq<SeriesEntry>
    var index: nat
    ghost var last: Option<int>

    ghost predicate Valid()
      reads this
    {
      && entries != [] && SortedBy(entries, EntryDate)
      && index < |entries|
      && (last.None? ==> index == 0)
      && (last.Some? ==> index == LatestIndex(entries, last.value))
    }

    constructor (entries: seq<SeriesEntry>)
      requires entries != [] && SortedBy(entries, EntryDate)
      ensures Valid() && this.entries == entries && index == 0 && last == None
    {
      this.entries := entries;
      index := 0;
      last := None;
    }

    /**
     * `getEntryAtTime`: the entry the cursor settles on for `time`. The index
     * only moves forward, and asking again for the same time moves nothing.
     */
    method GetEntryAtTime(time: int) returns (e: SeriesEntry)
      requires Valid() && (last.None? || last.value <= time)
      modifies this
      ensures Valid() && last == Some(time)
      ensures index == LatestIndex(entries, time) && e == entries[index]
      ensures old(index) <= index
      ensures old(last) == Some(time) ==> index == old(index)
    {
      if last.Some? {
        LatestIndexMonotone(entries, last.value, time);
      }
      ghost var start := index;
      while index + 1 < |entries| && entries[index + 1].date < time
        invariant start <= index <= LatestIndex(entries, time)
        decreases |entries| - index
      {
        index := index + 1;
      }
      LatestIndexStop(entries, time, index);
      last := Some(time);
      e := entries[index];
    }
  }

  function BuyQuantity(e: BuyEntry): real { e.quantity }
  function SellQuantity(e: SellEntry): real { e.quantity }

  function BuyCounts(accountIdFilter: string): BuyEntry -> bool {
    (e: BuyEntry) => PassesFilter(accountIdFilter, e.accountId)
  }

  function SellCounts(accountIdFilter: string): SellEntry -> bool {
    (e: SellEntry) => PassesFilter(accountIdFilter, e.accountId)
  }

  function BoughtBefore(accountIdFilter: string, time: int): BuyEntry -> bool {
    (e: BuyEntry) => e.date < time && PassesFilter(accountIdFilter, e.accountId)
  }

  function SoldBefore(accountIdFilter: string, time: int): SellEntry -> bool {
    (e: SellEntry) => e.sellDate < time && PassesFilter(accountIdFilter, e.accountId)
  }

  /**
   * The units held at `time`: bought strictly before it less sold strictly
   * before it, over the entries of the filtered account (all of them for
   * the empty filter). Nothing clamps the result at zero.
   */
  function UnitsAt(buyHistory: seq<BuyEntry>, sellHistory: seq<SellEntry>, accountIdFilter: string, time: int): real {
    Sum(Filter(buyHistory, BoughtBefore(accountIdFilter, time)), BuyQuantity)
      - Sum(Filter(sellHistory, SoldBefore(accountIdFilter, time)), SellQuantity)
  }

  /** The units counted over a prefix of each history. */
  function UnitsOver(buys: seq<BuyEntry>, sells: seq<SellEntry>, accountIdFilter: string): real {
    Sum(Filter(buys, BuyCounts(accountIdFilter)), BuyQuantity)
      - Sum(Filter(sells, SellCounts(accountIdFilter)), SellQuantity)
  }

  /** Counting in buy entry `k` adds its units when it belongs to the filtered account. */
  lemma CountBuy(buys: seq<BuyEntry>, sells: seq<SellEntry>, accountIdFilter: string, k: nat)
    requires k < |buys|
    ensures UnitsOver(buys[..k + 1], sells, accountIdFilter) == UnitsOver(buys[..k], sells, accountIdFilter)
      + (if PassesFilter(accountIdFilter, buys[k].accountId) then buys[k].quantity else 0.0)
  {
    assert buys[..k + 1] == buys[..k] + [buys[k]];
    FilterSumSnoc(buys[..k], buys[k], BuyCounts(accountIdFilter), BuyQuantity);
  }

  /** Counting out sell entry `k` removes its units when it belongs to the filtered account. */
  lemma CountSell(buys: seq<BuyEntry>, sells: seq<SellEntry>, accountIdFilter: string, k: nat)
    requires k < |sells|
    ensures UnitsOver(buys, sells[..k + 1], accountIdFilter) == UnitsOver(buys, sells[..k], accountIdFilter)
      - (if PassesFilter(accountIdFilter, sells[k].accountId) then sells[k].quantity else 0.0)
  {
    assert sells[..k + 1] == sells[..k] + [sells[k]];
    FilterSumSnoc(sells[..k], sells[k], SellCounts(accountIdFilter), SellQuantity);
  }

  /**
   * On a list ascending by date, the elements dated before `time` that pass
   * `pass` are those of the prefix up to the first element dated at or after it.
   */
  lemma {:induction false} FilterBeforeBoundary<T>(s: seq<T>, date: T -> int, pass: T -> bool, before: T -> bool,
                                                  time: int, k: nat)
    requires SortedBy(s, date) && k <= |s|
    requires k == 0 || date(s[k - 1]) < time
    requires k < |s| ==> time <= date(s[k])
    requires forall x :: before(x) == (date(x) < time && pass(x))
    ensures Filter(s, before) == Filter(s[..k], pass)
  {
    if s != [] {
      if k == 0 {
        assert forall j :: 0 <= j < |s| ==> !before(s[j]) by {
          forall j | 0 <= j < |s| ensures !before(s[j]) {
            assert date(s[0]) <= date(s[j]);
          }
        }
        NoneKept(s, before);
      } else {
        assert SortedBy(s[1..], date);
        assert date(s[0]) <= date(s[k - 1]);
        FilterBeforeBoundary(s[1..], date, pass, before, time, k - 1);
        assert s[..k] == [s[0]] + s[1..][..k - 1];
        assert s[..k][1..] == s[1..][..k - 1];
      }
    }
  }

  lemma {:induction false} NoneKept<T>(s: seq<T>, p: T -> bool)
    requires forall j :: 0 <= j < |s| ==> !p(s[j])
    ensures Filter(s, p) == []
  {
    if s != [] {
      NoneKept(s[1..], p);
    }
  }

  /**
   * A tracker state that has counted exactly the entries dated before `time`:
   * the indexes stop at the first entries dated at or after it.
   */
  predicate Tracks(buys: seq<BuyEntry>, sells: seq<SellEntry>, accountIdFilter: string,
                   units: real, buyIndex: nat, sellIndex: nat, time: int)
  {
    && buyIndex <= |buys| && sellIndex <= |sells|
    && units == UnitsOver(buys[..buyIndex], sells[..sellIndex], accountIdFilter)
    && (buyIndex == 0 || buys[buyIndex - 1].date < time)
    && (buyIndex < |buys| ==> time <= buys[buyIndex].date)
    && (sellIndex == 0 || sells[sellIndex - 1].sellDate < time)
    && (sellIndex < |sells| ==> time <= sells[sellIndex].sellDate)
  }

  /** On ascending histories, a state that tracks `time` holds the units held at `time`. */
  lemma TracksUnitsAt(buys: seq<BuyEntry>, sells: seq<SellEntry>, accountIdFilter: string,
                      units: real, buyIndex: nat, sellIndex: nat, time: int)
    requires SortedBy(buys, BuyDate) && SortedBy(sells, SellDate)
    requires Tracks(buys, sells, accountIdFilter, units, buyIndex, sellIndex, time)
    ensures units == UnitsAt(buys, sells, accountIdFilter, time)
  {
    FilterBeforeBoundary(buys, BuyDate, BuyCounts(accountIdFilter), BoughtBefore(accountIdFilter, time),
                         time, buyIndex);
    FilterBeforeBoundary(sells, SellDate, SellCounts(accountIdFilter), SoldBefore(accountIdFilter, time),
                         time, sellIndex);
  }

  /**
   * `UnitTracker`: replays a security's buy and sell histories, both ascending
   * by date, keeping the units held before the last time asked about.
   */
  class UnitTracker {
    const buyHistory: seq<BuyEntry>
    const sellHistory: seq<SellEntry>
    const accountIdFilter: string
    var units: real
    var buyIndex: nat
    var sellIndex: nat
    ghost var last: Option<int>

    ghost predicate Valid()
      reads this
    {
      && SortedBy(buyHistory, BuyDate) && SortedBy(sellHistory, SellDate)
      && (last.None? ==> buyIndex == 0 && sellIndex == 0 && units == 0.0)
      && (last.Some? ==> Tracks(buyHistory, sellHistory, accountIdFilter, units, buyIndex, sellIndex, last.value))
    }

    constructor (buyHistory: seq<BuyEntry>, sellHistory: seq<SellEntry>, accountIdFilter: string)
      requires SortedBy(buyHistory, BuyDate) && SortedBy(sellHistory, SellDate)
      ensures Valid() && last == None
      ensures this.buyHistory == buyHistory && this.sellHistory == sellHistory
      ensures this.accountIdFilter == accountIdFilter
    {
      this.buyHistory := buyHistory;
      this.sellHistory := sellHistory;
      this.accountIdFilter := accountIdFilter;
      units, buyIndex, sellIndex := 0.0, 0, 0;
      last := None;
    }

    /** `getUnitsAtTime`: the units held at `time`, by the entries dated strictly before it. */
    method GetUnitsAtTime(time: int) returns (held: real)
      requires Valid() && (last.None? || last.value <= time)
      modifies this
      ensures Valid() && last == Some(time)
      ensures held == UnitsAt(buyHistory, sellHistory, accountIdFilter, time)
    {
      if last.None? {
        assert buyHistory[..0] == [] && sellHistory[..0] == [];
      }
      last := Some(time);
      AdvanceBuys(time);
      AdvanceSells(time);
      TracksUnitsAt(buyHistory, sellHistory, accountIdFilter, units, buyIndex, sellIndex, time);
      held := units;
    }

    /** The first loop of `getUnitsAtTime`: counts in the buy entries dated before `time`. */
    method AdvanceBuys(time: int)
      requires buyIndex <= |buyHistory| && sellIndex <= |sellHistory|
      requires units == UnitsOver(buyHistory[..buyIndex], sellHistory[..sellIndex], accountIdFilter)
      requires buyIndex == 0 || buyHistory[buyIndex - 1].date < time
      modifies this
      ensures buyIndex <= |buyHistory| && sellIndex == old(sellIndex) && last == old(last)
      ensures units == UnitsOver(buyHistory[..buyIndex], sellHistory[..sellIndex], accountIdFilter)
      ensures buyIndex == 0 || buyHistory[buyIndex - 1].date < time
      ensures buyIndex < |buyHistory| ==> time <= buyHistory[buyIndex].date
    {
      while buyIndex < |buyHistory| && buyHistory[buyIndex].date < time
        invariant buyIndex <= |buyHistory| && sellIndex == old(sellIndex) && last == old(last)
        invariant units == UnitsOver(buyHistory[..buyIndex], sellHistory[..sellIndex], accountIdFilter)
        invariant buyIndex == 0 || buyHistory[buyIndex - 1].date < time
        decreases |buyHistory| - buyIndex
      {
        var entry := buyHistory[buyIndex];
        if PassesFilter(accountIdFilter, entry.accountId) {
          units := units + entry.quantity;
        }
        CountBuy(buyHistory, sellHistory[..sellIndex], accountIdFilter, buyIndex);
        buyIndex := buyIndex + 1;
      }
    }

    /** The second loop of `getUnitsAtTime`: counts out the sell entries dated before `time`. */
    method AdvanceSells(time: int)
      requires buyIndex <= |buyHistory| && sellIndex <= |sellHistory|
      requires units == UnitsOver(buyHistory[..buyIndex], sellHistory[..sellIndex], accountIdFilter)
      requires sellIndex == 0 || sellHistory[sellIndex - 1].sellDate < time
      modifies this
      ensures sellIndex <= |sellHistory| && buyIndex == old(buyIndex) && last == old(last)
      ensures units == UnitsOver(buyHistory[..buyIndex], sellHistory[..sellIndex], accountIdFilter)
      ensures sellIndex == 0 || sellHistory[sellIndex - 1].sellDate < time
      ensures sellIndex < |sellHistory| ==> time <= sellHistory[sellIndex].sellDate
    {
      while sellIndex < |sellHistory| && sellHistory[sellIndex].sellDate < time
        invariant sellIndex <= |sellHistory| && buyIndex == old(buyIndex) && last == old(last)
        invariant units == UnitsOver(buyHistory[..buyIndex], sellHistory[..sellIndex], accountIdFilter)
        invariant sellIndex == 0 || sellHistory[sellIndex - 1].sellDate < time
        decreases |sellHistory| - sellIndex
      {
        var entry := sellHistory[sellIndex];
        if PassesFilter(accountIdFilter, entry.accountId) {
          units := units - entry.quantity;
        }
        CountSell(buyHistory[..buyIndex], sellHistory, accountIdFilter, sellIndex);
        sellIndex := sellIndex + 1;
      }
    }
  }

  /** `IdGenerator`: four counters, each handing out 1, 2, 3, … */
  class IdGenerator {
    var holdingId: int
    var tradeId: int
    var buyHistoryId: int
    var sellHistoryId: int

    ghost predicate Valid()
      reads this
    {
      holdingId >= 1 && tradeId >= 1 && buyHistoryId >= 1 && sellHistoryId >= 1
    }

    constructor ()
      ensures Valid()
      ensures holdingId == 1 && tradeId == 1 && buyHistoryId == 1 && sellHistoryId == 1
    {
      holdingId, tradeId, buyHistoryId, sellHistoryId := 1, 1, 1, 1;
    }

    /** Each id handed out is below every id the counter hands out later, so no two are equal. */
    method NextHoldingId() returns (id: int)
      requires Valid()
      modifies this
      ensures Valid() && id >= 1 && id < holdingId
      ensures id == old(holdingId) && holdingId == id + 1
      ensures tradeId == old(tradeId) && buyHistoryId == old(buyHistoryId) && sellHistoryId == old(sellHistoryId)
    {
      id := holdingId;
      holdingId := holdingId + 1;
    }

    method NextTradeId() returns (id: int)
      requires Valid()
      modifies this
      ensures Valid() && id >= 1 && id < tradeId
      ensures id == old(tradeId) && tradeId == id + 1
      ensures holdingId == old(holdingId) && buyHistoryId == old(buyHistoryId) && sellHistoryId == old(sellHistoryId)
    {
      id := tradeId;
      tradeId := tradeId + 1;
    }

    method NextBuyHistoryId() returns (id: int)
      requires Valid()
      modifies this
      ensures Valid() && id >= 1 && id < buyHistoryId
      ensures id == old(buyHistoryId) && buyHistoryId == id + 1
      ensures holdingId == old(holdingId) && tradeId == old(tradeId) && sellHistoryId == old(sellHistoryId)
    {
      id := buyHistoryId;
      buyHistoryId := buyHistoryId + 1;
    }

    method NextSellHistoryId() returns (id: int)
      requires Valid()
      modifies this
      ensures Valid() && id >= 1 && id < sellHistoryId
      ensures id == old(sellHistoryId) && sellHistoryId == id + 1
      ensures holdingId == old(holdingId) && tradeId == old(tradeId) && buyHistoryId == old(buyHistoryId)
    {
      id := sellHistoryId;
      sellHistoryId := sellHistoryId + 1;
    }
  }
}

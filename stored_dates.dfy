/**
 * The stored date texts, written "DD/MM/YYYY hh:mm A", and the two ways the
 * holdings step reads them: `dayjsParse`, which gives the format, and a bare
 * `dayjs(text)`, which does not and so reads the text month first, the way
 * the JavaScript `Date` constructor reads "MM/DD/YYYY".
 */
module StoredDates {
  import opened Wrappers

  /** A stored date text, its fields as written (the hour on a 24-hour clock). */
  datatype DateText = DateText(day: int, month: int, year: int, hour: int, minute: int)

  /** The texts the date pickers write. */
  predicate WellFormed(d: DateText) {
    1 <= d.day <= 31 && 1 <= d.month <= 12 && 0 <= d.year && 0 <= d.hour < 24 && 0 <= d.minute < 60
  }

  /** Minutes since the start of year 0, one position per minute (every month has room for 31 days). */
  function Instant(year: int, month: int, day: int, hour: int, minute: int): int {
    (((year * 12 + (month - 1)) * 31 + (day - 1)) * 24 + hour) * 60 + minute
  }

  /** Year, month, day, hour and minute in lexicographic order. */
  predicate Precedes(a: DateText, b: DateText) {
    || a.year < b.year
    || (a.year == b.year && a.month < b.month)
    || (a.year == b.year && a.month == b.month && a.day < b.day)
    || (a.year == b.year && a.month == b.month && a.day == b.day && a.hour < b.hour)
    || (a.year == b.year && a.month == b.month && a.day == b.day && a.hour == b.hour && a.minute < b.minute)
  }

  /** `dayjsParse`: the text read with its own format. */
  function FormatParse(d: DateText): int {
    Instant(d.year, d.month, d.day, d.hour, d.minute)
  }

  /**
   * Reading with the format orders two well-formed texts as their calendar
   * fields do.
   */
  lemma FormatParseOrder(a: DateText, b: DateText)
    requires WellFormed(a) && WellFormed(b)
    ensures FormatParse(a) < FormatParse(b) <==> Precedes(a, b)
  {
    var ma := (a.year * 12 + (a.month - 1)) * 31 + (a.day - 1);
    var mb := (b.year * 12 + (b.month - 1)) * 31 + (b.day - 1);
    assert FormatParse(a) == (ma * 24 + a.hour) * 60 + a.minute;
    assert FormatParse(b) == (mb * 24 + b.hour) * 60 + b.minute;
    MixedRadixOrder(ma * 24 + a.hour, a.minute, mb * 24 + b.hour, b.minute, 60);
    MixedRadixOrder(ma, a.hour, mb, b.hour, 24);
    MixedRadixOrder(a.year * 12 + (a.month - 1), a.day - 1, b.year * 12 + (b.month - 1), b.day - 1, 31);
    MixedRadixOrder(a.year, a.month - 1, b.year, b.month - 1, 12);
  }

  /** A number written with a high digit and a low digit below `base` compares digit by digit. */
  lemma MixedRadixOrder(hi: int, lo: int, hi': int, lo': int, base: int)
    requires 0 <= lo < base && 0 <= lo' < base
    ensures hi * base + lo < hi' * base + lo' <==> hi < hi' || (hi == hi' && lo < lo')
    ensures hi * base + lo == hi' * base + lo' <==> hi == hi' && lo == lo'
  {
    if hi < hi' {
      ProductAtLeast(hi' - hi, base);
      assert hi' * base - hi * base == (hi' - hi) * base;
    } else if hi > hi' {
      ProductAtLeast(hi - hi', base);
      assert hi * base - hi' * base == (hi - hi') * base;
    }
  }

  /** A positive multiple of a non-negative number is at least that number. */
  lemma ProductAtLeast(k: int, base: int)
    requires 1 <= k && 0 <= base
    ensures k * base >= base
  {
    assert k * base == (k - 1) * base + base;
    assert (k - 1) * base >= 0;
  }

  /**
   * A bare `dayjs(text)`: the day field is read as the month and the month
   * field as the day. A day field above 12 is no month, and the result is
   * an invalid date (`None`), whose time is NaN.
   */
  function DefaultParse(d: DateText): (r: Option<int>)
    ensures r.Some? <==> 1 <= d.day <= 12
  {
    if 1 <= d.day <= 12 then Some(Instant(d.year, d.day, d.month, d.hour, d.minute)) else None
  }

  /** `isBefore(text)` on an instant: false when the text does not read as a date, as every comparison with NaN is. */
  predicate IsBeforeText(t: int, d: DateText) {
    DefaultParse(d).Some? && t < DefaultParse(d).value
  }

  /** `isAfter(text)` on an instant, likewise false against an invalid date. */
  predicate IsAfterText(t: int, d: DateText) {
    DefaultParse(d).Some? && t > DefaultParse(d).value
  }

  /**
   * The first-purchase fold of the holdings step as written: a purchase
   * replaces the kept one when its date, read with the format, is before the
   * kept text read without it.
   */
  function FirstPurchaseAsWritten(dates: seq<DateText>): Option<DateText> {
    if dates == [] then None
    else
      var n := |dates| - 1;
      var first := FirstPurchaseAsWritten(dates[..n]);
      if first.None? || IsBeforeText(FormatParse(dates[n]), first.value) then Some(dates[n]) else first
  }

  /** The last-purchase fold as written, with `isAfter` against the kept text. */
  function LastPurchaseAsWritten(dates: seq<DateText>): Option<DateText> {
    if dates == [] then None
    else
      var n := |dates| - 1;
      var last := LastPurchaseAsWritten(dates[..n]);
      if last.None? || IsAfterText(FormatParse(dates[n]), last.value) then Some(dates[n]) else last
  }

  /** 20 January 2025 and 5 January 2025, both at 9:00 in the morning. */
  const JAN_20: DateText := DateText(20, 1, 2025, 9, 0)
  const JAN_5: DateText := DateText(5, 1, 2025, 9, 0)
  /** 3 February 2025 at 9:00 in the morning. */
  const FEB_3: DateText := DateText(3, 2, 2025, 9, 0)

  /**
   * Bought on 20 January and then on 5 January: the first purchase stays
   * 20 January, because "20/01/2025 09:00 AM" read without its format is an
   * invalid date and nothing is before it.
   */
  lemma FirstPurchaseMissesEarlier()
    ensures Precedes(JAN_5, JAN_20)
    ensures FirstPurchaseAsWritten([JAN_20, JAN_5]) == Some(JAN_20)
  {
    assert [JAN_20, JAN_5][..1] == [JAN_20];
    assert [JAN_20][..0] == [];
    assert FirstPurchaseAsWritten([JAN_20]) == Some(JAN_20);
    assert DefaultParse(JAN_20) == None;
  }

  /**
   * Bought on 5 January and then on 3 February: the last purchase stays
   * 5 January, because "05/01/2025 09:00 AM" read without its format is
   * 1 May 2025, after 3 February.
   */
  lemma LastPurchaseMissesLater()
    ensures Precedes(JAN_5, FEB_3)
    ensures LastPurchaseAsWritten([JAN_5, FEB_3]) == Some(JAN_5)
  {
    assert [JAN_5, FEB_3][..1] == [JAN_5];
    assert [JAN_5][..0] == [];
    assert LastPurchaseAsWritten([JAN_5]) == Some(JAN_5);
    assert DefaultParse(JAN_5) == Some(Instant(2025, 5, 1, 9, 0));
    assert FormatParse(FEB_3) < Instant(2025, 5, 1, 9, 0);
  }

  /** The first-purchase fold with both dates read with the format. */
  function FirstPurchase(dates: seq<DateText>): (r: Option<DateText>)
    ensures r.Some? <==> dates != []
    ensures r.Some? ==> r.value in dates && forall d :: d in dates ==> FormatParse(r.value) <= FormatParse(d)
  {
    if dates == [] then None
    else
      var n := |dates| - 1;
      var first := FirstPurchase(dates[..n]);
      assert dates == dates[..n] + [dates[n]];
      if first.None? || FormatParse(dates[n]) < FormatParse(first.value) then Some(dates[n]) else first
  }

  /** The last-purchase fold with both dates read with the format. */
  function LastPurchase(dates: seq<DateText>): (r: Option<DateText>)
    ensures r.Some? <==> dates != []
    ensures r.Some? ==> r.value in dates && forall d :: d in dates ==> FormatParse(d) <= FormatParse(r.value)
  {
    if dates == [] then None
    else
      var n := |dates| - 1;
      var last := LastPurchase(dates[..n]);
      assert dates == dates[..n] + [dates[n]];
      if last.None? || FormatParse(dates[n]) > FormatParse(last.value) then Some(dates[n]) else last
  }

  /**
   * With every text well formed, no purchase comes before the first one or
   * after the last one on the calendar.
   */
  lemma PurchaseSpanOnCalendar(dates: seq<DateText>)
    requires forall d :: d in dates ==> WellFormed(d)
    ensures FirstPurchase(dates).Some? ==> forall d :: d in dates ==> !Precedes(d, FirstPurchase(dates).value)
    ensures LastPurchase(dates).Some? ==> forall d :: d in dates ==> !Precedes(LastPurchase(dates).value, d)
  {
    if dates != [] {
      var first, last := FirstPurchase(dates).value, LastPurchase(dates).value;
      forall d | d in dates ensures !Precedes(d, first) && !Precedes(last, d) {
        FormatParseOrder(d, first);
        FormatParseOrder(last, d);
      }
    }
  }
}

/** Dates and the billing period's month arithmetic (PaymentService._add_one_month). */
module Calendar {
  import opened Wrappers

  predicate Leap(year: int) {
    year % 4 == 0 && (year % 100 != 0 || year % 400 == 0)
  }

  /** calendar.monthrange(year, month)[1] */
  function DaysIn(year: int, month: int): int {
    if month == 2 then if Leap(year) then 29 else 28
    else if month in {4, 6, 9, 11} then 30
    else 31
  }

  const MAX_YEAR := 9999

  datatype Date = Date(year: int, month: int, day: int) {
    /** What Python's date() accepts. */
    predicate Valid() {
      1 <= year <= MAX_YEAR && 1 <= month <= 12 && 1 <= day <= DaysIn(year, month)
    }

    predicate Before(other: Date) {
      year < other.year || (year == other.year && (month < other.month || (month == other.month && day < other.day)))
    }
  }

  type RealDate = d: Date | d.Valid() witness Date(1, 1, 1)

  function Min(a: int, b: int): int {
    if a <= b then a else b
  }

  /** _add_one_month; None is date()'s ValueError past the last year. */
  function AddOneMonth(d: RealDate): Option<RealDate> {
    var month := if d.month + 1 > 12 then 1 else d.month + 1;
    var year := if d.month + 1 > 12 then d.year + 1 else d.year;
    var next := Date(year, month, Min(d.day, DaysIn(year, month)));
    if next.Valid() then Some(next) else None
  }

  // ---- Counting days ----

  function DaysBeforeYear(year: int): int {
    var y := year - 1;
    y * 365 + y / 4 - y / 100 + y / 400
  }

  function DaysBeforeMonth(year: int, month: nat): int {
    if month <= 1 then 0 else DaysBeforeMonth(year, month - 1) + DaysIn(year, month - 1)
  }

  /** date.toordinal */
  function Ordinal(d: RealDate): int {
    DaysBeforeYear(d.year) + DaysBeforeMonth(d.year, d.month) + d.day
  }

  function MonthIndex(d: Date): int {
    12 * d.year + d.month - 1
  }

  /** Days before the month with this index. */
  function DaysBeforeIndex(i: nat): int {
    DaysBeforeYear(i / 12) + DaysBeforeMonth(i / 12, i % 12 + 1)
  }

  function DaysInIndex(i: nat): int {
    DaysIn(i / 12, i % 12 + 1)
  }

  lemma YearLength(year: int)
    ensures DaysBeforeMonth(year, 13) == 365 + if Leap(year) then 1 else 0
    ensures DaysBeforeYear(year + 1) == DaysBeforeYear(year) + DaysBeforeMonth(year, 13)
  {
    assert DaysBeforeMonth(year, 2) == 31;
    assert DaysBeforeMonth(year, 4) == 31 + DaysIn(year, 2) + 31;
    assert DaysBeforeMonth(year, 6) == DaysBeforeMonth(year, 4) + 30 + 31;
    assert DaysBeforeMonth(year, 8) == DaysBeforeMonth(year, 6) + 30 + 31;
    assert DaysBeforeMonth(year, 10) == DaysBeforeMonth(year, 8) + 31 + 30;
    assert DaysBeforeMonth(year, 12) == DaysBeforeMonth(year, 10) + 31 + 30;
    YearParts(year);
  }

  lemma YearParts(year: int)
    ensures year / 4 - (year - 1) / 4 == if year % 4 == 0 then 1 else 0
    ensures year / 100 - (year - 1) / 100 == if year % 100 == 0 then 1 else 0
    ensures year / 400 - (year - 1) / 400 == if year % 400 == 0 then 1 else 0
    ensures year % 400 == 0 ==> year % 100 == 0
    ensures year % 100 == 0 ==> year % 4 == 0
  {
  }

  lemma NextIndex(i: nat)
    ensures DaysBeforeIndex(i + 1) == DaysBeforeIndex(i) + DaysInIndex(i)
  {
    if i % 12 == 11 {
      YearLength(i / 12);
      assert (i + 1) / 12 == i / 12 + 1 && (i + 1) % 12 == 0;
    } else {
      assert (i + 1) / 12 == i / 12 && (i + 1) % 12 == i % 12 + 1;
    }
  }

  lemma {:induction false} LaterIndex(i: nat, j: nat)
    requires i < j
    ensures DaysBeforeIndex(j) >= DaysBeforeIndex(i) + DaysInIndex(i)
  {
    NextIndex(j - 1);
    if i < j - 1 {
      LaterIndex(i, j - 1);
    }
  }

  lemma OrdinalOfIndex(d: RealDate)
    ensures MonthIndex(d) >= 12 && Ordinal(d) == DaysBeforeIndex(MonthIndex(d)) + d.day
    ensures DaysInIndex(MonthIndex(d)) == DaysIn(d.year, d.month)
  {
    assert MonthIndex(d) / 12 == d.year && MonthIndex(d) % 12 == d.month - 1;
  }

  /** Day numbers order dates as the calendar does. */
  lemma OrdinalOrders(a: RealDate, b: RealDate)
    ensures a.Before(b) <==> Ordinal(a) < Ordinal(b)
    ensures a == b <==> Ordinal(a) == Ordinal(b)
  {
    hide Ordinal, DaysBeforeIndex, DaysInIndex, DaysIn;
    OrdinalOfIndex(a);
    OrdinalOfIndex(b);
    if MonthIndex(a) < MonthIndex(b) {
      LaterIndex(MonthIndex(a), MonthIndex(b));
    } else if MonthIndex(b) < MonthIndex(a) {
      LaterIndex(MonthIndex(b), MonthIndex(a));
    }
  }

  // ---- One month ----

  lemma NextMonth(d: RealDate)
    ensures AddOneMonth(d).Some? <==> MonthIndex(d) + 1 < 12 * (MAX_YEAR + 1)
    ensures AddOneMonth(d).Some? ==> var e := AddOneMonth(d).value;
      && MonthIndex(e) == MonthIndex(d) + 1
      && e.day == Min(d.day, DaysIn(e.year, e.month))
  {
  }

  /** A step of one month takes 28 to 31 days. */
  lemma OneMonthLength(d: RealDate)
    requires AddOneMonth(d).Some?
    ensures 28 <= Ordinal(AddOneMonth(d).value) - Ordinal(d) <= 31
  {
    var e := AddOneMonth(d).value;
    NextMonth(d);
    OrdinalOfIndex(d);
    OrdinalOfIndex(e);
    NextIndex(MonthIndex(d));
  }

  /** Later dates stay later, or meet at a month's end. */
  lemma OneMonthMonotone(a: RealDate, b: RealDate)
    requires AddOneMonth(b).Some? && Ordinal(a) <= Ordinal(b)
    ensures AddOneMonth(a).Some? && Ordinal(AddOneMonth(a).value) <= Ordinal(AddOneMonth(b).value)
  {
    OrdinalOrders(a, b);
    NextMonth(a);
    NextMonth(b);
    hide Ordinal;
    OrdinalOrders(AddOneMonth(b).value, AddOneMonth(a).value);
  }

  // ---- n months ----

  /** n months, one at a time. */
  function AddMonths(d: RealDate, n: nat): Option<RealDate> {
    if n == 0 then Some(d) else
    var before := AddMonths(d, n - 1);
    if before.None? then None else AddOneMonth(before.value)
  }

  /** The length of the shortest month landed in after 1, ..., n steps. */
  function ShortestLanded(start: nat, n: nat): int {
    if n == 0 then 31 else Min(ShortestLanded(start, n - 1), DaysInIndex(start + n))
  }

  /** After n steps the date is n calendar months on, on the first day's number or, where a month
      landed in was shorter, on the length of the shortest one. */
  lemma {:induction false} AddMonthsLands(d: RealDate, n: nat)
    ensures AddMonths(d, n).Some? <==> MonthIndex(d) + n < 12 * (MAX_YEAR + 1)
    ensures AddMonths(d, n).Some? ==> var e := AddMonths(d, n).value;
      && MonthIndex(e) == MonthIndex(d) + n
      && e.day == Min(d.day, ShortestLanded(MonthIndex(d), n))
  {
    if n > 0 {
      AddMonthsLands(d, n - 1);
      var before := AddMonths(d, n - 1);
      if before.Some? {
        NextMonth(before.value);
        if AddOneMonth(before.value).Some? {
          OrdinalOfIndex(AddOneMonth(before.value).value);
        }
      }
    }
  }

  /** n steps take between 28n and 31n days. */
  lemma {:induction false} AddMonthsLength(d: RealDate, n: nat)
    requires AddMonths(d, n).Some?
    ensures 28 * n <= Ordinal(AddMonths(d, n).value) - Ordinal(d) <= 31 * n
  {
    if n > 0 {
      AddMonthsLength(d, n - 1);
      OneMonthLength(AddMonths(d, n - 1).value);
    }
  }
}

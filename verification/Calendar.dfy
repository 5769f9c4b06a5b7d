/**
 * The part of Python's `datetime.date` that recurrence uses.
 *
 * A date is its proleptic Gregorian ordinal, a plain `int`, so that `timedelta` arithmetic and
 * comparison are integer arithmetic and comparison.  `year`, `month` and `day` are recovered from
 * the ordinal; `RoundTrip` and `LexicographicOrder` say that the two readings agree.
 * A month is numbered `year * 12 + (month - 1)`, as `_add_months` numbers it.
 */
module Calendar {
  import opened Alignment

  predicate Leap(year: int) {
    year % 4 == 0 && (year % 100 != 0 || year % 400 == 0)
  }

  function MonthLength(month: int): (days: int)
    ensures 28 <= days <= 31
  {
    var m := month % 12 + 1;
    if m == 2 then (if Leap(month / 12) then 29 else 28)
    else if m == 4 || m == 6 || m == 9 || m == 11 then 30
    else 31
  }

  function DaysBeforeYear(year: int): int {
    365 * (year - 1) + (year - 1) / 4 - (year - 1) / 100 + (year - 1) / 400
  }

  function DaysBeforeMonth(month: int): int {
    [0, 31, 59, 90, 120, 151, 181, 212, 243, 273, 304, 334][month % 12]
    + (if month % 12 >= 2 && Leap(month / 12) then 1 else 0)
  }

  /** The ordinal of the first day of the numbered month. */
  function MonthStart(month: int): int {
    DaysBeforeYear(month / 12) + DaysBeforeMonth(month) + 1
  }

  /** One in every `k` years. */
  function Every(year: int, k: int): int
    requires k > 0
  {
    if year % k == 0 then 1 else 0
  }

  lemma YearStep(year: int)
    ensures DaysBeforeYear(year + 1) == DaysBeforeYear(year) + (if Leap(year) then 366 else 365)
  {
    FloorStep(year, 4);
    FloorStep(year, 100);
    FloorStep(year, 400);
    LeapCount(year);
    hide Every, Leap;
  }

  lemma FloorStep(x: int, k: int)
    requires k in {4, 100, 400}
    ensures x / k == (x - 1) / k + Every(x, k)
  {
  }

  lemma LeapCount(year: int)
    ensures Every(year, 4) - Every(year, 100) + Every(year, 400) == if Leap(year) then 1 else 0
  {
    if year % 400 == 0 { DivModUnique(year, 100, 4 * (year / 400), 0); }
    if year % 100 == 0 { DivModUnique(year, 4, 25 * (year / 100), 0); }
  }

  lemma MonthStep(month: int)
    ensures MonthStart(month + 1) == MonthStart(month) + MonthLength(month)
  {
    if month % 12 == 11 {
      YearStep(month / 12);
      assert (month + 1) / 12 == month / 12 + 1 && (month + 1) % 12 == 0;
    } else {
      assert (month + 1) / 12 == month / 12 && (month + 1) % 12 == month % 12 + 1;
    }
  }

  lemma {:induction false} MonthsApart(i: int, j: int)
    requires i <= j
    ensures MonthStart(i) + 28 * (j - i) <= MonthStart(j)
    decreases j - i
  {
    hide MonthStart, MonthLength;
    if i == j {
    } else {
      MonthStep(j - 1);
      MonthsApart(i, j - 1);
    }
  }

  /** The month a date falls in, found by walking up from a month that cannot be late. */
  function MonthOf(date: int): (month: int)
    ensures MonthStart(month) <= date < MonthStart(month + 1)
  {
    var year := if date >= 0 then date / 366 else date / 365;
    assert (12 * year) / 12 == year && (12 * year) % 12 == 0;
    WalkToMonth(date, 12 * year)
  }

  function WalkToMonth(date: int, from: int): (month: int)
    requires MonthStart(from) <= date
    ensures MonthStart(month) <= date < MonthStart(month + 1)
    decreases date - MonthStart(from)
  {
    hide MonthStart;
    MonthStep(from);
    if date < MonthStart(from + 1) then from else WalkToMonth(date, from + 1)
  }

  lemma MonthOfIs(date: int, month: int)
    requires MonthStart(month) <= date < MonthStart(month + 1)
    ensures MonthOf(date) == month
  {
    hide MonthStart, MonthOf;
    var m := MonthOf(date);
    if m < month { MonthsApart(m + 1, month); }
    if month < m { MonthsApart(month + 1, m); }
  }

  lemma MonthOfMonotone(d: int, e: int)
    requires d <= e
    ensures MonthOf(d) <= MonthOf(e)
  {
    hide MonthStart, MonthOf;
    if MonthOf(e) < MonthOf(d) { MonthsApart(MonthOf(e) + 1, MonthOf(d)); }
  }

  function Year(date: int): int { MonthOf(date) / 12 }

  function Month(date: int): (m: int)
    ensures 1 <= m <= 12
  {
    MonthOf(date) % 12 + 1
  }

  function Day(date: int): (d: int)
    ensures 1 <= d <= MonthLength(MonthOf(date))
  {
    MonthStep(MonthOf(date));
    date - MonthStart(MonthOf(date)) + 1
  }

  /** `_clamp_day`, on a month number. */
  function ClampDay(month: int, day: int): (date: int)
    requires 1 <= day
    ensures MonthOf(date) == month
    ensures Day(date) == if day <= MonthLength(month) then day else MonthLength(month)
  {
    MonthStep(month);
    var date := MonthStart(month) + (if day <= MonthLength(month) then day else MonthLength(month)) - 1;
    MonthOfIs(date, month);
    date
  }

  /** `_add_months`: the month `count` months on, as a (year, month) pair. */
  function AddMonths(year: int, month: int, count: int): (int, int) {
    var total := year * 12 + (month - 1) + count;
    (total / 12, total % 12 + 1)
  }

  function MonthNumber(year: int, month: int): int { year * 12 + (month - 1) }

  lemma AddMonthsNumber(year: int, month: int, count: int)
    ensures var (y, m) := AddMonths(year, month, count);
            1 <= m <= 12 && MonthNumber(y, m) == MonthNumber(year, month) + count
  {
  }

  lemma YearMonth(month: int)
    ensures MonthNumber(month / 12, month % 12 + 1) == month
  {
  }

  /** Building a date from its parts, the day clamped to the month, and taking it apart again. */
  lemma RoundTrip(year: int, month: int, day: int)
    requires 1 <= month <= 12 && 1 <= day
    ensures var date, length := ClampDay(MonthNumber(year, month), day), MonthLength(MonthNumber(year, month));
            Year(date) == year && Month(date) == month && Day(date) == if day <= length then day else length
  {
    assert MonthNumber(year, month) / 12 == year && MonthNumber(year, month) % 12 == month - 1;
  }

  lemma PartsDetermineDate(date: int)
    ensures date == ClampDay(MonthNumber(Year(date), Month(date)), Day(date))
  {
    hide MonthStart, MonthOf;
    YearMonth(MonthOf(date));
  }

  /**
   * The calendar's fixed points: its leap years, the lengths of the other months, and the first days of
   * January of 1 and 1970 and of March 2000.
   */
  lemma Landmarks(year: int)
    ensures forall month :: month in {1, 3, 5, 7, 8, 10, 12} ==> MonthLength(MonthNumber(year, month)) == 31
    ensures forall month :: month in {4, 6, 9, 11} ==> MonthLength(MonthNumber(year, month)) == 30
    ensures MonthLength(MonthNumber(year, 2)) == 29 <==> (year % 400 == 0 || (year % 4 == 0 && year % 100 != 0))
    ensures ClampDay(MonthNumber(1, 1), 1) == 1
    ensures ClampDay(MonthNumber(1970, 1), 1) == 719163 && ClampDay(MonthNumber(2000, 3), 1) == 730180
  {
    hide MonthStart, MonthOf, ClampDay, MonthLength, MonthNumber;
    LeapMonths(year);
    forall month | month in {1, 3, 4, 5, 6, 7, 8, 9, 10, 11, 12} {
      OtherMonths(year, month);
    }
    FirstOfMonth(MonthNumber(1, 1));
    FirstOfMonth(MonthNumber(1970, 1));
    FirstOfMonth(MonthNumber(2000, 3));
    StartOfMonth(1, 1, 1);
    StartOfMonth(1970, 1, 719163);
    StartOfMonth(2000, 3, 730180);
  }

  lemma OtherMonths(year: int, month: int)
    requires 1 <= month <= 12 && month != 2
    ensures MonthLength(MonthNumber(year, month)) == if month in {4, 6, 9, 11} then 30 else 31
  {
    assert MonthNumber(year, month) % 12 + 1 == month;
  }

  lemma StartOfMonth(year: int, month: int, date: int)
    requires (year, month, date) in {(1, 1, 1), (1970, 1, 719163), (2000, 3, 730180)}
    ensures MonthStart(MonthNumber(year, month)) == date
  {
    var m := MonthNumber(year, month);
    assert m / 12 == year && m % 12 == month - 1;
    assert DaysBeforeMonth(m) == if month == 3 then 60 else 0;
    hide DaysBeforeMonth;
    assert DaysBeforeYear(year) == date - 1 - if month == 3 then 60 else 0;
  }

  /** The weekdays go round, from the Monday that the first day is. */
  lemma WeekdaysGoRound(date: int)
    ensures Weekday(1) == 0 && Monday(1) == 1
    ensures Weekday(date + 1) == if Weekday(date) == 6 then 0 else Weekday(date) + 1
    ensures Monday(date) == date - Weekday(date)
  {
  }

  lemma LeapMonths(year: int)
    ensures MonthLength(MonthNumber(year, 2)) == 29 <==> (year % 400 == 0 || (year % 4 == 0 && year % 100 != 0))
  {
    if year % 400 == 0 { DivModUnique(year, 4, 100 * (year / 400), 0); }
    assert MonthNumber(year, 2) % 12 == 1 && MonthNumber(year, 2) / 12 == year;
  }

  lemma FirstOfMonth(month: int)
    ensures ClampDay(month, 1) == MonthStart(month)
  {
    hide MonthStart, MonthOf;
  }

  /** Ordinal order is the order on (year, month, day) that Python's `date` uses. */
  lemma LexicographicOrder(d: int, e: int)
    ensures d < e <==>
      Year(d) < Year(e) || (Year(d) == Year(e) &&
        (Month(d) < Month(e) || (Month(d) == Month(e) && Day(d) < Day(e))))
  {
    hide MonthStart, MonthOf;
    YearMonth(MonthOf(d));
    YearMonth(MonthOf(e));
    if d <= e { MonthOfMonotone(d, e); } else { MonthOfMonotone(e, d); }
  }

  /** Monday is 0. */
  function Weekday(date: int): (w: int)
    ensures 0 <= w <= 6
  {
    (date + 6) % 7
  }

  function Monday(date: int): (m: int)
    ensures m % 7 == 1 && m <= date <= m + 6
  {
    date - Weekday(date)
  }
}

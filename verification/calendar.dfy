/** Calendar facts the simulator needs: timestamps, month lengths and the billing boundary. */
module Calendar {

  type Month = m: int | 1 <= m <= 12 witness 1
  type Day = d: int | 1 <= d <= 31 witness 1
  type Hour = h: int | 0 <= h <= 23 witness 0
  /** Day of the week, Monday = 0 through Sunday = 6. */
  type Weekday = w: int | 0 <= w <= 6 witness 0

  /** One simulated hour of one calendar day. */
  datatype Timestamp = Timestamp(month: Month, day: Day, hour: Hour, weekday: Weekday)

  /** The Gregorian leap-year rule. */
  predicate IsLeapYear(year: int)
  {
    year % 4 == 0 && (year % 100 != 0 || year % 400 == 0)
  }

  /** Number of days in a month of the Gregorian calendar. */
  function DaysInMonth(year: int, month: Month): (n: int)
    ensures 28 <= n <= 31
    ensures n == 28 <==> month == 2 && !IsLeapYear(year)
    ensures n == 29 <==> month == 2 && IsLeapYear(year)
    ensures n == 30 <==> month in {4, 6, 9, 11}
  {
    match month
    case 2 => if IsLeapYear(year) then 29 else 28
    case 4 => 30
    case 6 => 30
    case 9 => 30
    case 11 => 30
    case _ => 31
  }

  /** Days in the first `k` months of `year`. */
  function DaysBefore(year: int, k: int): int
    requires 0 <= k <= 12
  {
    if k == 0 then 0 else DaysBefore(year, k - 1) + DaysInMonth(year, k)
  }

  /** The twelve month lengths add up to the length of the year. */
  lemma {:induction false} DaysInYear(year: int)
    ensures DaysBefore(year, 12) == if IsLeapYear(year) then 366 else 365
  {
    assert DaysBefore(year, 1) == 31;
    assert DaysBefore(year, 2) == 31 + DaysInMonth(year, 2);
    assert DaysBefore(year, 3) == 62 + DaysInMonth(year, 2);
    assert DaysBefore(year, 4) == 92 + DaysInMonth(year, 2);
    assert DaysBefore(year, 5) == 123 + DaysInMonth(year, 2);
    assert DaysBefore(year, 6) == 153 + DaysInMonth(year, 2);
    assert DaysBefore(year, 7) == 184 + DaysInMonth(year, 2);
    assert DaysBefore(year, 8) == 215 + DaysInMonth(year, 2);
    assert DaysBefore(year, 9) == 245 + DaysInMonth(year, 2);
    assert DaysBefore(year, 10) == 276 + DaysInMonth(year, 2);
    assert DaysBefore(year, 11) == 306 + DaysInMonth(year, 2);
  }

  /** The last hour of the last day of the month: the hour at which a bill is settled. */
  predicate IsBillingBoundary(year: int, t: Timestamp)
    ensures IsBillingBoundary(year, t) ==> 28 <= t.day && t.hour == 23
    ensures IsBillingBoundary(year, t) && t.month == 2 ==> (t.day == 29 <==> IsLeapYear(year))
    ensures IsBillingBoundary(year, t) && t.month != 2 ==> 30 <= t.day
  {
    t.day == DaysInMonth(year, t.month) && t.hour == 23
  }

  /** Every hour of a month in order, the first day falling on `firstWeekday`. */
  function MonthHours(year: int, month: Month, firstWeekday: Weekday): (hs: seq<Timestamp>)
    ensures |hs| == 24 * DaysInMonth(year, month)
    ensures forall i :: 0 <= i < |hs| ==> hs[i].month == month && hs[i].day == i / 24 + 1 && hs[i].hour == i % 24
  {
    var n := DaysInMonth(year, month);
    seq(24 * n, i requires 0 <= i < 24 * n =>
      Timestamp(month, i / 24 + 1, i % 24, (firstWeekday + i / 24) % 7))
  }

  /** Within the hours of one month exactly one is a billing boundary, the last one. */
  lemma {:induction false} OneBoundaryPerMonth(year: int, month: Month, firstWeekday: Weekday)
    ensures var hs := MonthHours(year, month, firstWeekday);
      forall i :: 0 <= i < |hs| ==> (IsBillingBoundary(year, hs[i]) <==> i == |hs| - 1)
  {
    var hs := MonthHours(year, month, firstWeekday);
    var n := DaysInMonth(year, month);
    forall i | 0 <= i < |hs|
      ensures IsBillingBoundary(year, hs[i]) <==> i == |hs| - 1
    {
      assert i == 24 * (i / 24) + i % 24;
    }
  }
}

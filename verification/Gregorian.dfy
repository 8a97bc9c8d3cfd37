/**
 * Local calendar days as JavaScript's `Date` sees them, without a time of day. A date is the number
 * of days since 1 January 1970. Year, month and day follow section 15.9.1 of ECMA-262 edition 5.1;
 * `Tomorrow` proves them to be the proleptic Gregorian calendar.
 */
module Gregorian {
  type Date = int

  predicate Leap(y: int) {
    y % 4 == 0 && (y % 100 != 0 || y % 400 == 0)
  }

  function DaysInYear(y: int): int {
    if Leap(y) then 366 else 365
  }

  /** Months count from 0, as in JavaScript. */
  function DaysInMonth(y: int, m: int): int
    requires 0 <= m < 12
  {
    if m == 1 then (if Leap(y) then 29 else 28)
    else if m in {3, 5, 8, 10} then 30
    else 31
  }

  /** The first day of a year, counted out year by year. */
  function YearStart(y: int): Date
    decreases if y < 1970 then 1970 - y else y - 1970
  {
    if y == 1970 then 0
    else if y > 1970 then YearStart(y - 1) + DaysInYear(y - 1)
    else YearStart(y + 1) - DaysInYear(y)
  }

  /** The day within the year on which a month starts, counted out month by month. */
  function MonthStart(y: int, m: int): int
    requires 0 <= m <= 12
  {
    if m == 0 then 0 else MonthStart(y, m - 1) + DaysInMonth(y, m - 1)
  }

  /** The number of day d of a month; days outside the month carry. */
  function DayNumber(y: int, m: int, d: int): Date
    requires 0 <= m < 12
  {
    YearStart(y) + MonthStart(y, m) + d - 1
  }

  /** MakeDay, section 15.9.1.12: months outside the year carry. */
  function MakeDay(y: int, m: int, d: int): Date {
    DayNumber(y + m / 12, m % 12, d)
  }

  /** The year the constructor means, section 15.9.3.1: two-digit years lie in the 1900s. */
  function FullYear(y: int): int {
    if 0 <= y <= 99 then 1900 + y else y
  }

  /** `new Date(y, m, d)`. */
  function NewDate(y: int, m: int, d: int): Date {
    MakeDay(FullYear(y), m, d)
  }

  // ---------------------------------------------------------------- the closed form of the standard

  /** DayFromYear, section 15.9.1.3. */
  function DayFromYear(y: int): Date {
    365 * (y - 1970) + (y - 1969) / 4 - (y - 1901) / 100 + (y - 1601) / 400
  }

  lemma FourthYears(y: int)
    ensures (y - 1968) / 4 == (y - 1969) / 4 + if y % 4 == 0 then 1 else 0
  {
  }

  lemma HundredthYears(y: int)
    ensures (y - 1900) / 100 == (y - 1901) / 100 + if y % 100 == 0 then 1 else 0
  {
  }

  lemma FourHundredthYears(y: int)
    ensures (y - 1600) / 400 == (y - 1601) / 400 + if y % 400 == 0 then 1 else 0
    ensures y % 400 == 0 ==> y % 100 == 0
  {
  }

  lemma DayFromYearStep(y: int)
    ensures DayFromYear(y + 1) == DayFromYear(y) + DaysInYear(y)
  {
    FourthYears(y);
    HundredthYears(y);
    FourHundredthYears(y);
    assert y % 100 == 0 ==> y % 4 == 0;
  }

  /** The standard's formula counts the leap years correctly, in both directions. */
  lemma {:induction false} DayFromYearCounts(y: int)
    ensures DayFromYear(y) == YearStart(y)
    decreases if y < 1970 then 1970 - y else y - 1970
  {
    if y > 1970 {
      DayFromYearCounts(y - 1);
      DayFromYearStep(y - 1);
    } else if y < 1970 {
      DayFromYearCounts(y + 1);
      DayFromYearStep(y);
    }
  }

  lemma YearLength(y: int)
    ensures YearStart(y + 1) == YearStart(y) + DaysInYear(y)
  {
  }

  lemma MonthLength(y: int, m: int)
    requires 0 <= m < 12
    ensures MonthStart(y, m + 1) == MonthStart(y, m) + DaysInMonth(y, m)
  {
  }

  lemma MonthsFillYear(y: int)
    ensures MonthStart(y, 12) == DaysInYear(y)
  {
    assert MonthStart(y, 1) == 31;
    assert MonthStart(y, 2) == 31 + DaysInMonth(y, 1);
    assert MonthStart(y, 4) == MonthStart(y, 2) + 61;
    assert MonthStart(y, 6) == MonthStart(y, 4) + 61;
    assert MonthStart(y, 8) == MonthStart(y, 6) + 62;
    assert MonthStart(y, 10) == MonthStart(y, 8) + 61;
    assert MonthStart(y, 12) == MonthStart(y, 10) + 61;
  }

  lemma {:induction false} YearsGrow(x: int, y: int)
    requires x < y
    ensures YearStart(x) + 365 <= YearStart(x + 1) <= YearStart(y)
    decreases y - x
  {
    YearLength(x);
    if x + 1 < y {
      YearsGrow(x + 1, y);
    }
  }

  lemma {:induction false} MonthsGrow(y: int, m: int, k: int)
    requires 0 <= m < k <= 12
    ensures MonthStart(y, m) < MonthStart(y, m + 1) <= MonthStart(y, k)
    decreases k - m
  {
    MonthLength(y, m);
    if m + 1 < k {
      MonthsGrow(y, m + 1, k);
    }
  }

  // ---------------------------------------------------------------- fields of a date

  function YearFrom(n: Date, y: int): (r: int)
    requires YearStart(y) <= n
    ensures YearStart(r) <= n < YearStart(r + 1)
    decreases n - YearStart(y)
  {
    YearLength(y);
    if n < YearStart(y + 1) then y else YearFrom(n, y + 1)
  }

  function EarlyYear(n: Date): int {
    1969 + (if n < 0 then n / 365 else n / 366)
  }

  lemma EarlyEnough(n: Date)
    ensures YearStart(EarlyYear(n)) <= n
  {
    DayFromYearCounts(EarlyYear(n));
  }

  /** getFullYear: the last year that starts no later, section 15.9.1.3. */
  function YearOf(n: Date): (y: int)
    ensures YearStart(y) <= n < YearStart(y + 1)
  {
    EarlyEnough(n);
    YearFrom(n, EarlyYear(n))
  }

  function MonthFrom(y: int, day: int, m: int): (r: int)
    requires 0 <= m < 12 && MonthStart(y, m) <= day < MonthStart(y, 12)
    ensures 0 <= r < 12 && MonthStart(y, r) <= day < MonthStart(y, r + 1)
    decreases 12 - m
  {
    if day < MonthStart(y, m + 1) then m else MonthFrom(y, day, m + 1)
  }

  function MonthOf(n: Date): (m: int)
    ensures 0 <= m < 12 && MonthStart(YearOf(n), m) <= n - YearStart(YearOf(n)) < MonthStart(YearOf(n), m + 1)
  {
    YearLength(YearOf(n));
    MonthsFillYear(YearOf(n));
    MonthFrom(YearOf(n), n - YearStart(YearOf(n)), 0)
  }

  /** getDate, counting from 1. */
  function DayOf(n: Date): int {
    n - YearStart(YearOf(n)) - MonthStart(YearOf(n), MonthOf(n)) + 1
  }

  /** getDay, 0 for Sunday: 1 January 1970 was a Thursday, section 15.9.1.6. */
  function WeekDay(n: Date): int {
    (n + 4) % 7
  }

  /** `setDate(d)` keeps the year and month and carries the day. */
  function SetDate(n: Date, d: int): Date {
    MakeDay(YearOf(n), MonthOf(n), d)
  }

  predicate RealDay(y: int, m: int, d: int) {
    0 <= m < 12 && 1 <= d <= DaysInMonth(y, m)
  }

  lemma MakeDayInYear(y: int, m: int, d: int)
    requires 0 <= m < 12
    ensures MakeDay(y, m, d) == DayNumber(y, m, d)
  {
    assert m / 12 == 0 && m % 12 == m;
  }

  lemma YearIsUnique(n: Date, y: int)
    requires YearStart(y) <= n < YearStart(y + 1)
    ensures YearOf(n) == y
  {
    if y < YearOf(n) {
      YearsGrow(y, YearOf(n));
    } else if YearOf(n) < y {
      YearsGrow(YearOf(n), y);
    }
  }

  lemma MonthIsUnique(n: Date, m: int)
    requires 0 <= m < 12
    requires MonthStart(YearOf(n), m) <= n - YearStart(YearOf(n)) < MonthStart(YearOf(n), m + 1)
    ensures MonthOf(n) == m
  {
    if m < MonthOf(n) {
      MonthsGrow(YearOf(n), m, MonthOf(n));
    } else if MonthOf(n) < m {
      MonthsGrow(YearOf(n), MonthOf(n), m);
    }
  }

  /** A real day has the fields it was made from. */
  lemma FieldsOfDay(y: int, m: int, d: int)
    requires RealDay(y, m, d)
    ensures var n := DayNumber(y, m, d); YearOf(n) == y && MonthOf(n) == m && DayOf(n) == d
  {
    var n := DayNumber(y, m, d);
    MonthLength(y, m);
    MonthsFillYear(y);
    MonthsGrow(y, m, 12);
    if m > 0 {
      MonthsGrow(y, 0, m);
    }
    YearLength(y);
    YearIsUnique(n, y);
    MonthIsUnique(n, m);
  }

  /** Every date is the real day its fields name. */
  lemma DayOfFields(n: Date)
    ensures RealDay(YearOf(n), MonthOf(n), DayOf(n))
    ensures DayNumber(YearOf(n), MonthOf(n), DayOf(n)) == n
  {
    MonthLength(YearOf(n), MonthOf(n));
  }

  // ---------------------------------------------------------------- agreement with the calendar

  /** The calendar's own rule for the next day, stated without day numbers. */
  function NextDay(y: int, m: int, d: int): (int, int, int)
    requires RealDay(y, m, d)
  {
    if d < DaysInMonth(y, m) then (y, m, d + 1)
    else if m < 11 then (y, m + 1, 1)
    else (y + 1, 0, 1)
  }

  lemma NextDayNumber(y: int, m: int, d: int)
    requires RealDay(y, m, d)
    ensures var (y', m', d') := NextDay(y, m, d);
            RealDay(y', m', d') && DayNumber(y', m', d') == DayNumber(y, m, d) + 1
  {
    var (y', m', d') := NextDay(y, m, d);
    MonthLength(y, m);
    if y' != y {
      YearLength(y);
      MonthsFillYear(y);
    }
  }

  /** Day numbers count calendar days: each next number is the next day, over all of time. */
  lemma Tomorrow(n: Date)
    ensures RealDay(YearOf(n), MonthOf(n), DayOf(n))
    ensures var (y, m, d) := NextDay(YearOf(n), MonthOf(n), DayOf(n));
            YearOf(n + 1) == y && MonthOf(n + 1) == m && DayOf(n + 1) == d
  {
    DayOfFields(n);
    NextDayNumber(YearOf(n), MonthOf(n), DayOf(n));
    var (y, m, d) := NextDay(YearOf(n), MonthOf(n), DayOf(n));
    FieldsOfDay(y, m, d);
  }

  /** Weekdays go round in seven: each day has the one after the day before, Sunday after Saturday. */
  lemma WeekGoesRound(n: Date)
    ensures 0 <= WeekDay(n) <= 6
    ensures WeekDay(n + 1) == if WeekDay(n) == 6 then 0 else WeekDay(n) + 1
  {
  }

  /** So any seven days in a row have the seven different weekdays, and a week later it is the same one. */
  lemma WeekHasSevenDays(n: Date, i: nat)
    ensures WeekDay(n + 7) == WeekDay(n)
    ensures WeekDay(n) + i <= 6 ==> WeekDay(n + i) == WeekDay(n) + i
    ensures 0 < i <= 6 ==> WeekDay(n + i) != WeekDay(n)
  {
  }

  /** The count starts on Thursday, 1 January 1970. */
  lemma Epoch()
    ensures DayNumber(1970, 0, 1) == 0 && WeekDay(0) == 4
  {
  }
}

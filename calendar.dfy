/** Calendar days as stored in a `date` column, and the two pieces of
    JavaScript `Date` arithmetic the budget window uses: `setDate(getDate() + n)`
    and `setMonth(getMonth() + 1)`. Both build a day from a year, a month and a
    day-of-month that may exceed the month's length; the excess runs forward into
    the following months (ECMAScript's MakeDay), it is never clamped. */
module Calendar {

  /** A year-month-day triple; `month` runs from 1 to 12. */
  datatype Ymd = Ymd(year: int, month: int, day: int)

  /** Gregorian leap years, extended to all integers. */
  predicate IsLeapYear(y: int) {
    y % 4 == 0 && (y % 100 != 0 || y % 400 == 0)
  }

  function DaysInYear(y: int): int {
    if IsLeapYear(y) then 366 else 365
  }

  function DaysInMonth(y: int, m: int): (n: int)
    requires 1 <= m <= 12
    ensures 28 <= n <= 31
  {
    if m == 2 then (if IsLeapYear(y) then 29 else 28)
    else if m == 4 || m == 6 || m == 9 || m == 11 then 30
    else 31
  }

  predicate IsValid(d: Ymd) {
    1 <= d.month <= 12 && 1 <= d.day <= DaysInMonth(d.year, d.month)
  }

  /** A day that exists in the calendar. */
  type Date = d: Ymd | IsValid(d) witness Ymd(1970, 1, 1)

  /** `a` is on or before `b`, as SQL compares two `date` values. */
  predicate OnOrBefore(a: Ymd, b: Ymd) {
    || a.year < b.year
    || (a.year == b.year && a.month < b.month)
    || (a.year == b.year && a.month == b.month && a.day <= b.day)
  }

  /** Days from 1970-01-01 to the first day of year `y` (negative before 1970). */
  function DaysBeforeYear(y: int): int
    decreases if y < 1970 then 1970 - y else y - 1970
  {
    if y == 1970 then 0
    else if y > 1970 then DaysBeforeYear(y - 1) + DaysInYear(y - 1)
    else DaysBeforeYear(y + 1) - DaysInYear(y)
  }

  /** Days from the first day of year `y` to the first day of month `m`. */
  function DaysBeforeMonth(y: int, m: int): int
    requires 1 <= m <= 12
  {
    [0, 31, 59, 90, 120, 151, 181, 212, 243, 273, 304, 334][m - 1]
      + (if m > 2 && IsLeapYear(y) then 1 else 0)
  }

  /** The number of a day counted from 1970-01-01, JavaScript's epoch. */
  function DayNumber(d: Ymd): int
    requires 1 <= d.month <= 12
  {
    DaysBeforeYear(d.year) + DaysBeforeMonth(d.year, d.month) + d.day - 1
  }

  lemma YearStep(y: int)
    ensures DaysBeforeYear(y + 1) == DaysBeforeYear(y) + DaysInYear(y)
  {
  }

  lemma MonthStep(y: int, m: int)
    requires 1 <= m <= 12
    ensures m < 12 ==> DaysBeforeMonth(y, m + 1) == DaysBeforeMonth(y, m) + DaysInMonth(y, m)
    ensures m == 12 ==> DaysBeforeMonth(y, m) + DaysInMonth(y, m) == DaysInYear(y)
  {
  }

  /** Months keep their order inside a year. */
  lemma {:induction false} MonthsOrdered(y: int, m1: int, m2: int)
    requires 1 <= m1 < m2 <= 12
    ensures DaysBeforeMonth(y, m1) + DaysInMonth(y, m1) <= DaysBeforeMonth(y, m2)
    decreases m2 - m1
  {
    MonthStep(y, m1);
    if m1 + 1 < m2 {
      MonthsOrdered(y, m1 + 1, m2);
    }
  }

  /** Years keep their order. */
  lemma {:induction false} YearsOrdered(y1: int, y2: int)
    requires y1 < y2
    ensures DaysBeforeYear(y1) + DaysInYear(y1) <= DaysBeforeYear(y2)
    decreases y2 - y1
  {
    YearStep(y1);
    if y1 + 1 < y2 {
      YearsOrdered(y1 + 1, y2);
    }
  }

  /** A valid day falls inside its own year. */
  lemma WithinYear(d: Date)
    ensures DaysBeforeYear(d.year) <= DayNumber(d) < DaysBeforeYear(d.year) + DaysInYear(d.year)
  {
    if d.month < 12 {
      MonthsOrdered(d.year, d.month, 12);
    }
    MonthStep(d.year, 12);
  }

  /** Comparing two days as dates agrees with comparing their day numbers. */
  lemma OrderAgreesWithDayNumber(a: Date, b: Date)
    ensures OnOrBefore(a, b) <==> DayNumber(a) <= DayNumber(b)
  {
    if a.year < b.year {
      WithinYear(a); WithinYear(b);
      YearsOrdered(a.year, b.year);
    } else if b.year < a.year {
      WithinYear(a); WithinYear(b);
      YearsOrdered(b.year, a.year);
    } else if a.month < b.month {
      MonthsOrdered(a.year, a.month, b.month);
    } else if b.month < a.month {
      MonthsOrdered(a.year, b.month, a.month);
    }
  }

  /** Two different days have different day numbers. */
  lemma DayNumberInjective(a: Date, b: Date)
    requires DayNumber(a) == DayNumber(b)
    ensures a == b
  {
    OrderAgreesWithDayNumber(a, b);
    OrderAgreesWithDayNumber(b, a);
  }

  /** The first day of the month after month `m` of year `y`: December rolls
      over into January of the next year. */
  function FirstOfNextMonth(y: int, m: int): (r: Date)
    requires 1 <= m <= 12
    ensures r.day == 1
    ensures m < 12 ==> r.year == y && r.month == m + 1
    ensures m == 12 ==> r.year == y + 1 && r.month == 1
    ensures DayNumber(r) == DayNumber(Ymd(y, m, 1)) + DaysInMonth(y, m)
  {
    MonthStep(y, m);
    YearStep(y);
    if m == 12 then Ymd(y + 1, 1, 1) else Ymd(y, m + 1, 1)
  }

  /** The day `dd - 1` days after the first of month `m` of year `y`
      (ECMAScript MakeDay with a day-of-month past the end of the month). */
  function MakeDay(y: int, m: int, dd: int): (r: Date)
    requires 1 <= m <= 12 && 1 <= dd
    ensures DayNumber(r) == DayNumber(Ymd(y, m, 1)) + dd - 1
    decreases dd
  {
    if dd <= DaysInMonth(y, m) then Ymd(y, m, dd)
    else
      var next := FirstOfNextMonth(y, m);
      MakeDay(next.year, next.month, dd - DaysInMonth(y, m))
  }

  /** `d.setDate(d.getDate() + n)`. */
  function AddDays(d: Date, n: nat): (r: Date)
    ensures DayNumber(r) == DayNumber(d) + n
  {
    MakeDay(d.year, d.month, d.day + n)
  }

  /** `d.setMonth(d.getMonth() + 1)`: the same day-of-month in the next month,
      where a day the next month lacks overflows into the month after. The
      result lies exactly as many days after `d` as `d`'s own month has. */
  function AddMonth(d: Date): (r: Date)
    ensures DayNumber(r) == DayNumber(FirstOfNextMonth(d.year, d.month)) + d.day - 1
    ensures DayNumber(r) == DayNumber(d) + DaysInMonth(d.year, d.month)
  {
    var next := FirstOfNextMonth(d.year, d.month);
    MakeDay(next.year, next.month, d.day)
  }

  /** When the next month has the day, `AddMonth` keeps the day-of-month. */
  lemma AddMonthKeepsDay(d: Date)
    requires d.day <= DaysInMonth(FirstOfNextMonth(d.year, d.month).year, FirstOfNextMonth(d.year, d.month).month)
    ensures AddMonth(d).day == d.day
    ensures AddMonth(d).month == (if d.month == 12 then 1 else d.month + 1)
    ensures AddMonth(d).year == (if d.month == 12 then d.year + 1 else d.year)
  {
    var next := FirstOfNextMonth(d.year, d.month);
    var expected: Date := Ymd(next.year, next.month, d.day);
    DayNumberInjective(AddMonth(d), expected);
  }

  /** When the next month is too short, `AddMonth` is not clamped to its last
      day: it moves on into the month after by the missing days. */
  lemma AddMonthOverflows(d: Date)
    requires d.day > DaysInMonth(FirstOfNextMonth(d.year, d.month).year, FirstOfNextMonth(d.year, d.month).month)
    ensures
      var next := FirstOfNextMonth(d.year, d.month);
      var after := FirstOfNextMonth(next.year, next.month);
      AddMonth(d) == Ymd(after.year, after.month, d.day - DaysInMonth(next.year, next.month))
  {
    var next := FirstOfNextMonth(d.year, d.month);
    var after := FirstOfNextMonth(next.year, next.month);
    var expected: Date := Ymd(after.year, after.month, d.day - DaysInMonth(next.year, next.month));
    DayNumberInjective(AddMonth(d), expected);
  }

  /** January 31st is followed one month later by March 3rd in a common year
      and by March 2nd in a leap year; December rolls into January. */
  lemma AddMonthExamples()
    ensures AddMonth(Ymd(2023, 1, 31)) == Ymd(2023, 3, 3)
    ensures AddMonth(Ymd(2024, 1, 31)) == Ymd(2024, 3, 2)
    ensures AddMonth(Ymd(2024, 12, 15)) == Ymd(2025, 1, 15)
    ensures AddMonth(Ymd(2024, 3, 1)) == Ymd(2024, 4, 1)
  {
  }
}

/**
 * Proleptic Gregorian calendar dates in UTC, as JavaScript's Date sees them.
 *
 * Two independent descriptions of a date meet here:
 *  - calendar stepping (NextDay, PrevDay, AddDays), how a person counts days, and
 *  - the day number of ECMA-262 section 21.4.1 (DayFromYear, MakeDay), which is what
 *    `Date.prototype.setDate` and `setMonth` compute.
 * The lemmas show that stepping moves the day number by exactly one and that the day
 * number is injective on valid dates, so each stepping result is THE date that the
 * ECMA-262 arithmetic designates.
 */
module Calendar {

  /** A calendar date; `month` is 1-based (January is 1), unlike JavaScript's getMonth. */
  datatype Date = Date(year: int, month: int, day: int)

  predicate IsLeapYear(y: int) {
    y % 4 == 0 && (y % 100 != 0 || y % 400 == 0)
  }

  function DaysInYear(y: int): int {
    if IsLeapYear(y) then 366 else 365
  }

  function DaysInMonth(y: int, m: int): (n: int)
    requires 1 <= m <= 12
    ensures 28 <= n <= 31
  {
    if m == 2 then (if IsLeapYear(y) then 29 else 28)
    else if m == 4 || m == 6 || m == 9 || m == 11 then 30
    else 31
  }

  predicate IsValid(d: Date) {
    1 <= d.month <= 12 && 1 <= d.day <= DaysInMonth(d.year, d.month)
  }

  /** Days from 1 January 1970 to 1 January of year y (ECMA-262 DayFromYear). */
  function DayFromYear(y: int): int {
    365 * (y - 1970) + (y - 1969) / 4 - (y - 1901) / 100 + (y - 1601) / 400
  }

  /** Days of year y that precede the first day of month m. */
  function DaysBeforeMonth(y: int, m: int): int
    requires 1 <= m <= 12
  {
    var common := [0, 31, 59, 90, 120, 151, 181, 212, 243, 273, 304, 334];
    common[m - 1] + (if IsLeapYear(y) && m > 2 then 1 else 0)
  }

  /** The ECMA-262 day number (days since 1970-01-01) of a date's UTC midnight. */
  function DayNumber(d: Date): int
    requires 1 <= d.month <= 12
  {
    DayFromYear(d.year) + DaysBeforeMonth(d.year, d.month) + d.day - 1
  }

  /**
   * ECMA-262 MakeDay(year, month, date) with a 0-based month: month overflow carries
   * into the year and `date` may lie outside the month, rolling forward or back.
   */
  function MakeDay(year: int, month0: int, date: int): int {
    var ym := year + month0 / 12;
    var mn := month0 % 12;
    DayFromYear(ym) + DaysBeforeMonth(ym, mn + 1) + date - 1
  }

  /** The lexicographic order on (year, month, day). */
  predicate Precedes(a: Date, b: Date) {
    a.year < b.year
    || (a.year == b.year && a.month < b.month)
    || (a.year == b.year && a.month == b.month && a.day < b.day)
  }

  function NextDay(d: Date): (r: Date)
    requires IsValid(d)
    ensures IsValid(r)
  {
    if d.day < DaysInMonth(d.year, d.month) then Date(d.year, d.month, d.day + 1)
    else if d.month < 12 then Date(d.year, d.month + 1, 1)
    else Date(d.year + 1, 1, 1)
  }

  function PrevDay(d: Date): (r: Date)
    requires IsValid(d)
    ensures IsValid(r)
  {
    if d.day > 1 then Date(d.year, d.month, d.day - 1)
    else if d.month > 1 then Date(d.year, d.month - 1, DaysInMonth(d.year, d.month - 1))
    else Date(d.year - 1, 12, 31)
  }

  /** The date n days after d, by counting forward one day at a time. */
  function AddDays(d: Date, n: nat): (r: Date)
    requires IsValid(d)
    ensures IsValid(r)
    decreases n
  {
    if n == 0 then d else AddDays(NextDay(d), n - 1)
  }

  /** The count of leap-year candidates since 1969 steps up after a multiple of 4. */
  lemma QuadStep(y: int)
    ensures (y - 1968) / 4 == (y - 1969) / 4 + (if y % 4 == 0 then 1 else 0)
  {
  }

  /** The count of century years since 1901 steps up after a multiple of 100. */
  lemma CenturyStep(y: int)
    ensures (y - 1900) / 100 == (y - 1901) / 100 + (if y % 100 == 0 then 1 else 0)
  {
  }

  /** The count of 400-year boundaries since 1601 steps up after a multiple of 400. */
  lemma QuadCenturyStep(y: int)
    ensures (y - 1600) / 400 == (y - 1601) / 400 + (if y % 400 == 0 then 1 else 0)
  {
  }

  /** Multiples of 400 are multiples of 100, and multiples of 100 are multiples of 4. */
  lemma DivisibilityChain(y: int)
    ensures y % 400 == 0 ==> y % 100 == 0
    ensures y % 100 == 0 ==> y % 4 == 0
  {
    if y % 400 == 0 {
      var q := y / 400;
      assert y == 100 * (4 * q);
    }
    if y % 100 == 0 {
      var q := y / 100;
      assert y == 4 * (25 * q);
    }
  }

  lemma DayFromYearStep(y: int)
    ensures DayFromYear(y + 1) == DayFromYear(y) + DaysInYear(y)
  {
    QuadStep(y);
    CenturyStep(y);
    QuadCenturyStep(y);
    DivisibilityChain(y);
  }

  lemma DaysBeforeMonthStep(y: int, m: int)
    requires 1 <= m < 12
    ensures DaysBeforeMonth(y, m + 1) == DaysBeforeMonth(y, m) + DaysInMonth(y, m)
  {
  }

  lemma DaysBeforeDecember(y: int)
    ensures DaysBeforeMonth(y, 12) + 31 == DaysInYear(y)
  {
  }

  /** Counting forward one day moves the day number forward by exactly one. */
  lemma {:induction false} NextDayNumber(d: Date)
    requires IsValid(d)
    ensures DayNumber(NextDay(d)) == DayNumber(d) + 1
  {
    if d.day < DaysInMonth(d.year, d.month) {
    } else if d.month < 12 {
      DaysBeforeMonthStep(d.year, d.month);
    } else {
      DayFromYearStep(d.year);
      DaysBeforeDecember(d.year);
    }
  }

  /** Counting back one day moves the day number back by exactly one. */
  lemma {:induction false} PrevDayNumber(d: Date)
    requires IsValid(d)
    ensures DayNumber(PrevDay(d)) == DayNumber(d) - 1
  {
    if d.day > 1 {
    } else if d.month > 1 {
      DaysBeforeMonthStep(d.year, d.month - 1);
    } else {
      DayFromYearStep(d.year - 1);
      DaysBeforeDecember(d.year - 1);
    }
  }

  lemma {:induction false} AddDaysNumber(d: Date, n: nat)
    requires IsValid(d)
    ensures DayNumber(AddDays(d, n)) == DayNumber(d) + n
    decreases n
  {
    if n > 0 {
      NextDayNumber(d);
      AddDaysNumber(NextDay(d), n - 1);
    }
  }

  /** MakeDay for a month index inside the year needs no carry. */
  lemma MakeDayInYear(year: int, month0: int, date: int)
    requires 0 <= month0 < 12
    ensures MakeDay(year, month0, date) == DayFromYear(year) + DaysBeforeMonth(year, month0 + 1) + date - 1
  {
    assert month0 / 12 == 0 && month0 % 12 == month0;
  }

  /** MakeDay for month index 12 is January of the next year. */
  lemma MakeDayNextJanuary(year: int, date: int)
    ensures MakeDay(year, 12, date) == DayFromYear(year + 1) + date - 1
  {
    assert 12 / 12 == 1 && 12 % 12 == 0;
  }

  /** A date inside its month gives the same day number through MakeDay. */
  lemma MakeDayOfDate(d: Date)
    requires IsValid(d)
    ensures MakeDay(d.year, d.month - 1, d.day) == DayNumber(d)
  {
    MakeDayInYear(d.year, d.month - 1, d.day);
  }

  lemma {:induction false} DayFromYearGrowth(y1: int, y2: int)
    requires y1 < y2
    ensures DayFromYear(y1) + DaysInYear(y1) <= DayFromYear(y2)
    decreases y2 - y1
  {
    DayFromYearStep(y1);
    if y2 > y1 + 1 {
      DayFromYearGrowth(y1 + 1, y2);
    }
  }

  lemma DaysBeforeMonthGrowth(y: int, m1: int, m2: int)
    requires 1 <= m1 < m2 <= 12
    ensures DaysBeforeMonth(y, m1) + DaysInMonth(y, m1) <= DaysBeforeMonth(y, m2)
  {
    DaysBeforeMonthStep(y, m1);
  }

  lemma DayNumberWithinYear(d: Date)
    requires IsValid(d)
    ensures DayFromYear(d.year) <= DayNumber(d) < DayFromYear(d.year) + DaysInYear(d.year)
  {
    if d.month < 12 {
      DaysBeforeMonthGrowth(d.year, d.month, 12);
    }
    DaysBeforeDecember(d.year);
  }

  /** The day number is strictly increasing in calendar order. */
  lemma DayNumberMonotone(a: Date, b: Date)
    requires IsValid(a) && IsValid(b) && Precedes(a, b)
    ensures DayNumber(a) < DayNumber(b)
  {
    if a.year < b.year {
      DayNumberWithinYear(a);
      DayNumberWithinYear(b);
      DayFromYearGrowth(a.year, b.year);
    } else if a.month < b.month {
      DaysBeforeMonthGrowth(a.year, a.month, b.month);
    }
  }

  /** Distinct valid dates have distinct day numbers. */
  lemma DayNumberInjective(a: Date, b: Date)
    requires IsValid(a) && IsValid(b) && DayNumber(a) == DayNumber(b)
    ensures a == b
  {
    if Precedes(a, b) {
      DayNumberMonotone(a, b);
    } else if Precedes(b, a) {
      DayNumberMonotone(b, a);
    }
  }
}

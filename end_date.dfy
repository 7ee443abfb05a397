/**
 * The default end date of a goal (`calculateEndDate` in src/features/goal/Add-goal.tsx),
 * computed in UTC.
 *
 * Weekly goals move the date forward with `setDate(getDate() + 6)`. Monthly goals use
 * `setMonth(getMonth() + 1)`, where a day that does not exist in the next month rolls
 * forward, then `setDate(getDate() - 1)`. WeeklyEnd and MonthlyEnd count calendar days.
 * The lemmas prove that they land on the day number that the ECMA-262 MakeDay
 * arithmetic of those calls designates, and on no other date.
 */
module EndDate {
  import opened Basics
  import opened Calendar
  import opened IsoDate

  /** The RangeError ("Invalid time value") that toISOString throws on an invalid Date. */
  datatype EndDateError = InvalidTimeValue

  /** `setDate(getDate() + 6)`: six calendar days later. */
  function WeeklyEnd(d: Date): (r: Date)
    requires IsValid(d)
    ensures IsValid(r) && DayNumber(r) == DayNumber(d) + 6
  {
    AddDaysNumber(d, 6);
    AddDays(d, 6)
  }

  /** `setMonth(getMonth() + 1)`: the same day next month, rolled forward past its end. */
  function SameDayNextMonth(d: Date): (r: Date)
    requires IsValid(d)
    ensures IsValid(r)
  {
    var ny := if d.month == 12 then d.year + 1 else d.year;
    var nm := if d.month == 12 then 1 else d.month + 1;
    var last := DaysInMonth(ny, nm);
    if d.day <= last then Date(ny, nm, d.day)
    else AddDays(Date(ny, nm, last), d.day - last)
  }

  /** `setMonth(getMonth() + 1)` followed by `setDate(getDate() - 1)`. */
  function MonthlyEnd(d: Date): (r: Date)
    requires IsValid(d)
    ensures IsValid(r)
  {
    PrevDay(SameDayNextMonth(d))
  }

  /** `calculateEndDate(start_date, goal_type)`. */
  function CalculateEndDate(startDate: string, goalType: string): (r: Result<string, EndDateError>)
    ensures r.Err? <==> startDate != [] && (goalType == "weekly" || goalType == "monthly")
                        && Parse(startDate).None?
    ensures r.Ok? && goalType != "weekly" && goalType != "monthly" ==> r.value == startDate
    ensures startDate == [] || goalType == [] ==> r == Ok(startDate)
  {
    if startDate == [] || goalType == [] then Ok(startDate)
    else if goalType == "daily" then Ok(startDate)
    else if goalType == "weekly" then
      match Parse(startDate)
      case None => Err(InvalidTimeValue)
      case Some(d) => Ok(Format(WeeklyEnd(d)))
    else if goalType == "monthly" then
      match Parse(startDate)
      case None => Err(InvalidTimeValue)
      case Some(d) => Ok(Format(MonthlyEnd(d)))
    else Ok(startDate)
  }

  /** The weekly end is `setDate(getDate() + 6)`: six days after the start. */
  lemma WeeklyEndNumber(d: Date)
    requires IsValid(d)
    ensures DayNumber(WeeklyEnd(d)) == MakeDay(d.year, d.month - 1, d.day + 6)
    ensures DayNumber(WeeklyEnd(d)) == DayNumber(d) + 6
  {
    AddDaysNumber(d, 6);
    MakeDayInYear(d.year, d.month - 1, d.day + 6);
  }

  /** A day past the end of month m rolls forward to the day number MakeDay gives it. */
  lemma RolledForward(y: int, m: int, day: int)
    requires 1 <= m <= 12 && DaysInMonth(y, m) < day
    ensures DayNumber(AddDays(Date(y, m, DaysInMonth(y, m)), day - DaysInMonth(y, m)))
            == DayFromYear(y) + DaysBeforeMonth(y, m) + day - 1
  {
    AddDaysNumber(Date(y, m, DaysInMonth(y, m)), day - DaysInMonth(y, m));
  }

  /** Within a year: the rolled date counts `day` days into the next month. */
  lemma SameDayNextMonthInYear(d: Date)
    requires IsValid(d) && d.month < 12
    ensures DayNumber(SameDayNextMonth(d)) == DayFromYear(d.year) + DaysBeforeMonth(d.year, d.month + 1) + d.day - 1
  {
    if d.day > DaysInMonth(d.year, d.month + 1) {
      RolledForward(d.year, d.month + 1, d.day);
    } else {
      assert SameDayNextMonth(d) == Date(d.year, d.month + 1, d.day);
    }
  }

  /** From December: the same day of January of the next year, which always exists. */
  lemma SameDayNextMonthDecember(d: Date)
    requires IsValid(d) && d.month == 12
    ensures DayNumber(SameDayNextMonth(d)) == DayFromYear(d.year + 1) + d.day - 1
  {
    assert SameDayNextMonth(d) == Date(d.year + 1, 1, d.day);
  }

  /** The rolled date is the day MakeDay designates for the same day of the next month. */
  lemma SameDayNextMonthNumber(d: Date)
    requires IsValid(d)
    ensures DayNumber(SameDayNextMonth(d)) == MakeDay(d.year, d.month, d.day)
  {
    if d.month < 12 {
      SameDayNextMonthInYear(d);
      MakeDayInYear(d.year, d.month, d.day);
    } else {
      SameDayNextMonthDecember(d);
      MakeDayNextJanuary(d.year, d.day);
    }
  }

  /** The same day of the next month lies a month's length after the start. */
  lemma NextMonthOffset(d: Date)
    requires IsValid(d)
    ensures MakeDay(d.year, d.month, d.day) == DayNumber(d) + DaysInMonth(d.year, d.month)
  {
    if d.month < 12 {
      MakeDayInYear(d.year, d.month, d.day);
      DaysBeforeMonthStep(d.year, d.month);
    } else {
      MakeDayNextJanuary(d.year, d.day);
      DayFromYearStep(d.year);
      DaysBeforeDecember(d.year);
    }
  }

  /**
   * The monthly end is `setMonth(getMonth() + 1)` followed by `setDate(getDate() - 1)`:
   * one day before the same day of the next month, which is the length of the start's
   * month minus one day after the start.
   */
  lemma MonthlyEndNumber(d: Date)
    requires IsValid(d)
    ensures DayNumber(MonthlyEnd(d)) == MakeDay(d.year, d.month, d.day) - 1
    ensures DayNumber(MonthlyEnd(d)) == DayNumber(d) + DaysInMonth(d.year, d.month) - 1
  {
    SameDayNextMonthNumber(d);
    PrevDayNumber(SameDayNextMonth(d));
    NextMonthOffset(d);
  }

  /** WeeklyEnd is the only valid date whose day number `setDate` designates. */
  lemma WeeklyEndUnique(d: Date, e: Date)
    requires IsValid(d) && IsValid(e)
    requires DayNumber(e) == MakeDay(d.year, d.month - 1, d.day + 6)
    ensures e == WeeklyEnd(d)
  {
    WeeklyEndNumber(d);
    DayNumberInjective(e, WeeklyEnd(d));
  }

  /** MonthlyEnd is the only valid date whose day number `setMonth`/`setDate` designate. */
  lemma MonthlyEndUnique(d: Date, e: Date)
    requires IsValid(d) && IsValid(e)
    requires DayNumber(e) == MakeDay(d.year, d.month, d.day) - 1
    ensures e == MonthlyEnd(d)
  {
    MonthlyEndNumber(d);
    DayNumberInjective(e, MonthlyEnd(d));
  }

  /** A date at most a year after d lies in d's year or the next one. */
  lemma WithinNextYear(d: Date, e: Date)
    requires IsValid(d) && IsValid(e)
    requires DayNumber(d) <= DayNumber(e) <= DayNumber(d) + 365
    ensures d.year <= e.year <= d.year + 1
  {
    DayNumberWithinYear(d);
    DayNumberWithinYear(e);
    DayFromYearStep(d.year);
    DayFromYearStep(d.year + 1);
    if e.year > d.year + 1 {
      DayFromYearGrowth(d.year + 1, e.year);
    }
    if e.year < d.year {
      DayFromYearGrowth(e.year, d.year);
    }
  }

  /**
   * For a start date that reads as a date, weekly and monthly goals get a default end
   * date that itself reads back as a date strictly after the start, and daily goals end
   * on the start date.
   */
  lemma DefaultEndDate(startDate: string, goalType: string)
    requires Parse(startDate).Some? && Parse(startDate).value.year <= 9998
    requires goalType == "daily" || goalType == "weekly" || goalType == "monthly"
    ensures CalculateEndDate(startDate, goalType).Ok?
    ensures Parse(CalculateEndDate(startDate, goalType).value).Some?
    ensures var s := Parse(startDate).value;
            var e := Parse(CalculateEndDate(startDate, goalType).value).value;
            (goalType == "daily" <==> e == s) && (goalType != "daily" <==> DayNumber(s) < DayNumber(e))
    ensures var s := Parse(startDate).value;
            var e := Parse(CalculateEndDate(startDate, goalType).value).value;
            goalType == "weekly" ==> DayNumber(e) == DayNumber(s) + 6
    ensures var s := Parse(startDate).value;
            var e := Parse(CalculateEndDate(startDate, goalType).value).value;
            goalType == "monthly" ==> DayNumber(e) == MakeDay(s.year, s.month, s.day) - 1
  {
    var s := Parse(startDate).value;
    if goalType == "weekly" {
      WeeklyEndNumber(s);
      WithinNextYear(s, WeeklyEnd(s));
      ParseFormat(WeeklyEnd(s));
      assert WeeklyEnd(s) != s;
    } else if goalType == "monthly" {
      MonthlyEndNumber(s);
      WithinNextYear(s, MonthlyEnd(s));
      ParseFormat(MonthlyEnd(s));
      assert MonthlyEnd(s) != s;
    }
  }

  /** Worked example: a weekly goal inside one month. */
  lemma WeeklyExample()
    ensures WeeklyEnd(Date(2024, 3, 10)) == Date(2024, 3, 16)
  {
    WeeklyEndUnique(Date(2024, 3, 10), Date(2024, 3, 16));
  }

  /** Worked example: a weekly goal crossing into the next year. */
  lemma WeeklyAcrossYearExample()
    ensures WeeklyEnd(Date(2024, 12, 28)) == Date(2025, 1, 3)
  {
    WeeklyEndUnique(Date(2024, 12, 28), Date(2025, 1, 3));
  }

  /** Worked example: a monthly goal ends the day before the same day next month. */
  lemma MonthlyExample()
    ensures MonthlyEnd(Date(2024, 3, 10)) == Date(2024, 4, 9)
  {
    MonthlyEndUnique(Date(2024, 3, 10), Date(2024, 4, 9));
  }

  /** Worked example: 31 January rolls past the 29 days of February 2024 to 2 March. */
  lemma MonthlyOverflowExample()
    ensures MonthlyEnd(Date(2024, 1, 31)) == Date(2024, 3, 1)
  {
    MonthlyEndUnique(Date(2024, 1, 31), Date(2024, 3, 1));
  }
}

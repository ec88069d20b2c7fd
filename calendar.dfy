/** Decomposition of an instant, given as a count of days since 1970-01-01
    in UTC, into the proleptic Gregorian calendar fields that the load stores:
    year, month, day of month, weekday (Monday = 0) and the week number of
    ISO 8601 (section 4.1.4 of ISO 8601:2004). */
module Calendar {

  const MS_PER_HOUR := 3600000
  const MS_PER_DAY := 86400000

  datatype Date = Date(year: int, month: int, day: int)

  predicate IsLeapYear(y: int) {
    y % 4 == 0 && (y % 100 != 0 || y % 400 == 0)
  }

  function DaysInYear(y: int): int {
    if IsLeapYear(y) then 366 else 365
  }

  function DaysInMonth(y: int, m: int): int
    requires 1 <= m <= 12
  {
    if m == 2 then (if IsLeapYear(y) then 29 else 28)
    else if m == 4 || m == 6 || m == 9 || m == 11 then 30
    else 31
  }

  /** Days in the months of year y before month m. */
  function DaysBeforeMonth(y: int, m: int): int
    requires 1 <= m <= 12
  {
    var common := [0, 31, 59, 90, 120, 151, 181, 212, 243, 273, 304, 334][m - 1];
    if m > 2 && IsLeapYear(y) then common + 1 else common
  }

  /** Days from 1970-01-01 to January 1st of year y (negative before 1970). */
  function DaysBeforeYear(y: int): int
    decreases if y >= 1970 then y - 1970 else 1970 - y
  {
    if y == 1970 then 0
    else if y > 1970 then DaysBeforeYear(y - 1) + DaysInYear(y - 1)
    else DaysBeforeYear(y + 1) - DaysInYear(y)
  }

  predicate ValidDate(d: Date) {
    1 <= d.month <= 12 && 1 <= d.day <= DaysInMonth(d.year, d.month)
  }

  /** Days from 1970-01-01 to date d. */
  function DaysFromCivil(d: Date): int
    requires ValidDate(d)
  {
    DaysBeforeYear(d.year) + DaysBeforeMonth(d.year, d.month) + d.day - 1
  }

  /** Day of the year, January 1st being 1. */
  function OrdinalDay(d: Date): (r: int)
    requires ValidDate(d)
    ensures 1 <= r <= DaysInYear(d.year)
  {
    DaysBeforeMonth(d.year, d.month) + d.day
  }

  /** Day of the week, Monday = 0 ... Sunday = 6; 1970-01-01 was a Thursday. */
  function Weekday(days: int): (r: int)
    ensures 0 <= r < 7
  {
    (days + 3) % 7
  }

  // ---------------------------------------------------------------------------
  // From a day count back to a date
  // ---------------------------------------------------------------------------

  lemma DaysBeforeNextYear(y: int)
    ensures DaysBeforeYear(y + 1) == DaysBeforeYear(y) + DaysInYear(y)
  {
  }

  /** The year containing the day rel days after January 1st of y, and the
      zero-based position of that day in its year. */
  function SplitYears(rel: int, y: int): (r: (int, int))
    ensures 0 <= r.1 < DaysInYear(r.0)
    ensures DaysBeforeYear(r.0) + r.1 == DaysBeforeYear(y) + rel
    decreases if rel < 0 then 1000 - rel else rel
  {
    if rel < 0 then
      DaysBeforeNextYear(y - 1);
      SplitYears(rel + DaysInYear(y - 1), y - 1)
    else if rel >= DaysInYear(y) then
      DaysBeforeNextYear(y);
      SplitYears(rel - DaysInYear(y), y + 1)
    else
      (y, rel)
  }

  /** The month of year y that holds the zero-based day doy, searching from month m on. */
  function FindMonth(y: int, doy: int, m: int): (r: int)
    requires 1 <= m <= 12 && DaysBeforeMonth(y, m) <= doy < DaysInYear(y)
    ensures m <= r <= 12
    ensures DaysBeforeMonth(y, r) <= doy < DaysBeforeMonth(y, r) + DaysInMonth(y, r)
    decreases 12 - m
  {
    if m < 12 && DaysBeforeMonth(y, m + 1) <= doy then FindMonth(y, doy, m + 1) else m
  }

  /** The date of the day that lies days after 1970-01-01. */
  function CivilFromDays(days: int): (d: Date)
    ensures ValidDate(d)
    ensures DaysFromCivil(d) == days
  {
    var (y, doy) := SplitYears(days, 1970);
    var m := FindMonth(y, doy, 1);
    Date(y, m, doy - DaysBeforeMonth(y, m) + 1)
  }

  /** Years are laid end to end: every day of year y1 comes before January 1st of a later year y2. */
  lemma {:induction false} YearsOrdered(y1: int, y2: int)
    requires y1 < y2
    ensures DaysBeforeYear(y1) + DaysInYear(y1) <= DaysBeforeYear(y2)
    decreases y2 - y1
  {
    DaysBeforeNextYear(y1);
    if y1 + 1 < y2 {
      YearsOrdered(y1 + 1, y2);
    }
  }

  /** Months are laid end to end within a year. */
  lemma {:induction false} MonthsOrdered(y: int, m1: int, m2: int)
    requires 1 <= m1 < m2 <= 12
    ensures DaysBeforeMonth(y, m1) + DaysInMonth(y, m1) <= DaysBeforeMonth(y, m2)
    decreases m2 - m1
  {
    if m1 + 1 < m2 {
      MonthsOrdered(y, m1 + 1, m2);
    }
  }

  /** Distinct dates are distinct days. */
  lemma DaysFromCivilInjective(d1: Date, d2: Date)
    requires ValidDate(d1) && ValidDate(d2)
    requires DaysFromCivil(d1) == DaysFromCivil(d2)
    ensures d1 == d2
  {
    if d1.year < d2.year {
      YearsOrdered(d1.year, d2.year);
    } else if d2.year < d1.year {
      YearsOrdered(d2.year, d1.year);
    } else if d1.month < d2.month {
      MonthsOrdered(d1.year, d1.month, d2.month);
    } else if d2.month < d1.month {
      MonthsOrdered(d1.year, d2.month, d1.month);
    }
  }

  /** CivilFromDays inverts DaysFromCivil on every valid date. */
  lemma CivilRoundTrip(d: Date)
    requires ValidDate(d)
    ensures CivilFromDays(DaysFromCivil(d)) == d
  {
    DaysFromCivilInjective(CivilFromDays(DaysFromCivil(d)), d);
  }

  // ---------------------------------------------------------------------------
  // ISO 8601 week numbers
  // ---------------------------------------------------------------------------

  /** An ISO year has 53 weeks when it starts on a Thursday, or is a leap year
      starting on a Wednesday; otherwise 52. */
  function WeeksInYear(y: int): (r: int)
    ensures r == 52 || r == 53
  {
    var jan1 := Weekday(DaysBeforeYear(y));
    if jan1 == 3 || (IsLeapYear(y) && jan1 == 2) then 53 else 52
  }

  /** The ISO week number of the day that lies days after 1970-01-01: the week
      (Monday to Sunday) containing that day, numbered so that week 1 is the
      one holding the year's first Thursday. */
  function IsoWeek(days: int): (w: int)
    ensures 1 <= w <= 53
  {
    var d := CivilFromDays(days);
    var w := (OrdinalDay(d) - (Weekday(days) + 1) + 10) / 7;
    if w < 1 then WeeksInYear(d.year - 1)
    else if w > WeeksInYear(d.year) then 1
    else w
  }

  /** 1970-01-01 was a Thursday, and each day's weekday follows the previous one's. */
  lemma WeekdaySteps(days: int)
    ensures Weekday(0) == 3
    ensures Weekday(days + 1) == (Weekday(days) + 1) % 7
  {
  }

  /** 1970 began on a Thursday: its first day is in ISO week 1 and, the year
      having 53 ISO weeks, its last day is in week 53. */
  lemma IsoWeeksOf1970()
    ensures CivilFromDays(0) == Date(1970, 1, 1) && IsoWeek(0) == 1
    ensures CivilFromDays(364) == Date(1970, 12, 31) && IsoWeek(364) == 53
  {
    CivilRoundTrip(Date(1970, 1, 1));
    CivilRoundTrip(Date(1970, 12, 31));
  }

  /** 1971-01-01 (a Friday) and 1971-01-03 (a Sunday) still belong to week 53 of 1970. */
  lemma IsoWeeksEndOf1970()
    ensures CivilFromDays(365) == Date(1971, 1, 1) && IsoWeek(365) == 53
    ensures CivilFromDays(367) == Date(1971, 1, 3) && IsoWeek(367) == 53
  {
    CivilRoundTrip(Date(1971, 1, 1));
    CivilRoundTrip(Date(1971, 1, 3));
  }

  /** Monday 1971-01-04 starts week 1 of 1971. */
  lemma IsoWeekOneOf1971()
    ensures CivilFromDays(368) == Date(1971, 1, 4) && IsoWeek(368) == 1
  {
    CivilRoundTrip(Date(1971, 1, 4));
  }
}

/**
 The proleptic Gregorian calendar as day numbers (days since 1970-01-01), with the overflow
 normalization the quota windows rely on: a day or month outside its range rolls over.
 Months are counted by one index, 12 * year + (month - 1).
 */
module Civil {
  const DAY: int := 86400
  const HOUR: int := 3600

  datatype Date = Date(year: int, month: int, day: int)

  predicate IsLeap(year: int) {
    year % 4 == 0 && (year % 100 != 0 || year % 400 == 0)
  }

  /** Days in a month given by its index. */
  function MonthLength(index: int): (length: int)
    ensures 28 <= length <= 31
  {
    var month := index % 12;
    if month == 1 then (if IsLeap(index / 12) then 29 else 28)
    else if month == 3 || month == 5 || month == 8 || month == 10 then 30
    else 31
  }

  const JANUARY_1970: int := 12 * 1970

  /** Day number of the first day of a month: the lengths of the months since January 1970. */
  function MonthStart(index: int): int
    decreases if index < JANUARY_1970 then JANUARY_1970 - index else index - JANUARY_1970
  {
    if index == JANUARY_1970 then 0
    else if index > JANUARY_1970 then MonthStart(index - 1) + MonthLength(index - 1)
    else MonthStart(index + 1) - MonthLength(index)
  }

  lemma MonthStartSteps(index: int)
    ensures MonthStart(index + 1) - MonthStart(index) == MonthLength(index)
  {
  }

  lemma {:induction false} MonthStartsApart(i: int, j: int)
    requires i <= j
    ensures MonthStart(i) + 28 * (j - i) <= MonthStart(j)
    decreases j - i
  {
    if i < j {
      MonthStartSteps(j - 1);
      MonthStartsApart(i, j - 1);
    }
  }

  /** The leap days of the years before a year, counted from the year 1. */
  function LeapDaysBefore(year: int): int {
    (year - 1) / 4 - (year - 1) / 100 + (year - 1) / 400
  }

  lemma QuotientSteps(n: int)
    ensures n / 4 - (n - 1) / 4 == if n % 4 == 0 then 1 else 0
    ensures n / 100 - (n - 1) / 100 == if n % 100 == 0 then 1 else 0
    ensures n / 400 - (n - 1) / 400 == if n % 400 == 0 then 1 else 0
  {
  }

  lemma LeapDaysStep(year: int)
    ensures LeapDaysBefore(year + 1) - LeapDaysBefore(year) == if IsLeap(year) then 1 else 0
  {
    QuotientSteps(year);
    assert year == 400 * (year / 400) + year % 400 && year == 100 * (year / 100) + year % 100;
  }

  lemma MonthOfYear(year: int, m: int)
    requires 0 <= m < 12
    ensures MonthStart(12 * year + m + 1) - MonthStart(12 * year + m)
         == if m == 1 then (if IsLeap(year) then 29 else 28) else if m == 3 || m == 5 || m == 8 || m == 10 then 30 else 31
  {
    MonthStartSteps(12 * year + m);
    assert (12 * year + m) % 12 == m && (12 * year + m) / 12 == year;
  }

  /** The twelve months of a year, one by one. */
  lemma YearLength(year: int)
    ensures MonthStart(12 * year + 12) - MonthStart(12 * year) == if IsLeap(year) then 366 else 365
    ensures MonthStart(12 * year + 11) - MonthStart(12 * year) == if IsLeap(year) then 335 else 334
  {
    hide MonthStart, IsLeap;
    MonthOfYear(year, 0);
    MonthOfYear(year, 1);
    MonthOfYear(year, 2);
    MonthOfYear(year, 3);
    MonthOfYear(year, 4);
    MonthOfYear(year, 5);
    MonthOfYear(year, 6);
    MonthOfYear(year, 7);
    MonthOfYear(year, 8);
    MonthOfYear(year, 9);
    MonthOfYear(year, 10);
    MonthOfYear(year, 11);
  }

  /** Where a year starts, in closed form: 365 days for each year since 1970 and the leap days. */
  lemma {:induction false} YearStart(year: int)
    ensures MonthStart(12 * year) == 365 * (year - 1970) + LeapDaysBefore(year) - 477
    decreases if year < 1970 then 1970 - year else year - 1970
  {
    if year > 1970 {
      YearStart(year - 1);
      YearLength(year - 1);
      LeapDaysStep(year - 1);
    } else if year < 1970 {
      YearStart(year + 1);
      YearLength(year);
      LeapDaysStep(year);
    }
  }

  /** Days that any calendar shows: a leap day that was a Tuesday, the one that 1900 did not have, and the
      last day that four digits of a year can name. */
  lemma KnownDays()
    ensures DayNumber(2000, 2, 29) == 11016 && Weekday(11016) == 2
    ensures DayNumber(1900, 2, 29) == DayNumber(1900, 3, 1) == -25508
    ensures DayNumber(9999, 12, 31) == 2932896
  {
    YearStart(2000);
    YearStart(1900);
    YearStart(9999);
    YearLength(9999);
    MonthStartSteps(12 * 2000);
    MonthStartSteps(12 * 1900);
    MonthStartSteps(12 * 1900 + 1);
    hide MonthStart;
  }

  /** Steps from month `index` to the month that holds `day`. */
  function SeekMonth(day: int, index: int): (found: int)
    ensures MonthStart(found) <= day < MonthStart(found + 1)
    decreases if day < MonthStart(index) then 1 + MonthStart(index) - day
              else if MonthStart(index + 1) <= day then 1 + day - MonthStart(index + 1)
              else 0
  {
    MonthStartSteps(index - 1);
    MonthStartSteps(index);
    MonthStartSteps(index + 1);
    if day < MonthStart(index) then SeekMonth(day, index - 1)
    else if MonthStart(index + 1) <= day then SeekMonth(day, index + 1)
    else index
  }

  /** Index of the month that holds a day. */
  function MonthOf(day: int): (index: int)
    ensures MonthStart(index) <= day < MonthStart(index + 1)
  {
    SeekMonth(day, JANUARY_1970)
  }

  /** A day lies in one month only. */
  lemma MonthOfUnique(day: int, index: int)
    requires MonthStart(index) <= day < MonthStart(index + 1)
    ensures MonthOf(day) == index
  {
    var found := MonthOf(day);
    if found < index {
      MonthStartsApart(found + 1, index);
    } else if index < found {
      MonthStartsApart(index + 1, found);
    }
  }

  /** The civil date of a day number. */
  function ToDate(day: int): Date {
    var index := MonthOf(day);
    Date(index / 12, index % 12 + 1, day - MonthStart(index) + 1)
  }

  /** The day number of a civil date; an out-of-range month or day rolls over. */
  function DayNumber(year: int, month: int, day: int): int {
    MonthStart(12 * year + month - 1) + day - 1
  }

  predicate IsDate(date: Date) {
    1 <= date.month <= 12 && 1 <= date.day <= MonthLength(12 * date.year + date.month - 1)
  }

  /** Splitting a month index into year and month loses nothing. */
  lemma MonthIndexParts(index: int, year: int, month: int)
    requires 1 <= month <= 12
    ensures 12 * (index / 12) + (index % 12 + 1) - 1 == index
    ensures (12 * year + month - 1) / 12 == year && (12 * year + month - 1) % 12 + 1 == month
  {
  }

  /** Every day has a calendar date, and that date names the day. */
  lemma DayRoundTrip(day: int)
    ensures var there := ToDate(day); IsDate(there) && DayNumber(there.year, there.month, there.day) == day
  {
    var index := MonthOf(day);
    MonthStartSteps(index);
    MonthIndexParts(index, 0, 1);
  }

  /** Every calendar date names a day, and that day has this date. */
  lemma DateRoundTrip(date: Date)
    requires IsDate(date)
    ensures ToDate(DayNumber(date.year, date.month, date.day)) == date
  {
    var index := 12 * date.year + date.month - 1;
    MonthStartSteps(index);
    MonthOfUnique(DayNumber(date.year, date.month, date.day), index);
    MonthIndexParts(0, date.year, date.month);
  }

  /** Days in a month, read off the last day before the next one starts. */
  function DaysIn(year: int, month: int): int {
    ToDate(DayNumber(year, month + 1, 0)).day
  }

  lemma DaysInIsMonthLength(year: int, month: int)
    ensures DaysIn(year, month) == MonthLength(12 * year + month - 1)
  {
    var index := 12 * year + month - 1;
    MonthStartSteps(index);
    MonthOfUnique(MonthStart(index + 1) - 1, index);
  }

  /** Day of the week, Sunday = 0. */
  function Weekday(day: int): int {
    (day + 4) % 7
  }
}

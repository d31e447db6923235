/** Truncating a date-time and turning a birth date into an age. */
module TimeExtensions {

  type Year = y: int | 1 <= y <= 9999 witness 1
  type Month = m: int | 1 <= m <= 12 witness 1
  type Day = d: int | 1 <= d <= 31 witness 1
  type Hour = h: int | 0 <= h < 24
  type Minute = m: int | 0 <= m < 60
  type Second = s: int | 0 <= s < 60
  /** The part of a date-time below one second, in 100-nanosecond ticks. */
  type SubSecond = t: int | 0 <= t < 10_000_000

  /** A date-time by its components. */
  datatype DateTime = DateTime(year: Year, month: Month, day: Day, hour: Hour, minute: Minute, second: Second, fraction: SubSecond)

  /** An age in years, months and days. */
  datatype Age = Age(years: int, months: int, days: int)

  /** Same calendar date and time of day to the second; the sub-second part is dropped. */
  function AccurateToOneSecond(value: DateTime): (r: DateTime)
    ensures r.year == value.year && r.month == value.month && r.day == value.day
    ensures r.hour == value.hour && r.minute == value.minute && r.second == value.second
    ensures r.fraction == 0
  {
    DateTime(value.year, value.month, value.day, value.hour, value.minute, value.second, 0)
  }

  /** Same calendar date at midnight. */
  function AccurateToOneDay(value: DateTime): (r: DateTime)
    ensures r.year == value.year && r.month == value.month && r.day == value.day
    ensures r.hour == 0 && r.minute == 0 && r.second == 0 && r.fraction == 0
  {
    DateTime(value.year, value.month, value.day, 0, 0, 0, 0)
  }

  /** Truncating to the second, or to the day, a second time changes nothing. */
  lemma TruncationIsIdempotent(x: DateTime)
    ensures AccurateToOneSecond(AccurateToOneSecond(x)) == AccurateToOneSecond(x)
    ensures AccurateToOneDay(AccurateToOneDay(x)) == AccurateToOneDay(x)
  {
  }

  /** Truncating to the day absorbs truncating to the second, in either order. */
  lemma DayAbsorbsSecond(x: DateTime)
    ensures AccurateToOneDay(AccurateToOneSecond(x)) == AccurateToOneDay(x)
    ensures AccurateToOneSecond(AccurateToOneDay(x)) == AccurateToOneDay(x)
  {
  }

  /**
   * The age of `value` at the moment `now`. Months and years are whole months elapsed by the
   * calendar components (a month is lost when the day of the month has not yet been reached),
   * with the months kept in 0..11 by borrowing a year; days are the plain difference of the
   * days of the month and may be negative.
   */
  method ToAge(value: DateTime, now: DateTime) returns (age: Age)
    ensures 0 <= age.months <= 11
    ensures 12 * age.years + age.months
         == 12 * (now.year - value.year) + (now.month - value.month) - (if now.day < value.day then 1 else 0)
    ensures age.days == now.day - value.day
    ensures now.month >= value.month && now.day >= value.day ==>
      age == Age(now.year - value.year, now.month - value.month, now.day - value.day)
  {
    var years := now.year - value.year;
    var days := now.day - value.day;
    var months := now.month - value.month;
    if days < 0 {
      months := months - 1;
    }
    if months < 0 {
      years := years - 1;
      months := months + 12;
    }
    age := Age(years, months, days);
  }

  /** The first three conversions the age feature lists: 40/0/0, 10/0/13 and 0/1/0. */
  method AgeFeatureRows() returns (a1: Age, a2: Age, a3: Age)
    ensures a1 == Age(40, 0, 0) && a2 == Age(10, 0, 13) && a3 == Age(0, 1, 0)
  {
    a1 := ToAge(DateTime(1973, 8, 1, 0, 0, 0, 0), DateTime(2013, 8, 1, 0, 0, 0, 0));
    a2 := ToAge(DateTime(2000, 2, 1, 0, 0, 0, 0), DateTime(2010, 2, 14, 0, 0, 0, 0));
    a3 := ToAge(DateTime(2010, 12, 15, 0, 0, 0, 0), DateTime(2011, 1, 15, 0, 0, 0, 0));
  }

  /**
   * The fourth row of the age feature, a birth date of 7/31/2013 seen on 8/9/2013, expects an
   * age of nine days; the conversion as written gives minus twenty-two.
   */
  method AgeFeatureRowFourAsWritten() returns (age: Age)
    ensures age == Age(0, 0, -22) && age.days != 9
  {
    age := ToAge(DateTime(2013, 7, 31, 0, 0, 0, 0), DateTime(2013, 8, 9, 0, 0, 0, 0));
  }

  // ---------------------------------------------------------------- the day borrow, corrected

  predicate IsLeapYear(y: int)
  {
    (y % 4 == 0 && y % 100 != 0) || y % 400 == 0
  }

  /** Days in month `m` of year `y` in the Gregorian calendar. */
  function DaysInMonth(y: int, m: Month): (n: int)
    ensures 28 <= n <= 31
  {
    if m == 2 then (if IsLeapYear(y) then 29 else 28)
    else if m == 4 || m == 6 || m == 9 || m == 11 then 30
    else 31
  }

  /** The number of days in the calendar month before the month of `d`. */
  function DaysInPreviousMonth(d: DateTime): (n: int)
    ensures 28 <= n <= 31
  {
    if d.month == 1 then DaysInMonth(d.year - 1, 12) else DaysInMonth(d.year, d.month - 1)
  }

  /**
   * The age with the day borrow completed: when the day of the month has not yet been reached,
   * the month given up is counted as the days of the month before `now`. Years and months are
   * those of `ToAge`; days agree with `ToAge` when no day is borrowed, never exceed 30, and are
   * never negative when the birth day exists in the month before `now`.
   */
  method ToAgeBorrowingDays(value: DateTime, now: DateTime) returns (age: Age)
    ensures 0 <= age.months <= 11
    ensures 12 * age.years + age.months
         == 12 * (now.year - value.year) + (now.month - value.month) - (if now.day < value.day then 1 else 0)
    ensures now.day >= value.day ==> age.days == now.day - value.day
    ensures now.day < value.day ==> age.days == now.day - value.day + DaysInPreviousMonth(now)
    ensures age.days <= 30
    ensures value.day <= DaysInPreviousMonth(now) ==> 0 <= age.days
  {
    var years := now.year - value.year;
    var days := now.day - value.day;
    var months := now.month - value.month;
    if days < 0 {
      months := months - 1;
      days := days + DaysInPreviousMonth(now);
    }
    if months < 0 {
      years := years - 1;
      months := months + 12;
    }
    age := Age(years, months, days);
  }

  /** The fourth and fifth rows of the age feature: 0/0/9 and 0/1/20. */
  method AgeFeatureRowsFourAndFive() returns (a4: Age, a5: Age)
    ensures a4 == Age(0, 0, 9) && a5 == Age(0, 1, 20)
  {
    a4 := ToAgeBorrowingDays(DateTime(2013, 7, 31, 0, 0, 0, 0), DateTime(2013, 8, 9, 0, 0, 0, 0));
    a5 := ToAgeBorrowingDays(DateTime(2013, 6, 20, 0, 0, 0, 0), DateTime(2013, 8, 9, 0, 0, 0, 0));
  }
}

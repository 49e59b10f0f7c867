/**
 * Wall-clock times as Go's `time.Time` breaks them down in one location
 * (year, month, day, hour, minute, second), the proleptic Gregorian
 * calendar behind them, and the date helpers of pkg/utils/time.go.
 */
module Times {
  import opened Wrappers

  datatype Time = Time(year: int, month: int, day: int, hour: int, minute: int, second: int)
  {
    /** Every `time.Time` is normalised: a real calendar day and clock. */
    predicate Valid() {
      1 <= month <= 12 && 1 <= day <= DaysIn(year, month)
      && 0 <= hour < 24 && 0 <= minute < 60 && 0 <= second < 60
    }

    /** `time.Time.IsZero`: January 1, year 1, 00:00:00. */
    predicate IsZero() {
      this == ZeroTime
    }
  }

  const ZeroTime := Time(1, 1, 1, 0, 0, 0)
  const SecondsPerDay := 86400

  predicate IsLeap(y: int) {
    y % 4 == 0 && (y % 100 != 0 || y % 400 == 0)
  }

  function DaysIn(y: int, m: int): (r: int)
    ensures 28 <= r <= 31
  {
    if m == 2 then (if IsLeap(y) then 29 else 28)
    else if m == 4 || m == 6 || m == 9 || m == 11 then 30
    else 31
  }

  /** Days of the months before month `m` of year `y`. */
  function DaysBeforeMonth(y: int, m: int): (r: int)
    requires 1 <= m <= 13
    ensures r >= 0
  {
    if m == 1 then 0 else DaysBeforeMonth(y, m - 1) + DaysIn(y, m - 1)
  }

  /** Days of the years before year `y`, counted from year 1. */
  function DaysBeforeYear(y: int): int {
    var p := y - 1;
    365 * p + p / 4 - p / 100 + p / 400
  }

  /** Days since January 1 of year 1 (day 0, a Monday). */
  function DayNumber(t: Time): int
    requires 1 <= t.month <= 12
  {
    DaysBeforeYear(t.year) + DaysBeforeMonth(t.year, t.month) + t.day - 1
  }

  /** Seconds since January 1 of year 1, 00:00:00. */
  function Seconds(t: Time): int
    requires 1 <= t.month <= 12
  {
    DayNumber(t) * SecondsPerDay + t.hour * 3600 + t.minute * 60 + t.second
  }

  /** `time.Time.Weekday`: Sunday is 0, Monday 1, ..., Saturday 6. */
  function Weekday(t: Time): (r: int)
    requires 1 <= t.month <= 12
    ensures 0 <= r < 7
  {
    (DayNumber(t) + 1) % 7
  }

  const Monday := 1

  /** The same clock one calendar day earlier (Go's normalisation of day 0). */
  function PrevDay(t: Time): (r: Time)
    requires t.Valid()
    ensures r.Valid()
    ensures DayNumber(r) == DayNumber(t) - 1
    ensures r.hour == t.hour && r.minute == t.minute && r.second == t.second
  {
    if t.day > 1 then t.(day := t.day - 1)
    else if t.month > 1 then t.(month := t.month - 1, day := DaysIn(t.year, t.month - 1))
    else
      YearLength(t.year - 1);
      t.(year := t.year - 1, month := 12, day := 31)
  }

  /** The same clock one calendar day later (`Add(24 * time.Hour)` without DST). */
  function NextDay(t: Time): (r: Time)
    requires t.Valid()
    ensures r.Valid()
    ensures DayNumber(r) == DayNumber(t) + 1
    ensures r.hour == t.hour && r.minute == t.minute && r.second == t.second
  {
    if t.day < DaysIn(t.year, t.month) then t.(day := t.day + 1)
    else if t.month < 12 then t.(month := t.month + 1, day := 1)
    else
      YearLength(t.year);
      t.(year := t.year + 1, month := 1, day := 1)
  }

  /** `AddDate(0, 0, -k)`: the same clock `k` calendar days earlier. */
  function MinusDays(t: Time, k: nat): (r: Time)
    requires t.Valid()
    ensures r.Valid()
    ensures DayNumber(r) == DayNumber(t) - k
    ensures r.hour == t.hour && r.minute == t.minute && r.second == t.second
    decreases k
  {
    if k == 0 then t else MinusDays(PrevDay(t), k - 1)
  }

  /** A year is 365 days, 366 in a leap year. */
  lemma YearLength(y: int)
    ensures DaysBeforeYear(y + 1) == DaysBeforeYear(y) + DaysBeforeMonth(y, 13)
    ensures DaysBeforeMonth(y, 13) == if IsLeap(y) then 366 else 365
  {
    var f := DaysIn(y, 2);
    assert DaysBeforeMonth(y, 2) == 31;
    assert DaysBeforeMonth(y, 3) == 31 + f;
    assert DaysBeforeMonth(y, 4) == 62 + f;
    assert DaysBeforeMonth(y, 5) == 92 + f;
    assert DaysBeforeMonth(y, 6) == 123 + f;
    assert DaysBeforeMonth(y, 7) == 153 + f;
    assert DaysBeforeMonth(y, 8) == 184 + f;
    assert DaysBeforeMonth(y, 9) == 215 + f;
    assert DaysBeforeMonth(y, 10) == 245 + f;
    assert DaysBeforeMonth(y, 11) == 276 + f;
    assert DaysBeforeMonth(y, 12) == 306 + f;
    var p := y - 1;
    assert y / 4 == p / 4 + (if y % 4 == 0 then 1 else 0);
    assert y / 100 == p / 100 + (if y % 100 == 0 then 1 else 0);
    assert y / 400 == p / 400 + (if y % 400 == 0 then 1 else 0);
  }

  lemma {:induction false} DaysBeforeMonthMonotone(y: int, m: int, n: int)
    requires 1 <= m <= n <= 13
    ensures DaysBeforeMonth(y, m) <= DaysBeforeMonth(y, n)
    decreases n - m
  {
    if m < n {
      DaysBeforeMonthMonotone(y, m, n - 1);
    }
  }

  lemma {:induction false} DaysBeforeYearMonotone(y: int, z: int)
    requires y <= z
    ensures DaysBeforeYear(y) <= DaysBeforeYear(z)
    decreases z - y
  {
    if y < z {
      DaysBeforeYearMonotone(y, z - 1);
      YearLength(z - 1);
    }
  }

  /** Lexicographic order of the calendar dates, the clock ignored. */
  predicate DateLess(a: Time, b: Time) {
    a.year < b.year
    || (a.year == b.year && (a.month < b.month || (a.month == b.month && a.day < b.day)))
  }

  predicate SameDate(a: Time, b: Time) {
    a.year == b.year && a.month == b.month && a.day == b.day
  }

  /** Day numbers follow the calendar order of valid dates. */
  lemma DateLessDayNumber(a: Time, b: Time)
    requires a.Valid() && b.Valid() && DateLess(a, b)
    ensures DayNumber(a) < DayNumber(b)
  {
    if a.year < b.year {
      DaysBeforeMonthMonotone(a.year, a.month + 1, 13);
      YearLength(a.year);
      DaysBeforeYearMonotone(a.year + 1, b.year);
    } else if a.month < b.month {
      DaysBeforeMonthMonotone(a.year, a.month + 1, b.month);
    }
  }

  /** Two valid times lie on the same calendar day iff their day numbers agree. */
  lemma SameDateDayNumber(a: Time, b: Time)
    requires a.Valid() && b.Valid()
    ensures SameDate(a, b) <==> DayNumber(a) == DayNumber(b)
  {
    if !SameDate(a, b) {
      if DateLess(a, b) {
        DateLessDayNumber(a, b);
      } else {
        DateLessDayNumber(b, a);
      }
    }
  }

  /** `IsBeforeOrEqual` (pkg/utils/time.go): years, then months, then days. */
  function IsBeforeOrEqual(current: Time, date: Time): bool {
    if current.year < date.year then true
    else if current.year > date.year then false
    else if current.month < date.month then true
    else if current.month > date.month then false
    else current.day <= date.day
  }

  function IsBefore(current: Time, date: Time): bool {
    if current.year < date.year then true
    else if current.year > date.year then false
    else if current.month < date.month then true
    else if current.month > date.month then false
    else current.day < date.day
  }

  function IsAfterOrEqual(current: Time, date: Time): bool {
    if current.year > date.year then true
    else if current.year < date.year then false
    else if current.month > date.month then true
    else if current.month < date.month then false
    else current.day >= date.day
  }

  function IsAfter(current: Time, date: Time): bool {
    if current.year > date.year then true
    else if current.year < date.year then false
    else if current.month > date.month then true
    else if current.month < date.month then false
    else current.day > date.day
  }

  /**
   * The comparisons are the lexicographic order of (year, month, day), strict
   * and not, and each "after" comparison is the negation of a "before" one.
   */
  lemma DateComparisonsDual(c: Time, d: Time)
    ensures IsBefore(c, d) <==> DateLess(c, d)
    ensures IsBeforeOrEqual(c, d) <==> DateLess(c, d) || SameDate(c, d)
    ensures IsAfterOrEqual(c, d) == !IsBefore(c, d) && IsAfter(c, d) == !IsBeforeOrEqual(c, d)
    ensures IsBeforeOrEqual(c, d) == IsAfterOrEqual(d, c) && IsBefore(c, d) == IsAfter(d, c)
  {
  }

  /**
   * The four date comparisons ignore the clock and compare calendar days:
   * each is the matching comparison of day numbers.
   */
  lemma DateComparisons(c: Time, d: Time)
    requires c.Valid() && d.Valid()
    ensures IsBefore(c, d) <==> DayNumber(c) < DayNumber(d)
    ensures IsBeforeOrEqual(c, d) <==> DayNumber(c) <= DayNumber(d)
    ensures IsAfter(c, d) <==> DayNumber(c) > DayNumber(d)
    ensures IsAfterOrEqual(c, d) <==> DayNumber(c) >= DayNumber(d)
  {
    SameDateDayNumber(c, d);
    if DateLess(c, d) {
      DateLessDayNumber(c, d);
    } else if DateLess(d, c) {
      DateLessDayNumber(d, c);
    }
  }

  /** `StartOfDate`: the same calendar day at 00:00:00. */
  function StartOfDate(t: Time): (r: Time)
    requires t.Valid()
    ensures r.Valid() && SameDate(r, t)
    ensures Seconds(r) <= Seconds(t) < Seconds(r) + SecondsPerDay
    ensures Seconds(r) % SecondsPerDay == 0
  {
    Time(t.year, t.month, t.day, 0, 0, 0)
  }

  /** `EndOfDate`: the same calendar day at 23:59:59, the last whole second. */
  function EndOfDate(t: Time): (r: Time)
    requires t.Valid()
    ensures r.Valid() && SameDate(r, t)
    ensures Seconds(t) <= Seconds(r) == Seconds(StartOfDate(t)) + SecondsPerDay - 1
  {
    Time(t.year, t.month, t.day, 23, 59, 59)
  }

  /** Midnight of the Monday that starts the week of `now` (weeks run Monday to Sunday). */
  function StartOfWeek(now: Time): (r: Time)
    requires now.Valid()
    ensures r.Valid() && r.hour == 0 && r.minute == 0 && r.second == 0
    ensures Weekday(r) == Monday
    ensures 0 <= DayNumber(now) - DayNumber(r) < 7
  {
    var start := Time(now.year, now.month, now.day, 0, 0, 0);
    var offset := MondayOffset(DayNumber(now));
    assert DayNumber(start) == DayNumber(now);
    MinusDays(start, offset)
  }

  /**
   * The number of days back from day `n` to its week's Monday: the weekday
   * minus one, with Sunday (weekday 0) counting as 7.
   */
  function MondayOffset(n: int): (offset: nat)
    ensures offset < 7 && (n - offset + 1) % 7 == Monday
  {
    var wd := (n + 1) % 7;
    var q := (n + 1) / 7;
    assert n + 1 == 7 * q + wd;
    if wd == 0 then
      assert n - 6 + 1 == 7 * (q - 1) + 1;
      6
    else
      assert n - (wd - 1) + 1 == 7 * q + 1;
      wd - 1
  }

  /**
   * `GetStartDateByPeriod`: midnight of today ("day"), of this week's Monday
   * ("week") or of the first of this month ("month"); nothing for any other period.
   */
  function StartDateByPeriod(period: string, now: Time): (r: Option<Time>)
    requires now.Valid()
    ensures period !in {"day", "week", "month"} <==> r.None?
    ensures r.Some? ==> r.value.Valid() && r.value.hour == 0 && r.value.minute == 0 && r.value.second == 0
    ensures period == "day" ==> r.Some? && SameDate(r.value, now)
    ensures period == "week" ==> r.Some? && Weekday(r.value) == Monday
                                  && 0 <= DayNumber(now) - DayNumber(r.value) < 7
    ensures period == "month" ==> r.Some? && r.value.year == now.year
                                   && r.value.month == now.month && r.value.day == 1
  {
    if period == "day" then Some(StartOfDate(now))
    else if period == "week" then Some(StartOfWeek(now))
    else if period == "month" then Some(Time(now.year, now.month, 1, 0, 0, 0))
    else None
  }
}

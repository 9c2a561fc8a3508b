/** Quota periods in a fixed-offset zone (apps/api/repositories.py, `_period_bounds`). Instants are
    microseconds; day 0 is 1 January of year 1, as in Python's proleptic calendar. */
module Periods {
  import opened Clock

  // ---- the Gregorian calendar ----

  datatype Date = Date(year: nat, month: nat, day: nat)

  predicate IsLeap(year: nat) {
    year % 4 == 0 && (year % 100 != 0 || year % 400 == 0)
  }

  function MonthLength(year: nat, month: nat): nat {
    if month == 2 then (if IsLeap(year) then 29 else 28)
    else if month == 4 || month == 6 || month == 9 || month == 11 then 30
    else 31
  }

  predicate Valid(d: Date) {
    d.year >= 1 && 1 <= d.month <= 12 && 1 <= d.day <= MonthLength(d.year, d.month)
  }

  function NextMonth(year: nat, month: nat): (nat, nat) {
    if month == 12 then (year + 1, 1) else (year, month + 1)
  }

  function NextDay(d: Date): (r: Date)
    requires Valid(d)
    ensures Valid(r)
  {
    if d.day < MonthLength(d.year, d.month) then d.(day := d.day + 1)
    else Date(NextMonth(d.year, d.month).0, NextMonth(d.year, d.month).1, 1)
  }

  /** Walking `n` days on. */
  function Walk(d: Date, n: nat): (r: Date)
    requires Valid(d)
    ensures Valid(r)
    decreases n
  {
    if n == 0 then d else Walk(NextDay(d), n - 1)
  }

  const FIRST := Date(1, 1, 1)

  /** The date of a day number. */
  function DateOf(n: nat): (d: Date)
    ensures Valid(d)
  {
    Walk(FIRST, n)
  }

  function YearLength(year: nat): nat {
    if IsLeap(year) then 366 else 365
  }

  function DaysBeforeYear(year: nat): nat
    requires year >= 1
  {
    if year == 1 then 0 else DaysBeforeYear(year - 1) + YearLength(year - 1)
  }

  function DaysBeforeMonth(year: nat, month: nat): nat
    requires 1 <= month <= 12
  {
    [0, 31, 59, 90, 120, 151, 181, 212, 243, 273, 304, 334][month - 1] + if month > 2 && IsLeap(year) then 1 else 0
  }

  /** The number of a date, by counting years, months and days. */
  function Ordinal(d: Date): nat
    requires Valid(d)
  {
    DaysBeforeYear(d.year) + DaysBeforeMonth(d.year, d.month) + d.day - 1
  }

  lemma FourthOfYear(n: nat)
    requires n >= 1
    ensures n / 4 == (n - 1) / 4 + if n % 4 == 0 then 1 else 0
  {
  }

  lemma CenturyOfYear(n: nat)
    requires n >= 1
    ensures n / 100 == (n - 1) / 100 + if n % 100 == 0 then 1 else 0
  {
  }

  lemma CycleOfYear(n: nat)
    requires n >= 1
    ensures n / 400 == (n - 1) / 400 + if n % 400 == 0 then 1 else 0
  {
  }

  lemma LeapMultiples(n: nat)
    ensures n % 400 == 0 ==> n % 100 == 0
    ensures n % 100 == 0 ==> n % 4 == 0
  {
    if n % 400 == 0 {
      HundredTimes(4 * (n / 400));
      assert n == 100 * (4 * (n / 400));
    }
    if n % 100 == 0 {
      FourTimes(25 * (n / 100));
      assert n == 4 * (25 * (n / 100));
    }
  }

  lemma HundredTimes(k: nat)
    ensures (100 * k) % 100 == 0
  {
  }

  lemma FourTimes(k: nat)
    ensures (4 * k) % 4 == 0
  {
  }

  /** The closed form of the days before a year. */
  lemma {:induction false} DaysBeforeYearClosed(year: nat)
    requires year >= 1
    ensures DaysBeforeYear(year) == 365 * (year - 1) + (year - 1) / 4 - (year - 1) / 100 + (year - 1) / 400
  {
    if year > 1 {
      DaysBeforeYearClosed(year - 1);
      FourthOfYear(year - 1);
      CenturyOfYear(year - 1);
      CycleOfYear(year - 1);
      LeapMultiples(year - 1);
    }
  }

  lemma MonthAfterMonth(year: nat, month: nat)
    requires year >= 1 && 1 <= month <= 12
    ensures var (y, m) := NextMonth(year, month);
            Ordinal(Date(y, m, 1)) == Ordinal(Date(year, month, 1)) + MonthLength(year, month)
  {
  }

  /** Walking one day adds one to the count. */
  lemma NextDayCounts(d: Date)
    requires Valid(d)
    ensures Ordinal(NextDay(d)) == Ordinal(d) + 1
  {
  }

  lemma {:induction false} WalkCounts(d: Date, n: nat)
    requires Valid(d)
    ensures Ordinal(Walk(d, n)) == Ordinal(d) + n
    decreases n
  {
    if n > 0 {
      NextDayCounts(d);
      WalkCounts(NextDay(d), n - 1);
    }
  }

  /** Walking and counting are inverse: the calendar numbers its dates without gap or repetition. */
  lemma WalkThenCount(n: nat)
    ensures Ordinal(DateOf(n)) == n
  {
    WalkCounts(FIRST, n);
  }

  lemma {:induction false} DaysOrder(a: Date, b: Date)
    requires Valid(a) && Valid(b) && (a.year, a.month, a.day) != (b.year, b.month, b.day)
    ensures Ordinal(a) != Ordinal(b)
  {
    if a.year != b.year {
      if a.year < b.year { YearBefore(a, b); } else { YearBefore(b, a); }
    } else if a.month != b.month {
      if a.month < b.month { MonthBefore(a, b); } else { MonthBefore(b, a); }
    }
  }

  lemma CountThenWalk(d: Date)
    requires Valid(d)
    ensures DateOf(Ordinal(d)) == d
  {
    WalkThenCount(Ordinal(d));
    if DateOf(Ordinal(d)) != d {
      DaysOrder(DateOf(Ordinal(d)), d);
    }
  }

  lemma {:induction false} MonthBefore(a: Date, b: Date)
    requires Valid(a) && Valid(b) && a.year == b.year && a.month < b.month
    ensures Ordinal(a) < Ordinal(b)
    decreases b.month
  {
    if a.month + 1 < b.month {
      var first := Date(b.year, b.month - 1, 1);
      MonthBefore(a, first);
    }
  }

  lemma {:induction false} YearBefore(a: Date, b: Date)
    requires Valid(a) && Valid(b) && a.year < b.year
    ensures Ordinal(a) < Ordinal(b)
    decreases b.year
  {
    var lastDay := Date(b.year - 1, 12, 31);
    MonthAfterMonth(b.year - 1, 12);
    if b.month > 1 {
      MonthBefore(Date(b.year, 1, 1), b);
    }
    if a.year < b.year - 1 {
      YearBefore(a, lastDay);
    } else if a.month < 12 {
      MonthBefore(a, lastDay);
    }
  }

  // ---- local days and months ----

  /** The number of the local day of an instant in a zone `offset` ahead of UTC. */
  function LocalDay(now: int, offset: int): nat
    requires now + offset >= 0
  {
    (now + offset) / DAY
  }

  function LocalDate(now: int, offset: int): Date
    requires now + offset >= 0
  {
    DateOf(LocalDay(now, offset))
  }

  datatype Period = Daily | Monthly | Rolling30

  datatype Bounds = Bounds(start: int, end: int)

  /** Adding whole days to a local midnight and naming the day it falls on. */
  function DateAfter(d: Date, days: nat): (r: Date)
    requires Valid(d)
    ensures Valid(r)
  {
    DateOf(Ordinal(d) + days)
  }

  /** Local midnight of a date, as a UTC instant. */
  function Midnight(d: Date, offset: int): int
    requires Valid(d)
  {
    Ordinal(d) * DAY - offset
  }

  /** `_period_bounds` with the local day already looked up; every period type the source does not name is monthly. */
  function BoundsOnDay(period: Period, day: nat, now: int, offset: int): Bounds {
    var today := DateOf(day);
    match period
    case Daily => Bounds(Midnight(today, offset), Midnight(today, offset) + DAY)
    case Rolling30 => Bounds(now - 30 * DAY, now)
    case Monthly =>
      var first := today.(day := 1);
      Bounds(Midnight(first, offset), Midnight(DateAfter(first, 32).(day := 1), offset))
  }

  function PeriodBounds(period: Period, now: int, offset: int): Bounds
    requires now + offset >= 0
  {
    BoundsOnDay(period, LocalDay(now, offset), now, offset)
  }

  // ---- properties ----

  /** The idiom of the source: the first of a month plus 32 days, set to day 1, is the first of the next month. */
  lemma ThirtyTwoDaysOn(year: nat, month: nat)
    requires year >= 1 && 1 <= month <= 12
    ensures var (y, m) := NextMonth(year, month);
            DateAfter(Date(year, month, 1), 32).(day := 1) == Date(y, m, 1)
  {
    var (y, m) := NextMonth(year, month);
    var landing := Date(y, m, 33 - MonthLength(year, month));
    MonthAfterMonth(year, month);
    assert Ordinal(landing) == Ordinal(Date(year, month, 1)) + 32;
    CountThenWalk(landing);
    assert DateAfter(Date(year, month, 1), 32) == landing;
  }

  lemma LocalDayBounds(now: int, offset: int)
    requires now + offset >= 0
    ensures LocalDay(now, offset) * DAY <= now + offset < (LocalDay(now, offset) + 1) * DAY
  {
  }

  /** The days a daily or monthly period covers: from the first up to but not including the second. */
  function PeriodDays(period: Period, day: nat): (nat, nat) {
    var today := DateOf(day);
    if period.Daily? then (day, day + 1)
    else
      var (y, m) := NextMonth(today.year, today.month);
      (Ordinal(today.(day := 1)), Ordinal(Date(y, m, 1)))
  }

  lemma BoundsAreDays(period: Period, day: nat, now: int, offset: int)
    requires period != Rolling30
    ensures var (first, past) := PeriodDays(period, day);
            BoundsOnDay(period, day, now, offset) == Bounds(first * DAY - offset, past * DAY - offset) &&
            first <= day < past
  {
    WalkThenCount(day);
    if period.Monthly? {
      var today := DateOf(day);
      ThirtyTwoDaysOn(today.year, today.month);
      MonthAfterMonth(today.year, today.month);
    }
  }

  /** An instant on a day lies within any span of days around it. */
  lemma DaysSpan(first: int, day: int, past: int, local: int)
    requires first <= day < past && day * DAY <= local < (day + 1) * DAY
    ensures first * DAY <= local < past * DAY
  {
  }

  /** A period contains the instant it is asked for at, unless it is a rolling one, which ends there. */
  lemma PeriodContainsNow(period: Period, now: int, offset: int)
    requires now + offset >= 0
    ensures PeriodBounds(period, now, offset).start <= now < PeriodBounds(period, now, offset).end <==> period != Rolling30
  {
    if period != Rolling30 {
      var (first, past) := PeriodDays(period, LocalDay(now, offset));
      BoundsAreDays(period, LocalDay(now, offset), now, offset);
      LocalDayBounds(now, offset);
      DaysSpan(first, LocalDay(now, offset), past, now + offset);
    }
  }

  lemma DayStart(day: nat, offset: int)
    ensures LocalDay(day * DAY - offset, offset) == day
  {
  }

  lemma NextPeriodDays(period: Period, day: nat)
    requires period != Rolling30
    ensures PeriodDays(period, PeriodDays(period, day).1).0 == PeriodDays(period, day).1
  {
    if period.Monthly? {
      var today := DateOf(day);
      var (y, m) := NextMonth(today.year, today.month);
      CountThenWalk(Date(y, m, 1));
    }
  }

  /** They tile time: the period asked for at the end of one starts there. */
  lemma PeriodsTile(period: Period, now: int, offset: int)
    requires now + offset >= 0 && period != Rolling30
    ensures var end := PeriodBounds(period, now, offset).end;
            end + offset >= 0 && PeriodBounds(period, end, offset).start == end
  {
    var day := LocalDay(now, offset);
    var past := PeriodDays(period, day).1;
    BoundsAreDays(period, day, now, offset);
    DayStart(past, offset);
    NextPeriodDays(period, day);
    BoundsAreDays(period, past, past * DAY - offset, offset);
  }

  lemma SameDaysIff(period: Period, a: nat, b: nat)
    requires period != Rolling30
    ensures PeriodDays(period, a) == PeriodDays(period, b) <==>
            if period.Daily? then a == b
            else DateOf(a).year == DateOf(b).year && DateOf(a).month == DateOf(b).month
  {
    if period.Monthly? {
      CountThenWalk(DateOf(a).(day := 1));
      CountThenWalk(DateOf(b).(day := 1));
    }
  }

  /** Two instants fall into the same period exactly when they share the local day, or the local month. */
  lemma SamePeriodIff(period: Period, a: int, b: int, offset: int)
    requires a + offset >= 0 && b + offset >= 0 && period != Rolling30
    ensures PeriodBounds(period, a, offset) == PeriodBounds(period, b, offset) <==>
            if period.Daily? then LocalDay(a, offset) == LocalDay(b, offset)
            else LocalDate(a, offset).year == LocalDate(b, offset).year && LocalDate(a, offset).month == LocalDate(b, offset).month
  {
    var x, y := LocalDay(a, offset), LocalDay(b, offset);
    BoundsAreDays(period, x, a, offset);
    BoundsAreDays(period, y, b, offset);
    SameDaysIff(period, x, y);
    SameScaled(PeriodDays(period, x), PeriodDays(period, y), offset);
  }

  lemma SameScaled(p: (nat, nat), q: (nat, nat), offset: int)
    ensures Bounds(p.0 * DAY - offset, p.1 * DAY - offset) == Bounds(q.0 * DAY - offset, q.1 * DAY - offset) <==> p == q
  {
  }

  /** Lengths: a day, thirty days up to now, and the local month. */
  lemma PeriodLengths(now: int, offset: int)
    requires now + offset >= 0
    ensures var b := PeriodBounds(Daily, now, offset); b.end - b.start == 86_400_000_000
    ensures PeriodBounds(Rolling30, now, offset) == Bounds(now - 30 * 86_400_000_000, now)
    ensures var b, today := PeriodBounds(Monthly, now, offset), LocalDate(now, offset);
            b.end - b.start == MonthLength(today.year, today.month) * 86_400_000_000
  {
    var day := LocalDay(now, offset);
    var today := DateOf(day);
    BoundsAreDays(Daily, day, now, offset);
    BoundsAreDays(Monthly, day, now, offset);
    MonthAfterMonth(today.year, today.month);
  }
}

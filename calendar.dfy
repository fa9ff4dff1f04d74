/** Calendar dates as the pages use them through JavaScript's `Date`:
    a (year, zero-based month, day) triple, the Gregorian month lengths,
    the normalising constructor `new Date(y, m, d)` (any month and day,
    rolled over into neighbouring months and years), the day count behind
    `getTime()` and the weekday behind `getDay()`. */
module Calendar {

  datatype Date = Date(year: int, month0: int, day: int)

  predicate IsLeapYear(y: int) {
    (y % 4 == 0 && y % 100 != 0) || y % 400 == 0
  }

  function DaysInMonth(y: int, m0: int): (n: int)
    requires 0 <= m0 < 12
    ensures 28 <= n <= 31
    ensures n == 29 <==> m0 == 1 && IsLeapYear(y)
  {
    if m0 == 1 then (if IsLeapYear(y) then 29 else 28)
    else if m0 == 3 || m0 == 5 || m0 == 8 || m0 == 10 then 30
    else 31
  }

  /** A date a JavaScript `Date` can hold: month 0..11, a day that exists in it. */
  predicate Valid(d: Date) {
    0 <= d.month0 < 12 && 1 <= d.day <= DaysInMonth(d.year, d.month0)
  }

  /** Months elapsed since January of year 0: `year * 12 + month`. */
  function MonthIndex(d: Date): int {
    d.year * 12 + d.month0
  }

  /** Length of the month with the given month index. */
  function MonthLength(k: int): (n: int)
    ensures 28 <= n <= 31
  {
    DaysInMonth(k / 12, k % 12)
  }

  /** Day `d` of the month with month index `k`. */
  function DateAt(k: int, d: int): (r: Date)
    ensures MonthIndex(r) == k && r.day == d && 0 <= r.month0 < 12
    ensures 1 <= d <= MonthLength(k) ==> Valid(r)
  {
    Date(k / 12, k % 12, d)
  }

  /** Day `d` counted from the start of month `k`, where `d` may be zero,
      negative or past the end of the month: it steps whole months back or
      forward until the day exists. */
  function Normalise(k: int, d: int): (r: Date)
    ensures Valid(r)
    decreases if d < 1 then 33 - d else d
  {
    if d < 1 then Normalise(k - 1, d + MonthLength(k - 1))
    else if d > MonthLength(k) then Normalise(k + 1, d - MonthLength(k))
    else DateAt(k, d)
  }

  /** `new Date(y, m, d)`: month and day may be out of range and roll over. */
  function MakeDate(y: int, m: int, d: int): (r: Date)
    ensures Valid(r)
  {
    Normalise(y * 12 + m, d)
  }

  lemma {:induction false} NormaliseInRange(k: int, d: int)
    requires 1 <= d <= MonthLength(k)
    ensures Normalise(k, d) == DateAt(k, d)
  {
  }

  /** Days 0, -1, ... of a month are the last days of the month before. */
  lemma {:induction false} NormaliseBackward(k: int, d: int)
    requires -MonthLength(k - 1) < d <= 0
    ensures Normalise(k, d) == DateAt(k - 1, d + MonthLength(k - 1))
  {
  }

  /** Days past the end of a month are the first days of the month after. */
  lemma {:induction false} NormaliseForward(k: int, d: int)
    requires MonthLength(k) < d <= MonthLength(k) + MonthLength(k + 1)
    ensures Normalise(k, d) == DateAt(k + 1, d - MonthLength(k))
  {
  }

  /** A valid date is the day of its own month index. */
  lemma {:induction false} DateAtMonthIndex(d: Date)
    requires Valid(d)
    ensures DateAt(MonthIndex(d), d.day) == d
    ensures MonthLength(MonthIndex(d)) == DaysInMonth(d.year, d.month0)
  {
    var k := MonthIndex(d);
    assert k / 12 == d.year && k % 12 == d.month0;
  }

  /** A valid date's day lies within the length of its month index. */
  lemma {:induction false} DayInMonthLength(d: Date)
    requires Valid(d)
    ensures 1 <= d.day <= MonthLength(d.year * 12 + d.month0)
  {
    var k := d.year * 12 + d.month0;
    assert k / 12 == d.year && k % 12 == d.month0;
  }

  /** `new Date(y, m + 1, 0)` is the last day of month `m`: what the pages use
      for "days in this month". */
  lemma {:induction false} LastDayOfMonth(y: int, m0: int)
    requires 0 <= m0 < 12
    ensures MakeDate(y, m0 + 1, 0) == Date(y, m0, DaysInMonth(y, m0))
  {
    var k := y * 12 + m0;
    assert k / 12 == y && k % 12 == m0;
    NormaliseBackward(k + 1, 0);
  }

  /** `new Date(y, m + 1, 0).getDate()` for any month number `m`: the length
      of month `y * 12 + m`. */
  lemma {:induction false} LastDayOfMonthIndex(y: int, m: int)
    ensures MakeDate(y, m + 1, 0) == DateAt(y * 12 + m, MonthLength(y * 12 + m))
  {
    NormaliseBackward(y * 12 + m + 1, 0);
  }

  /** `new Date(y, m, d)` for a day `d` inside month `y * 12 + m`, the way
      the pages walk a month day by day. */
  method NovaData(y: int, m: int, d: int) returns (r: Date)
    ensures Valid(r)
    ensures 1 <= d <= MonthLength(y * 12 + m) ==> r == DateAt(y * 12 + m, d)
  {
    r := MakeDate(y, m, d);
    if 1 <= d <= MonthLength(y * 12 + m) {
      NormaliseInRange(y * 12 + m, d);
    }
  }

  /** `new Date(y, m + 1, 0)`: the last day of month `y * 12 + m`. */
  method UltimoDiaDoMes(y: int, m: int) returns (r: Date)
    ensures r == DateAt(y * 12 + m, MonthLength(y * 12 + m)) && Valid(r)
  {
    r := MakeDate(y, m + 1, 0);
    LastDayOfMonthIndex(y, m);
  }

  /** Days since 1970-01-01 (negative before): `getTime()` divided by one day,
      for a local-midnight date. Days-from-civil over the proleptic Gregorian
      calendar, with years counted from March so that February is last. */
  function DayNumber(d: Date): (n: int)
    ensures d == Date(1970, 0, 1) ==> n == 0
  {
    var y := if d.month0 < 2 then d.year - 1 else d.year;
    var era := y / 400;
    var yoe := y - era * 400;
    var mp := (d.month0 + 10) % 12;
    var doy := (153 * mp + 2) / 5 + d.day - 1;
    var doe := yoe * 365 + yoe / 4 - yoe / 100 + doy;
    era * 146097 + doe - 719468
  }

  /** The day number of 1 March of year `y`, plus 719468: the part of
      `DayNumber` that depends on the year alone. */
  function MarchYearStart(y: int): int {
    var era := y / 400;
    var yoe := y - era * 400;
    era * 146097 + yoe * 365 + yoe / 4 - yoe / 100
  }

  lemma {:induction false} Mod4(a: int, q: int, r: int)
    requires a == 4 * q + r && 0 <= r < 4
    ensures a % 4 == r
  {
  }

  lemma {:induction false} Mod100(a: int, q: int, r: int)
    requires a == 100 * q + r && 0 <= r < 100
    ensures a % 100 == r
  {
  }

  lemma {:induction false} Mod400(a: int, q: int, r: int)
    requires a == 400 * q + r && 0 <= r < 400
    ensures a % 400 == r && a / 400 == q
  {
  }

  /** Going from year-of-era `z - 1` to `z` adds a leap day when `z` is a
      multiple of 4 and takes it back when `z` is a multiple of 100. */
  lemma {:induction false} LeapStep(z: int)
    requires 1 <= z
    ensures z / 4 - (z - 1) / 4 == if z % 4 == 0 then 1 else 0
    ensures z / 100 - (z - 1) / 100 == if z % 100 == 0 then 1 else 0
    ensures z % 100 == 0 ==> z % 4 == 0
  {
    if z % 100 == 0 {
      Mod4(z, 25 * (z / 100), 0);
    }
  }

  /** From 1 March of one year to 1 March of the next there are 366 days
      exactly when the next year is a leap year (its February has 29). */
  lemma {:induction false} MarchYearLength(y: int)
    ensures MarchYearStart(y + 1) - MarchYearStart(y) == if IsLeapYear(y + 1) then 366 else 365
  {
    var era := y / 400;
    var yoe := y - era * 400;
    Mod400(y, era, yoe);
    if yoe < 399 {
      var z := yoe + 1;
      Mod400(y + 1, era, z);
      Mod4(y + 1, 100 * era + z / 4, z % 4);
      Mod100(y + 1, 4 * era + z / 100, z % 100);
      LeapStep(z);
      assert MarchYearStart(y + 1) == era * 146097 + z * 365 + z / 4 - z / 100;
    } else {
      Mod400(y + 1, era + 1, 0);
      assert MarchYearStart(y + 1) == (era + 1) * 146097;
    }
  }

  /** The last day of a month other than December is followed by day 1 of
      the next month, one day number later. */
  lemma {:induction false} MonthEndDayNumber(y: int, m0: int)
    requires 0 <= m0 < 11
    ensures DayNumber(Date(y, m0 + 1, 1)) == DayNumber(Date(y, m0, DaysInMonth(y, m0))) + 1
  {
    if m0 == 1 {
      MarchYearLength(y - 1);
    }
  }

  /** 31 December is followed by 1 January, one day number later. */
  lemma {:induction false} YearEndDayNumber(y: int)
    ensures DayNumber(Date(y + 1, 0, 1)) == DayNumber(Date(y, 11, 31)) + 1
  {
  }

  /** Within a month the day number steps with the day. */
  lemma {:induction false} InMonthDayNumber(y: int, m0: int, day: int)
    ensures DayNumber(Date(y, m0, day + 1)) == DayNumber(Date(y, m0, day)) + 1
  {
  }

  lemma {:induction false} WeekdayStep(n: int)
    ensures (n + 1 + 4) % 7 == ((n + 4) % 7 + 1) % 7
  {
    var q := (n + 4) / 7;
    var r := (n + 4) % 7;
    assert n + 1 + 4 == 7 * q + r + 1;
    if r < 6 {
      assert (7 * q + r + 1) % 7 == r + 1;
    } else {
      assert 7 * q + r + 1 == 7 * (q + 1);
    }
  }

  /** `new Date(y, m, d + 1)`: the day after `d`. */
  function NextDay(d: Date): (r: Date)
    ensures Valid(r)
  {
    MakeDate(d.year, d.month0, d.day + 1)
  }

  /** The day after a valid date: the next day of its month, or day 1 of
      the next month. */
  lemma {:induction false} NextDayCases(d: Date)
    requires Valid(d)
    ensures d.day < DaysInMonth(d.year, d.month0) ==> NextDay(d) == Date(d.year, d.month0, d.day + 1)
    ensures d.day == DaysInMonth(d.year, d.month0) && d.month0 < 11 ==> NextDay(d) == Date(d.year, d.month0 + 1, 1)
    ensures d.day == DaysInMonth(d.year, d.month0) && d.month0 == 11 ==> NextDay(d) == Date(d.year + 1, 0, 1)
  {
    var k := d.year * 12 + d.month0;
    assert k / 12 == d.year && k % 12 == d.month0;
    if d.day < DaysInMonth(d.year, d.month0) {
      NormaliseInRange(k, d.day + 1);
    } else {
      NormaliseForward(k, d.day + 1);
      if d.month0 == 11 {
        assert (k + 1) / 12 == d.year + 1 && (k + 1) % 12 == 0;
      } else {
        assert (k + 1) / 12 == d.year && (k + 1) % 12 == d.month0 + 1;
      }
    }
  }

  /** The day after a valid date has the next day number, and so the next
      weekday: the day count steps by one across month and year ends,
      29 February included. */
  lemma {:induction false} DayNumberNextDay(d: Date)
    requires Valid(d)
    ensures DayNumber(NextDay(d)) == DayNumber(d) + 1
    ensures Weekday(NextDay(d)) == (Weekday(d) + 1) % 7
  {
    NextDayCases(d);
    var n := NextDay(d);
    if d.day < DaysInMonth(d.year, d.month0) {
      assert n == Date(d.year, d.month0, d.day + 1);
      InMonthDayNumber(d.year, d.month0, d.day);
      assert d == Date(d.year, d.month0, d.day);
    } else if d.month0 < 11 {
      assert n == Date(d.year, d.month0 + 1, 1);
      MonthEndDayNumber(d.year, d.month0);
      assert d == Date(d.year, d.month0, DaysInMonth(d.year, d.month0));
    } else {
      assert n == Date(d.year + 1, 0, 1);
      YearEndDayNumber(d.year);
      assert d == Date(d.year, 11, 31);
    }
    assert DayNumber(n) == DayNumber(d) + 1;
    WeekdayStep(DayNumber(d));
  }

  /** `getDay()`: 0 = Sunday, ..., 6 = Saturday (1970-01-01 was a Thursday). */
  function Weekday(d: Date): (w: int)
    ensures 0 <= w < 7
  {
    (DayNumber(d) + 4) % 7
  }

  /** Milliseconds per day. */
  const DayMs: int := 86400000

  /** `getTime()` of the local time h:mi:s.ms on date `d` (no time zones). */
  function Timestamp(d: Date, h: int, mi: int, s: int, ms: int): (t: int)
    ensures 0 <= h < 24 && 0 <= mi < 60 && 0 <= s < 60 && 0 <= ms < 1000 ==>
              DayNumber(d) * DayMs <= t < (DayNumber(d) + 1) * DayMs
  {
    DayNumber(d) * DayMs + ((h * 60 + mi) * 60 + s) * 1000 + ms
  }

  /** The last millisecond of a day is before the first of the next one, so a
      midnight compared with 23:59:59 orders exactly as the calendar days do. */
  lemma {:induction false} MidnightVersusEndOfDay(a: Date, b: Date, s: int, ms: int)
    requires 0 <= s <= 59 && 0 <= ms <= 999
    ensures Timestamp(a, 0, 0, 0, 0) <= Timestamp(b, 23, 59, s, ms) <==> DayNumber(a) <= DayNumber(b)
  {
  }

  /** `setMonth(getMonth() + delta)` on a copy of `d`: keeps the day of month,
      so a day that the target month lacks rolls into the month after. */
  function SetMonth(d: Date, delta: int): (r: Date)
    ensures Valid(r)
  {
    MakeDate(d.year, d.month0 + delta, d.day)
  }
}

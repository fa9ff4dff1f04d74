/** The shared money and date helpers: rounding to cents, the value of one
    installment, calendar-month differences, the `YYYY-MM-DD` form of a date
    and the "not in the future" test for transactions. Amounts are exact
    reals; dates are calendar triples. */
module Currency {
  import opened Wrappers
  import opened Text
  import opened Calendar

  /** `r` is a whole number of cents. */
  predicate IsCents(r: real) {
    (r * 100.0).Floor as real == r * 100.0
  }

  /** `Math.round(value * 100) / 100`: the nearest cent, halves rounded up. */
  function RoundToTwoDecimals(x: real): (r: real)
    ensures IsCents(r)
    ensures x - 0.005 < r <= x + 0.005
  {
    ((x * 100.0 + 0.5).Floor as real) / 100.0
  }

  /** Exactly one cent value lies in the half-open window `(x - 1/2 cent, x + 1/2 cent]`,
      and rounding picks it. */
  lemma {:induction false} RoundUnique(x: real, c: real)
    requires IsCents(c) && x - 0.005 < c <= x + 0.005
    ensures RoundToTwoDecimals(x) == c
  {
    var r := RoundToTwoDecimals(x);
    var a := (r * 100.0).Floor;
    var b := (c * 100.0).Floor;
    assert a as real == r * 100.0 && b as real == c * 100.0;
    assert -1.0 < (a - b) as real < 1.0;
    assert a == b;
  }

  /** Rounding a value already on a cent boundary leaves it unchanged. */
  lemma {:induction false} RoundIdempotent(x: real)
    requires IsCents(x)
    ensures RoundToTwoDecimals(x) == x
  {
    RoundUnique(x, x);
  }

  lemma {:induction false} RoundTwice(x: real)
    ensures RoundToTwoDecimals(RoundToTwoDecimals(x)) == RoundToTwoDecimals(x)
  {
    RoundIdempotent(RoundToTwoDecimals(x));
  }

  /** Rounding never moves a value past a larger one by more than the two
      half-cents: it is monotone. */
  lemma {:induction false} RoundMonotone(x: real, y: real)
    requires x <= y
    ensures RoundToTwoDecimals(x) <= RoundToTwoDecimals(y)
  {
    var a := (x * 100.0 + 0.5).Floor;
    var b := (y * 100.0 + 0.5).Floor;
    assert a as real <= y * 100.0 + 0.5;
    assert a <= b;
  }

  /** `calculateParcelaValue(total, n)`: one of `n` installments, rounded to cents.
      Division by zero (`Infinity` in the source) is not part of this model. */
  function CalculateParcelaValue(total: real, n: int): (r: real)
    requires n != 0
    ensures IsCents(r)
    ensures r == RoundToTwoDecimals(total / n as real)
  {
    RoundToTwoDecimals(total / n as real)
  }

  /** `n` installments add up to the total to within `n` half-cents. */
  lemma {:induction false} ParcelaDrift(total: real, n: int)
    requires n >= 1
    ensures -(n as real) * 0.005 < n as real * CalculateParcelaValue(total, n) - total <= n as real * 0.005
  {
    var r := CalculateParcelaValue(total, n);
    var q := total / n as real;
    var e := r - q;
    assert -0.005 < e <= 0.005;
    assert n as real * q == total;
    assert n as real * r - total == n as real * e;
    assert n as real * e <= n as real * 0.005;
    assert -(n as real) * 0.005 < n as real * e;
    assert -(n as real) * 0.005 < n as real * r - total <= n as real * 0.005;
  }

  /** A single installment is the total rounded to cents. */
  lemma {:induction false} SingleParcela(total: real)
    ensures CalculateParcelaValue(total, 1) == RoundToTwoDecimals(total)
  {
    assert total / 1 as real == total;
  }

  /** `getMonthsDifference(start, end)`: whole calendar months from the first
      date's month to the second's, regardless of the days. */
  function GetMonthsDifference(start: Date, end: Date): (r: int)
    ensures r == MonthIndex(end) - MonthIndex(start)
  {
    (end.year - start.year) * 12 + (end.month0 - start.month0)
  }

  /** Advancing a date by `k` months with `new Date(y, m + k, d)` moves it `k`
      calendar months when its day exists in the target month, and `k + 1`
      months when the day rolls over. */
  lemma {:induction false} MonthsDiffAdvance(a: Date, k: int)
    requires Valid(a)
    ensures var t := MonthIndex(a) + k;
            GetMonthsDifference(a, MakeDate(a.year, a.month0 + k, a.day))
            == if a.day <= MonthLength(t) then k else k + 1
  {
    var t := MonthIndex(a) + k;
    assert a.year * 12 + (a.month0 + k) == t;
    if a.day <= MonthLength(t) {
      NormaliseInRange(t, a.day);
    } else {
      NormaliseForward(t, a.day);
    }
  }

  /** `isDateInMonth(date, month)`: same month of the same year. */
  function IsDateInMonth(date: Date, month: Date): (b: bool)
    ensures b ==> MonthIndex(date) == MonthIndex(month)
  {
    date.month0 == month.month0 && date.year == month.year
  }

  /** Same month of the same year is a zero month difference. */
  lemma {:induction false} IsDateInMonthIff(date: Date, month: Date)
    requires 0 <= date.month0 < 12 && 0 <= month.month0 < 12
    ensures IsDateInMonth(date, month) <==> GetMonthsDifference(date, month) == 0
  {
  }

  /** `formatDateForInput(date)`: year, `-`, two-digit month 01..12, `-`, two-digit day. */
  function FormatDateForInput(d: Date): (s: string)
    ensures 0 <= d.month0 < 12 && 0 <= d.day < 100 ==>
              |s| >= 7 && s[|s| - 6] == '-' && s[|s| - 3] == '-'
              && ParseInt(s[..|s| - 6]) == Some(d.year)
              && ParseNat(s[|s| - 5..|s| - 3]) == Some(d.month0 + 1)
              && ParseNat(s[|s| - 2..]) == Some(d.day)
  {
    var ys, ms, ds := IntToString(d.year), Pad2(d.month0 + 1), Pad2(d.day);
    var s := ys + "-" + ms + "-" + ds;
    if 0 <= d.month0 < 12 && 0 <= d.day < 100 then
      DateTextFields(s, ys, ms, ds);
      ParseIntToString(d.year);
      Pad2Parse(d.month0 + 1);
      Pad2Parse(d.day);
      s
    else s
  }

  /** Reads a `YYYY-MM-DD` string (any number of year digits, optionally
      negative) back into a valid date. */
  function ParseDateInput(s: string): Option<Date> {
    if |s| >= 7 && s[|s| - 6] == '-' && s[|s| - 3] == '-' then
      var y, m, dd := ParseInt(s[..|s| - 6]), ParseNat(s[|s| - 5..|s| - 3]), ParseNat(s[|s| - 2..]);
      if y.Some? && m.Some? && dd.Some? && Valid(Date(y.value, m.value - 1, dd.value)) then
        Some(Date(y.value, m.value - 1, dd.value))
      else None
    else None
  }

  /** A `year-MM-DD` text splits back into its three fields. */
  lemma {:induction false} DateTextFields(s: string, ys: string, ms: string, ds: string)
    requires |ys| >= 1 && |ms| == 2 && |ds| == 2 && s == ys + "-" + ms + "-" + ds
    ensures |s| >= 7 && s[|s| - 6] == '-' && s[|s| - 3] == '-'
            && s[..|s| - 6] == ys && s[|s| - 5..|s| - 3] == ms && s[|s| - 2..] == ds
  {
    var tail := "-" + ms + "-" + ds;
    TailFields(tail, ms, ds);
    assert s == ys + tail;
    assert s[..|ys|] == ys;
    assert s[|ys|..] == tail;
  }

  /** The `-MM-DD` part of the text. */
  lemma {:induction false} TailFields(tail: string, ms: string, ds: string)
    requires |ms| == 2 && |ds| == 2 && tail == "-" + ms + "-" + ds
    ensures |tail| == 6 && tail[0] == '-' && tail[3] == '-' && tail[1..3] == ms && tail[4..] == ds
  {
    assert tail[1..3] == ms;
    assert tail[4..] == ds;
  }

  /** A text built from three fields that parse reads as the date they
      name, when that date exists. */
  lemma {:induction false} ParseDateInputFields(s: string, ys: string, ms: string, ds: string, y: int, m: nat, dd: nat)
    requires |ys| >= 1 && |ms| == 2 && |ds| == 2 && s == ys + "-" + ms + "-" + ds
    requires ParseInt(ys) == Some(y) && ParseNat(ms) == Some(m) && ParseNat(ds) == Some(dd)
    ensures Valid(Date(y, m - 1, dd)) ==> ParseDateInput(s) == Some(Date(y, m - 1, dd))
    ensures !Valid(Date(y, m - 1, dd)) ==> ParseDateInput(s) == None
  {
    DateTextFields(s, ys, ms, ds);
  }

  /** The three fields of the formatted date read back to the date itself. */
  lemma {:induction false} FormatDateRoundTrip(d: Date)
    requires Valid(d)
    ensures ParseDateInput(FormatDateForInput(d)) == Some(d)
  {
    var ys := IntToString(d.year);
    var ms := Pad2(d.month0 + 1);
    var ds := Pad2(d.day);
    ParseIntToString(d.year);
    Pad2Parse(d.month0 + 1);
    Pad2Parse(d.day);
    ParseDateInputFields(FormatDateForInput(d), ys, ms, ds, d.year, d.month0 + 1, d.day);
  }

  /** `isValidTransactionDate(s)` with `today` passed in: the date's midnight
      is no later than 23:59:59.999 of today, that is the transaction's
      calendar day is today or earlier. */
  function IsValidTransactionDate(date: Date, today: Date): (r: bool)
    ensures r <==> DayNumber(date) <= DayNumber(today)
  {
    MidnightVersusEndOfDay(date, today, 59, 999);
    Timestamp(date, 0, 0, 0, 0) <= Timestamp(today, 23, 59, 59, 999)
  }
}

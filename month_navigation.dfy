/** The "previous month" / "next month" buttons of the dashboard, the date
    picker and the calendar: each copies the shown date and calls
    `setMonth(getMonth() - 1)` or `setMonth(getMonth() + 1)` on the copy.
    That keeps the day of the month, so from a 29th, 30th or 31st the
    target month may lack the day and the date rolls into the month after:
    from 31 March, "previous" lands on 3 March and the shown month does not
    change. The corrected shift moves to the first day of the neighbouring
    month, which always exists. */
module MonthNavigation {
  import opened Calendar

  datatype Direction = Anterior | Proximo

  function Delta(dir: Direction): (r: int)
    ensures r == -1 || r == 1
  {
    if dir == Anterior then -1 else 1
  }

  /** The navigation as written: `novo = new Date(prev); novo.setMonth(prev.getMonth() ± 1)`. */
  method ShiftMonthAsWritten(prev: Date, dir: Direction) returns (novo: Date)
    ensures novo == SetMonth(prev, Delta(dir))
  {
    novo := prev;
    if dir == Anterior {
      novo := MakeDate(novo.year, prev.month0 - 1, novo.day);
    } else {
      novo := MakeDate(novo.year, prev.month0 + 1, novo.day);
    }
  }

  /** On days 1..28 the as-written shift does move exactly one month and keeps the day. */
  lemma {:induction false} SetMonthEarlyDay(d: Date, delta: int)
    requires Valid(d) && d.day <= 28
    ensures MonthIndex(SetMonth(d, delta)) == MonthIndex(d) + delta
    ensures SetMonth(d, delta).day == d.day
  {
    var t := MonthIndex(d) + delta;
    assert d.year * 12 + (d.month0 + delta) == t;
    NormaliseInRange(t, d.day);
  }

  /** When the month before lacks `d`'s day, "previous" as written rolls
      forward into `d`'s own month: the shown month does not change. */
  lemma {:induction false} AnteriorRollsForward(d: Date)
    requires Valid(d) && d.day > MonthLength(MonthIndex(d) - 1)
    ensures MonthIndex(SetMonth(d, -1)) == MonthIndex(d)
    ensures SetMonth(d, -1).day == d.day - MonthLength(MonthIndex(d) - 1)
  {
    var k := MonthIndex(d) - 1;
    assert d.year * 12 + (d.month0 - 1) == k;
    DayInMonthLength(d);
    NormaliseForward(k, d.day);
  }

  /** From 31 March 2025, "previous" gives 3 March 2025: the month does not change. */
  lemma {:induction false} AnteriorFromMarch31StaysInMarch()
    ensures SetMonth(Date(2025, 2, 31), Delta(Anterior)) == Date(2025, 2, 3)
    ensures MonthIndex(SetMonth(Date(2025, 2, 31), Delta(Anterior))) == MonthIndex(Date(2025, 2, 31))
  {
    var d := Date(2025, 2, 31);
    var k := MonthIndex(d) - 1;
    assert MonthLength(k) == 28 by {
      assert k / 12 == 2025 && k % 12 == 1;
    }
    AnteriorRollsForward(d);
    var r := SetMonth(d, -1);
    assert r.year == 2025 && r.month0 == 2 by {
      assert MonthIndex(r) == 2025 * 12 + 2 && 0 <= r.month0 < 12;
    }
  }

  /** The first day of the month `delta` months away from `d`'s. */
  function ShiftedMonth(d: Date, delta: int): (r: Date)
    ensures Valid(r) && r.day == 1
    ensures MonthIndex(r) == MonthIndex(d) + delta
  {
    NormaliseInRange(d.year * 12 + d.month0 + delta, 1);
    MakeDate(d.year, d.month0 + delta, 1)
  }

  /** The corrected navigation: always exactly one month back or forward. */
  method ShiftMonth(prev: Date, dir: Direction) returns (novo: Date)
    ensures novo == ShiftedMonth(prev, Delta(dir))
  {
    novo := MakeDate(prev.year, prev.month0 + Delta(dir), 1);
  }

  /** "Next" then "previous" returns to the month started from. */
  lemma {:induction false} ShiftedMonthRoundTrip(d: Date)
    ensures ShiftedMonth(ShiftedMonth(d, 1), -1) == DateAt(MonthIndex(d), 1)
  {
    var r := ShiftedMonth(ShiftedMonth(d, 1), -1);
    var k := MonthIndex(d);
    assert MonthIndex(r) == k && r.day == 1;
    assert r.year == k / 12 && r.month0 == k % 12;
  }
}

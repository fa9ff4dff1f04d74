/** The date picker's month grid and its "after the maximum date" rule.
    The grid is the last days of the previous month up to the first
    weekday, the days of the shown month, then days of the next month up to
    a whole number of weeks. As written the trailing loop computes the day
    of the next month as `i - days.length + 1` while `days` grows with every
    push, so every trailing cell is the 1st of the next month; the corrected
    grid numbers them 1, 2, .... */
module DatePicker {
  import opened Wrappers
  import opened Calendar

  datatype Cell = Cell(date: Date, isCurrentMonth: bool, isToday: bool, isSelected: bool)

  /** A cell of a neighbouring month: shown greyed, never today or selected. */
  function Outside(date: Date): Cell {
    Cell(date, false, false, false)
  }

  /** `Math.ceil(length / 7) * 7`: the cells of the whole weeks covering `length`. */
  function TotalCells(length: int): (t: int)
    requires length >= 0
    ensures t % 7 == 0 && length <= t < length + 7
  {
    ((length + 6) / 7) * 7
  }

  /** The leading cells: days `-(lead - 1) .. 0` of month `k`, that is the
      last `lead` days of the month before. */
  method LeadingCells(year: int, month: int, k: int, lead: int) returns (days: seq<Cell>)
    requires k == year * 12 + month && 0 <= lead < 7
    ensures |days| == lead
    ensures forall j :: 0 <= j < lead ==> days[j] == Outside(DateAt(k - 1, MonthLength(k - 1) - lead + 1 + j))
  {
    days := [];
    var i := lead - 1;
    while i >= 0
      invariant -1 <= i <= lead - 1
      invariant |days| == lead - 1 - i
      invariant forall j :: 0 <= j < |days| ==> days[j] == Outside(DateAt(k - 1, MonthLength(k - 1) - lead + 1 + j))
    {
      var prevMonthDay := MakeDate(year, month, -i);
      NormaliseBackward(k, -i);
      days := days + [Outside(prevMonthDay)];
      i := i - 1;
    }
  }

  /** The cells of days `1..n` of month `k`: today's and the selected date's
      cells are marked (`toDateString()` equality is equality of the dates). */
  method MonthCells(year: int, month: int, k: int, n: int, today: Date, selected: Option<Date>)
    returns (days: seq<Cell>)
    requires k == year * 12 + month && n == MonthLength(k)
    ensures |days| == n
    ensures forall d :: 1 <= d <= n ==>
              var date := DateAt(k, d);
              days[d - 1] == Cell(date, true, date == today, selected == Some(date))
  {
    days := [];
    var day := 1;
    while day <= n
      invariant 1 <= day <= n + 1
      invariant |days| == day - 1
      invariant forall d :: 1 <= d < day ==>
                  var date := DateAt(k, d);
                  days[d - 1] == Cell(date, true, date == today, selected == Some(date))
    {
      var date := MakeDate(year, month, day);
      NormaliseInRange(k, day);
      var isToday := date == today;
      var isSelected := selected.Some? && date == selected.value;
      days := days + [Cell(date, true, isToday, isSelected)];
      day := day + 1;
    }
  }

  /** The trailing loop as written: `dayOfNextMonth = i - days.length + 1`
      with `days.length` read after each push, which is always 1. */
  method TrailingCellsAsWritten(year: int, month: int, k: int, days: seq<Cell>) returns (grid: seq<Cell>)
    requires k == year * 12 + month
    ensures |grid| == TotalCells(|days|) && grid[..|days|] == days
    ensures forall j :: |days| <= j < |grid| ==> grid[j] == Outside(DateAt(k + 1, 1))
  {
    grid := days;
    var totalCells := TotalCells(|days|);
    var i := |grid|;
    NormaliseInRange(k + 1, 1);
    while i < totalCells
      invariant |days| <= i <= totalCells && |grid| == i
      invariant grid[..|days|] == days
      invariant forall j :: |days| <= j < |grid| ==> grid[j] == Outside(DateAt(k + 1, 1))
    {
      var dayOfNextMonth := i - |grid| + 1;
      var nextMonthDay := MakeDate(year, month + 1, dayOfNextMonth);
      grid := grid + [Outside(nextMonthDay)];
      i := i + 1;
    }
  }

  /** The corrected trailing loop: the days of the next month counted from
      where the loop starts, 1, 2, .... */
  method TrailingCells(year: int, month: int, k: int, days: seq<Cell>) returns (grid: seq<Cell>)
    requires k == year * 12 + month
    ensures |grid| == TotalCells(|days|) && grid[..|days|] == days
    ensures forall j :: |days| <= j < |grid| ==> grid[j] == Outside(DateAt(k + 1, j - |days| + 1))
  {
    grid := days;
    var totalCells := TotalCells(|days|);
    var start := |days|;
    var i := start;
    while i < totalCells
      invariant start <= i <= totalCells && |grid| == i
      invariant grid[..start] == days
      invariant forall j :: start <= j < |grid| ==> grid[j] == Outside(DateAt(k + 1, j - start + 1))
    {
      var dayOfNextMonth := i - start + 1;
      var nextMonthDay := MakeDate(year, month + 1, dayOfNextMonth);
      NormaliseInRange(k + 1, dayOfNextMonth);
      grid := grid + [Outside(nextMonthDay)];
      i := i + 1;
    }
  }

  /** The layout both versions share, up to the trailing cells. */
  predicate GridHead(grid: seq<Cell>, k: int, lead: int, n: int, today: Date, selected: Option<Date>)
    requires 0 <= lead && 0 <= n && lead + n <= |grid|
  {
    (forall j :: 0 <= j < lead ==> grid[j] == Outside(DateAt(k - 1, MonthLength(k - 1) - lead + 1 + j)))
    && (forall d :: 1 <= d <= n ==>
          var date := DateAt(k, d);
          grid[lead + d - 1] == Cell(date, true, date == today, selected == Some(date)))
  }

  /** The leading and month cells, laid out one after the other. */
  method GridStart(shown: Date, today: Date, selected: Option<Date>) returns (days: seq<Cell>)
    requires Valid(shown)
    ensures var k := MonthIndex(shown);
            var lead := Weekday(DateAt(k, 1));
            var n := MonthLength(k);
            |days| == lead + n && GridHead(days, k, lead, n, today, selected)
  {
    var year := shown.year;
    var month := shown.month0;
    var k := MonthIndex(shown);
    DateAtMonthIndex(shown);
    var firstDay := MakeDate(year, month, 1);
    NormaliseInRange(k, 1);
    assert firstDay == DateAt(k, 1);
    var lastDay := MakeDate(year, month + 1, 0);
    LastDayOfMonth(year, month);
    var daysInMonth := lastDay.day;
    assert daysInMonth == MonthLength(k);
    var startingDayOfWeek := Weekday(firstDay);
    var leading := LeadingCells(year, month, k, startingDayOfWeek);
    var current := MonthCells(year, month, k, daysInMonth, today, selected);
    days := leading + current;
    forall j | startingDayOfWeek <= j < |days| ensures days[j] == current[j - startingDayOfWeek] {
    }
  }

  /** `getDaysInMonth` as written: whole weeks, the shown month marked, and
      every trailing cell the 1st of the next month. */
  method GetDaysInMonthAsWritten(shown: Date, today: Date, selected: Option<Date>) returns (days: seq<Cell>)
    requires Valid(shown)
    ensures var k := MonthIndex(shown);
            var lead := Weekday(DateAt(k, 1));
            var n := MonthLength(k);
            |days| == TotalCells(lead + n) && GridHead(days, k, lead, n, today, selected)
            && forall j :: lead + n <= j < |days| ==> days[j] == Outside(DateAt(k + 1, 1))
    ensures forall i, j :: 0 <= i < j < |days| && days[i].isToday ==> !days[j].isToday
    ensures forall i, j :: 0 <= i < j < |days| && days[i].isSelected ==> !days[j].isSelected
  {
    var head := GridStart(shown, today, selected);
    days := TrailingCellsAsWritten(shown.year, shown.month0, MonthIndex(shown), head);
    GridHeadPrefix(head, days, MonthIndex(shown), Weekday(DateAt(MonthIndex(shown), 1)),
                   MonthLength(MonthIndex(shown)), today, selected);
    GridMarks(days, MonthIndex(shown), Weekday(DateAt(MonthIndex(shown), 1)),
              MonthLength(MonthIndex(shown)), today, selected);
  }

  /** The corrected `getDaysInMonth`: the trailing cells are the 1st, 2nd, ...
      of the next month. */
  method GetDaysInMonth(shown: Date, today: Date, selected: Option<Date>) returns (days: seq<Cell>)
    requires Valid(shown)
    ensures var k := MonthIndex(shown);
            var lead := Weekday(DateAt(k, 1));
            var n := MonthLength(k);
            |days| == TotalCells(lead + n) && GridHead(days, k, lead, n, today, selected)
            && forall j :: lead + n <= j < |days| ==> days[j] == Outside(DateAt(k + 1, j - lead - n + 1))
    ensures forall i, j :: 0 <= i < j < |days| && days[i].isToday ==> !days[j].isToday
    ensures forall i, j :: 0 <= i < j < |days| && days[i].isSelected ==> !days[j].isSelected
  {
    var head := GridStart(shown, today, selected);
    days := TrailingCells(shown.year, shown.month0, MonthIndex(shown), head);
    GridHeadPrefix(head, days, MonthIndex(shown), Weekday(DateAt(MonthIndex(shown), 1)),
                   MonthLength(MonthIndex(shown)), today, selected);
    GridMarks(days, MonthIndex(shown), Weekday(DateAt(MonthIndex(shown), 1)),
              MonthLength(MonthIndex(shown)), today, selected);
  }

  /** Appending cells keeps the head of the grid. */
  lemma {:induction false} GridHeadPrefix(head: seq<Cell>, grid: seq<Cell>, k: int, lead: int, n: int, today: Date, selected: Option<Date>)
    requires 0 <= lead && 0 <= n && |head| == lead + n <= |grid| && grid[..|head|] == head
    requires GridHead(head, k, lead, n, today, selected)
    ensures GridHead(grid, k, lead, n, today, selected)
  {
    forall j | 0 <= j < |head| ensures grid[j] == head[j] {
      assert grid[..|head|][j] == grid[j];
    }
  }

  /** In any grid laid out this way only the shown month's cells are marked
      current, and today and the selected date are each marked at most once. */
  lemma {:induction false} GridMarks(grid: seq<Cell>, k: int, lead: int, n: int, today: Date, selected: Option<Date>)
    requires 0 <= lead && 0 <= n && lead + n <= |grid|
    requires GridHead(grid, k, lead, n, today, selected)
    requires forall j :: lead + n <= j < |grid| ==> !grid[j].isCurrentMonth && !grid[j].isToday && !grid[j].isSelected
    ensures forall j :: 0 <= j < |grid| ==> (grid[j].isCurrentMonth <==> lead <= j < lead + n)
    ensures forall i, j :: 0 <= i < j < |grid| && grid[i].isToday ==> !grid[j].isToday
    ensures forall i, j :: 0 <= i < j < |grid| && grid[i].isSelected ==> !grid[j].isSelected
  {
    forall j | 0 <= j < lead ensures !grid[j].isCurrentMonth && !grid[j].isToday && !grid[j].isSelected {
      assert grid[j] == Outside(DateAt(k - 1, MonthLength(k - 1) - lead + 1 + j));
    }
    forall j | lead <= j < lead + n
      ensures grid[j].isCurrentMonth
      ensures grid[j].isToday <==> DateAt(k, j - lead + 1) == today
      ensures grid[j].isSelected <==> selected == Some(DateAt(k, j - lead + 1))
    {
      var d := j - lead + 1;
      assert grid[lead + d - 1] == Cell(DateAt(k, d), true, DateAt(k, d) == today, selected == Some(DateAt(k, d)));
    }
  }

  /** The first week of September 2025 starts on a Monday and the month has
      30 days, so its grid has 35 cells and 4 trailing cells. */
  lemma {:induction false} September2025Layout()
    ensures var k := 2025 * 12 + 8;
            Weekday(DateAt(k, 1)) == 1 && MonthLength(k) == 30 && TotalCells(1 + 30) == 35
  {
    var k := 2025 * 12 + 8;
    assert k / 12 == 2025 && k % 12 == 8;
    assert DateAt(k, 1) == Date(2025, 8, 1);
    assert DayNumber(Date(2025, 8, 1)) == 20332 by {
      var era := 2025 / 400;
      assert era == 5;
      var yoe := 2025 - era * 400;
      assert yoe == 25;
      var mp := (8 + 10) % 12;
      assert mp == 6;
      var doy := (153 * mp + 2) / 5 + 1 - 1;
      assert doy == 184;
      var doe := yoe * 365 + yoe / 4 - yoe / 100 + doy;
      assert doe == 9315;
    }
    assert (20332 + 4) % 7 == 1;
  }

  /** The corrected and the as-written grid differ exactly when at least two
      trailing cells are needed: September 2025's grid, with 4, shows
      1 October four times as written and 1..4 October corrected. */
  lemma {:induction false} TrailingCellsDiffer(asWritten: seq<Cell>, corrected: seq<Cell>, k: int, first: int)
    requires 0 <= first && |asWritten| == |corrected| == TotalCells(first)
    requires forall j :: first <= j < |asWritten| ==> asWritten[j] == Outside(DateAt(k + 1, 1))
    requires forall j :: first <= j < |corrected| ==> corrected[j] == Outside(DateAt(k + 1, j - first + 1))
    ensures (forall j :: first <= j < |corrected| ==> asWritten[j] == corrected[j]) <==> TotalCells(first) - first <= 1
  {
    if TotalCells(first) - first > 1 {
      assert corrected[first + 1] == Outside(DateAt(k + 1, 2));
      assert asWritten[first + 1] != corrected[first + 1];
    }
  }

  /** `isDateDisabled`: with a maximum date, a grid date (local midnight) is
      disabled when it is later than 23:59:59 of the maximum date. */
  function IsDateDisabled(date: Date, maxDate: Option<Date>): (disabled: bool)
    ensures maxDate.None? ==> !disabled
    ensures maxDate.Some? ==> (disabled <==> DayNumber(date) > DayNumber(maxDate.value))
  {
    match maxDate
    case None => false
    case Some(max) =>
      MidnightVersusEndOfDay(date, max, 59, 0);
      Timestamp(date, 0, 0, 0, 0) > Timestamp(max, 23, 59, 59, 0)
  }
}

/** The date strings and the month grid of frontend/lib/events/calendar.ts. */
module Calendar {
  import opened Options
  import opened Decimal
  import opened Gregorian

  // ---------------------------------------------------------------- strings

  function YearText(iso: string): string
    requires |iso| == 10
  {
    iso[..4]
  }

  function MonthText(iso: string): string
    requires |iso| == 10
  {
    iso[5..7]
  }

  function DayText(iso: string): string
    requires |iso| == 10
  {
    iso[8..]
  }

  /** The shape the parser's pattern accepts: four digits, two digits, two digits. */
  predicate Shaped(iso: string) {
    && |iso| == 10 && iso[4] == '-' && iso[7] == '-'
    && AllDigits(YearText(iso)) && AllDigits(MonthText(iso)) && AllDigits(DayText(iso))
  }

  function ParseLocalDate(iso: string): Option<Date> {
    if Shaped(iso) then Some(NewDate(Value(YearText(iso)), Value(MonthText(iso)) - 1, Value(DayText(iso))))
    else None
  }

  function ToISODate(d: Date): (iso: string)
    ensures |iso| == |Print(YearOf(d))| + 6
  {
    DayOfFields(d);
    Padded(MonthOf(d) + 1);
    Padded(DayOf(d));
    Print(YearOf(d)) + "-" + PadStart(Digits(MonthOf(d) + 1), 2) + "-" + PadStart(Digits(DayOf(d)), 2)
  }

  lemma JoinedParts(y: string, m: string, t: string)
    requires |m| == 2 && |t| == 2
    ensures var s := y + "-" + m + "-" + t;
            && |s| == |y| + 6 && s[..|y|] == y && s[|y|] == '-' && s[|y| + 3] == '-'
            && s[|y| + 1..|y| + 3] == m && s[|y| + 4..] == t
  {
  }

  ghost predicate PartsAt(s: string, k: nat, year: string, month: nat, day: nat) {
    && |s| == k + 6 && |year| == k
    && s[..k] == year && s[k] == '-' && s[k + 3] == '-'
    && AllDigits(s[k + 1..k + 3]) && Value(s[k + 1..k + 3]) == month
    && AllDigits(s[k + 4..]) && Value(s[k + 4..]) == day
  }

  /** The parts of a printed date. */
  lemma PrintedParts(d: Date)
    ensures RealDay(YearOf(d), MonthOf(d), DayOf(d))
    ensures PartsAt(ToISODate(d), |Print(YearOf(d))|, Print(YearOf(d)), MonthOf(d) + 1, DayOf(d))
  {
    hide YearOf, MonthOf, DayOf, Print, Digits, PadStart, Value;
    DayOfFields(d);
    Padded(MonthOf(d) + 1);
    Padded(DayOf(d));
    JoinedParts(Print(YearOf(d)), PadStart(Digits(MonthOf(d) + 1), 2), PadStart(Digits(DayOf(d)), 2));
  }

  /** No two days print alike. */
  lemma ToISODateIsInjective(c: Date, d: Date)
    ensures ToISODate(c) == ToISODate(d) ==> c == d
  {
    hide ToISODate, YearOf, MonthOf, Print, Value, YearStart, MonthStart, DaysInMonth;
    if ToISODate(c) == ToISODate(d) {
      PrintedParts(c);
      PrintedParts(d);
      DayOfFields(c);
      DayOfFields(d);
      assert Print(YearOf(c)) == Print(YearOf(d));
      PrintIsInjective(YearOf(c), YearOf(d));
    }
  }

  /** A printed day parses back to itself exactly in the years 1000 to 9999. */
  lemma ParsePrinted(d: Date)
    ensures ParseLocalDate(ToISODate(d)) == Some(d) <==> 1000 <= YearOf(d) <= 9999
  {
    hide ToISODate, YearOf, MonthOf, DayOf, Digits, Value, Print;
    var y, s := YearOf(d), ToISODate(d);
    PrintedParts(d);
    PrintedYear(y);
    if 1000 <= y <= 9999 {
      PartsParse(s, y, MonthOf(d), DayOf(d));
      DayOfFields(d);
    }
  }

  /** Four digits stand for the years 1000 to 9999 only. */
  lemma PrintedYear(y: int)
    ensures |Print(y)| == 4 && AllDigits(Print(y)) <==> 1000 <= y <= 9999
    ensures 1000 <= y <= 9999 ==> Value(Print(y)) == y
  {
    if y >= 0 {
      FourDigits(y);
      ValueOfDigits(y);
    } else {
      assert Print(y)[0] == '-';
    }
  }

  lemma PartsParse(s: string, y: int, m: int, t: int)
    requires 1000 <= y <= 9999 && 0 <= m < 12 && t >= 1
    requires |Print(y)| == 4 && AllDigits(Print(y)) && Value(Print(y)) == y
    requires PartsAt(s, 4, Print(y), m + 1, t)
    ensures ParseLocalDate(s) == Some(DayNumber(y, m, t))
  {
    hide Digits, Value, Print, DayNumber, YearStart, MonthStart;
    MakeDayInYear(y, m, t);
  }

  /** The string names a day of the calendar, in a year that needs all four digits. */
  predicate NamesRealDay(iso: string)
    requires Shaped(iso)
  {
    && Value(YearText(iso)) >= 1000
    && RealDay(Value(YearText(iso)), Value(MonthText(iso)) - 1, Value(DayText(iso)))
  }

  lemma ShapedIsDetermined(s: string, t: string)
    requires Shaped(s) && Shaped(t)
    requires Value(YearText(s)) == Value(YearText(t))
    requires Value(MonthText(s)) == Value(MonthText(t)) && Value(DayText(s)) == Value(DayText(t))
    ensures s == t
  {
    ValueIsInjective(YearText(s), YearText(t));
    ValueIsInjective(MonthText(s), MonthText(t));
    ValueIsInjective(DayText(s), DayText(t));
    assert s == YearText(s) + "-" + MonthText(s) + "-" + DayText(s);
    assert t == YearText(t) + "-" + MonthText(t) + "-" + DayText(t);
  }

  /** A string the parser accepts is printed back unchanged exactly when it names a real day; all
      others come back normalised. */
  lemma PrintParsed(iso: string)
    requires Shaped(iso)
    ensures ParseLocalDate(iso).Some?
    ensures ToISODate(ParseLocalDate(iso).value) == iso <==> NamesRealDay(iso)
  {
    var y, m, t := Value(YearText(iso)), Value(MonthText(iso)) - 1, Value(DayText(iso));
    var d := NewDate(y, m, t);
    if NamesRealDay(iso) {
      MakeDayInYear(y, m, t);
      FieldsOfDay(y, m, t);
      ValueBound(YearText(iso));
      FourDigitBound();
      ParsePrinted(d);
      PrintedParts(d);
      FourDigits(y);
      ValueOfDigits(y);
      ShapedIsDetermined(iso, ToISODate(d));
    }
    if ToISODate(d) == iso {
      PrintedParts(d);
      DayOfFields(d);
      assert IsDigit(YearText(iso)[0]);
      FourDigits(YearOf(d));
      ValueOfDigits(YearOf(d));
    }
  }

  lemma FourDigitBound()
    ensures Power10(4) == 10000
  {
    assert Power10(2) == 100;
  }

  /** Every string the parser accepts is a number of days past the first of some month: months outside
      1 to 12 carry into the year, and days outside the month, 00 included, into other months. */
  lemma RollForward(iso: string)
    requires Shaped(iso)
    ensures ParseLocalDate(iso).Some?
    ensures var y, m, t := Value(YearText(iso)), Value(MonthText(iso)) - 1, Value(DayText(iso));
            var first := ParseLocalDate(iso).value - (t - 1);
            && YearOf(first) == (if y <= 99 then 1900 + y else y) + m / 12
            && MonthOf(first) == m % 12 && DayOf(first) == 1
  {
    hide YearOf, MonthOf, DayOf, YearStart, MonthStart, Value;
    var y, m := FullYear(Value(YearText(iso))), Value(MonthText(iso)) - 1;
    FieldsOfDay(y + m / 12, m % 12, 1);
  }

  /** So a day just past the end of its month, such as 31 February, is a day of the next month. */
  lemma NextMonth(iso: string)
    requires Shaped(iso) && Value(YearText(iso)) >= 100 && 1 <= Value(MonthText(iso)) <= 12
    requires DaysInMonth(Value(YearText(iso)), Value(MonthText(iso)) - 1) < Value(DayText(iso)) <= 31
    ensures ParseLocalDate(iso).Some?
    ensures var d, m := ParseLocalDate(iso).value, Value(MonthText(iso)) - 1;
            && YearOf(d) == Value(YearText(iso)) && MonthOf(d) == m + 1
            && DayOf(d) == Value(DayText(iso)) - DaysInMonth(Value(YearText(iso)), m)
  {
    var y, m, t := Value(YearText(iso)), Value(MonthText(iso)) - 1, Value(DayText(iso));
    MonthLength(y, m);
    MakeDayInYear(y, m, t);
    FieldsOfDay(y, m + 1, t - DaysInMonth(y, m));
  }

  lemma Numerals()
    ensures Print(999) == "999" && PadStart(Digits(1), 2) == "01"
  {
    assert Digits(999) == Digits(99) + "9" == Digits(9) + "9" + "9";
    assert PadStart(Digits(1), 2) == PadStart("01", 2);
  }

  /** The first day of the year 999 prints as "999-01-01", which the parser does not take. */
  lemma Year999()
    ensures var d := DayNumber(999, 0, 1); ToISODate(d) == "999-01-01" && ParseLocalDate(ToISODate(d)) == None
  {
    hide YearStart, MonthStart, YearOf, MonthOf, DayOf, Value, Print, Digits, PadStart;
    FieldsOfDay(999, 0, 1);
    Numerals();
  }

  // ---------------------------------------------------------------- shifting months

  datatype YearMonth = YearMonth(year: int, month: int)

  function ShiftMonth(year: int, month: int, delta: int): YearMonth {
    var d := NewDate(year, month + delta, 1);
    YearMonth(YearOf(d), MonthOf(d))
  }

  /** Shifting counts months, with carry; two-digit years are those of the 1900s. */
  lemma ShiftCounts(year: int, month: int, delta: int)
    ensures var s, y := ShiftMonth(year, month, delta), if 0 <= year <= 99 then 1900 + year else year;
            0 <= s.month < 12 && 12 * s.year + s.month == 12 * y + month + delta
  {
    var k, y := month + delta, FullYear(year);
    FieldsOfDay(y + k / 12, k % 12, 1);
  }

  lemma YearMonthIsUnique(s: YearMonth, t: YearMonth)
    requires 0 <= s.month < 12 && 0 <= t.month < 12
    ensures s == t <==> 12 * s.year + s.month == 12 * t.year + t.month
  {
  }

  /** Two shifts make one exactly when the first does not lead into the years 0 to 99, which the
      constructor takes for the 1900s. */
  lemma ShiftsCompose(year: int, month: int, a: int, b: int)
    ensures var s := ShiftMonth(year, month, a);
            var once, y := ShiftMonth(year, month, a + b), if 0 <= year <= 99 then 1900 + year else year;
            ShiftMonth(s.year, s.month, b) == once <==> !(0 <= 12 * y + month + a < 1200)
  {
    hide ShiftMonth;
    var s := ShiftMonth(year, month, a);
    ShiftCounts(year, month, a);
    ShiftCounts(s.year, s.month, b);
    ShiftCounts(year, month, a + b);
    YearMonthIsUnique(ShiftMonth(s.year, s.month, b), ShiftMonth(year, month, a + b));
  }

  /** A month back from January 100 and one on again leads to January 2000. */
  lemma ThereAndBack()
    ensures var s := ShiftMonth(100, 0, -1);
            s == YearMonth(99, 11) && ShiftMonth(s.year, s.month, 1) == YearMonth(2000, 0)
    ensures ShiftMonth(100, 0, 0) == YearMonth(100, 0)
  {
    hide ShiftMonth;
    ShiftCounts(100, 0, -1);
    ShiftCounts(99, 11, 1);
    ShiftCounts(100, 0, 0);
  }

  // ---------------------------------------------------------------- the month grid

  datatype DayCell = DayCell(date: Date, iso: string, inMonth: bool, isToday: bool)

  datatype MonthGrid = MonthGrid(year: int, month: int, weeks: seq<seq<DayCell>>, gridStart: string, gridEnd: string)

  /** The Sunday on or before the first of the month. */
  function GridStart(year: int, month: int): Date {
    NewDate(year, month, 1 - WeekDay(NewDate(year, month, 1)))
  }

  /** The day belongs to the month on show. */
  ghost predicate InMonth(d: Date, year: int, month: int) {
    YearOf(d) == FullYear(year) && MonthOf(d) == month
  }

  /** The cell shows the given day and is marked correctly. */
  ghost predicate CellFor(cell: DayCell, d: Date, year: int, month: int, today: Date) {
    && cell.date == d
    && cell.iso == ToISODate(d)
    && (0 <= month < 12 ==> (cell.inMonth <==> InMonth(d, year, month)))
    && (cell.isToday <==> d == today)
  }

  ghost predicate WeekFor(week: seq<DayCell>, sunday: Date, year: int, month: int, today: Date) {
    |week| == 7 && forall d :: 0 <= d < 7 ==> CellFor(week[d], sunday + d, year, month, today)
  }

  lemma CellOfWeek(week: seq<DayCell>, sunday: Date, d: nat, year: int, month: int, today: Date)
    requires d < 7 && WeekFor(week, sunday, year, month, today)
    ensures |week| == 7 && week[d].date == sunday + d && week[d].iso == ToISODate(sunday + d)
  {
    assert CellFor(week[d], sunday + d, year, month, today);
  }

  lemma ColumnOfWeek(week: seq<DayCell>, start: Date, w: nat, d: nat, year: int, month: int, today: Date)
    requires d < 7 && WeekFor(week, start + 7 * w, year, month, today) && WeekDay(start) == 0
    ensures |week| == 7 && WeekDay(week[d].date) == d
  {
    hide CellFor;
    CellOfWeek(week, start + 7 * w, d, year, month, today);
    WeeksLater(start, w);
    WeekHasSevenDays(start + 7 * w, d);
  }

  /** Column d of every row holds weekday d. */
  ghost predicate SundayToSaturday(weeks: seq<seq<DayCell>>) {
    forall w, d :: 0 <= w < |weeks| && 0 <= d < |weeks[w]| ==> WeekDay(weeks[w][d].date) == d
  }

  lemma ColumnsOfWeeks(weeks: seq<seq<DayCell>>, start: Date, year: int, month: int, today: Date)
    requires WeekDay(start) == 0
    requires forall w :: 0 <= w < |weeks| ==> WeekFor(weeks[w], start + 7 * w, year, month, today)
    ensures SundayToSaturday(weeks)
  {
    hide CellFor, WeekDay;
    forall w, d | 0 <= w < |weeks| && 0 <= d < |weeks[w]|
      ensures WeekDay(weeks[w][d].date) == d
    {
      ColumnOfWeek(weeks[w], start, w, d, year, month, today);
    }
  }

  lemma {:induction false} WeeksLater(n: Date, w: nat)
    ensures WeekDay(n + 7 * w) == WeekDay(n)
    decreases w
  {
    if w > 0 {
      WeeksLater(n, w - 1);
      WeekHasSevenDays(n + 7 * (w - 1), 0);
    }
  }

  lemma SundayStart(year: int, month: int)
    ensures var first := NewDate(year, month, 1);
            WeekDay(GridStart(year, month)) == 0 && GridStart(year, month) <= first <= GridStart(year, month) + 6
  {
  }

  /** The days of a month, as an interval of day numbers. */
  lemma MonthInterval(d: Date, year: int, month: int)
    requires 0 <= month < 12
    ensures var first := NewDate(year, month, 1);
            InMonth(d, year, month) <==> first <= d < first + DaysInMonth(FullYear(year), month)
  {
    hide YearOf, MonthOf, YearStart, MonthStart, DaysInMonth;
    var y, first := FullYear(year), NewDate(year, month, 1);
    MakeDayInYear(y, month, 1);
    if InMonth(d, year, month) {
      DayOfFields(d);
    }
    if first <= d < first + DaysInMonth(y, month) {
      FieldsOfDay(y, month, d - first + 1);
    }
  }

  /** Within the grid, the month alone tells whether a day is in the month on show. */
  lemma MonthTells(k: nat, year: int, month: int)
    requires 0 <= month < 12 && k < 42
    ensures var d := GridStart(year, month) + k; MonthOf(d) == month <==> InMonth(d, year, month)
  {
    hide GridStart, YearOf, MonthOf, YearStart, MonthStart, Leap;
    var y, d, first := FullYear(year), GridStart(year, month) + k, NewDate(year, month, 1);
    SundayStart(year, month);
    DayOfFields(d);
    if MonthOf(d) == month && YearOf(d) != y {
      var x := YearOf(d);
      MakeDayInYear(y, month, 1);
      MonthsApart(x, y, month);
    }
  }

  /** The same month of another year is far away. */
  lemma MonthsApart(x: int, y: int, m: int)
    requires x != y && 0 <= m < 12
    ensures var a, b := YearStart(x) + MonthStart(x, m), YearStart(y) + MonthStart(y, m);
            if x < y then a + 364 <= b else b + 364 <= a
  {
    if x < y {
      YearsGrow(x, y);
    } else {
      YearsGrow(y, x);
    }
    LeapShift(x, m);
    LeapShift(y, m);
  }

  lemma {:induction false} LeapShift(y: int, m: int)
    requires 0 <= m < 12
    ensures MonthStart(1970, m) <= MonthStart(y, m) <= MonthStart(1970, m) + 1
    ensures m <= 1 ==> MonthStart(y, m) == MonthStart(1970, m)
    decreases m
  {
    if m > 0 {
      LeapShift(y, m - 1);
      MonthLength(y, m - 1);
      MonthLength(1970, m - 1);
    }
  }

  /** Every day of the month has its place in the grid. */
  lemma GridCoversMonth(d: Date, year: int, month: int)
    requires 0 <= month < 12 && InMonth(d, year, month)
    ensures GridStart(year, month) <= d < GridStart(year, month) + 42
  {
    SundayStart(year, month);
    MonthInterval(d, year, month);
  }

  lemma GridCoversAll(year: int, month: int)
    requires 0 <= month < 12
    ensures forall d :: InMonth(d, year, month) ==> GridStart(year, month) <= d < GridStart(year, month) + 42
  {
    forall d | InMonth(d, year, month)
      ensures GridStart(year, month) <= d < GridStart(year, month) + 42
    {
      GridCoversMonth(d, year, month);
    }
  }

  lemma Advance(d: Date)
    ensures SetDate(d, DayOf(d) + 1) == d + 1
  {
    DayOfFields(d);
    MakeDayInYear(YearOf(d), MonthOf(d), DayOf(d) + 1);
  }

  function MakeCell(d: Date, month: int, todayIso: string): DayCell {
    DayCell(d, ToISODate(d), MonthOf(d) == month, ToISODate(d) == todayIso)
  }

  lemma MakeCellIsRight(k: nat, year: int, month: int, today: Date)
    requires k < 42
    ensures var d := GridStart(year, month) + k;
            CellFor(MakeCell(d, month, ToISODate(today)), d, year, month, today)
  {
    hide GridStart, ToISODate, InMonth, MonthOf;
    var d := GridStart(year, month) + k;
    ToISODateIsInjective(d, today);
    if 0 <= month < 12 {
      MonthTells(k, year, month);
    }
  }

  /** One row of the grid: seven days from the cursor, which it leaves on the next Sunday. */
  method BuildWeek(from: Date, w: nat, year: int, month: int, today: Date) returns (row: seq<DayCell>, cursor: Date)
    requires w < 6 && from == GridStart(year, month) + 7 * w
    ensures WeekFor(row, from, year, month, today) && cursor == from + 7
  {
    hide GridStart, MakeCell, CellFor, SetDate, ToISODate, YearOf, MonthOf, DayOf;
    var todayIso := ToISODate(today);
    row := [];
    cursor := from;
    for d := 0 to 7
      invariant cursor == from + d
      invariant |row| == d
      invariant forall e :: 0 <= e < d ==> CellFor(row[e], from + e, year, month, today)
    {
      row := row + [MakeCell(cursor, month, todayIso)];
      MakeCellIsRight(7 * w + d, year, month, today);
      Advance(cursor);
      cursor := SetDate(cursor, DayOf(cursor) + 1);
    }
  }

  /** Six weeks of consecutive days from a Sunday, each marked correctly, holding the whole month. */
  method BuildMonthGrid(year: int, month: int, today: Date) returns (grid: MonthGrid)
    ensures grid.year == year && grid.month == month
    ensures |grid.weeks| == 6
    ensures forall w :: 0 <= w < 6 ==> WeekFor(grid.weeks[w], GridStart(year, month) + 7 * w, year, month, today)
    ensures grid.gridStart == ToISODate(GridStart(year, month))
    ensures grid.gridEnd == ToISODate(GridStart(year, month) + 41)
    ensures SundayToSaturday(grid.weeks)
    ensures GridStart(year, month) <= NewDate(year, month, 1) <= GridStart(year, month) + 6
    ensures 0 <= month < 12 ==> forall d :: InMonth(d, year, month) ==>
              GridStart(year, month) <= d < GridStart(year, month) + 42
  {
    hide *;
    var start := GridStart(year, month);
    var weeks: seq<seq<DayCell>> := [];
    var cursor := start;
    for w := 0 to 6
      invariant cursor == start + 7 * w
      invariant |weeks| == w && forall v :: 0 <= v < w ==> WeekFor(weeks[v], start + 7 * v, year, month, today)
    {
      var row;
      row, cursor := BuildWeek(cursor, w, year, month, today);
      weeks := weeks + [row];
    }
    SundayStart(year, month);
    if 0 <= month < 12 {
      GridCoversAll(year, month);
    }
    ColumnsOfWeeks(weeks, start, year, month, today);
    CellOfWeek(weeks[0], start, 0, year, month, today);
    CellOfWeek(weeks[5], start + 35, 6, year, month, today);
    grid := MonthGrid(year, month, weeks, weeks[0][0].iso, weeks[5][6].iso);
  }
}

/**
 * The CSV reader and writer of frontend/lib/csv.ts.
 *
 * `Tokenize` is the reader as a one-character automaton. The source's reader looks one character
 * ahead at a quote; `TokenizeText` is that loop, proved equal to the automaton. `ToCsv` is the writer.
 */
module Csv {
  type Record = seq<string>

  const QUOTE: char := '"'
  const COMMA: char := ','
  const CR: char := '\r'
  const LF: char := '\n'
  const CRLF: string := [CR, LF]

  // ---------------------------------------------------------------- the automaton

  /** `QuoteSeen`: inside quotes, just after a quote that either closes the cell or starts `""`. */
  datatype Mode = Plain | Quoted | QuoteSeen

  datatype Scanner = Scanner(records: seq<Record>, row: Record, cell: string, mode: Mode)

  const START: Scanner := Scanner([], [], "", Plain)

  function StepPlain(s: Scanner, ch: char): Scanner {
    if ch == QUOTE then s.(mode := Quoted)
    else if ch == COMMA then s.(row := s.row + [s.cell], cell := "", mode := Plain)
    else if ch == CR then s.(mode := Plain)
    else if ch == LF then Scanner(s.records + [s.row + [s.cell]], [], "", Plain)
    else s.(cell := s.cell + [ch], mode := Plain)
  }

  function Step(s: Scanner, ch: char): Scanner {
    match s.mode
    case Plain => StepPlain(s, ch)
    case Quoted => if ch == QUOTE then s.(mode := QuoteSeen) else s.(cell := s.cell + [ch])
    case QuoteSeen => if ch == QUOTE then s.(cell := s.cell + [QUOTE], mode := Quoted) else StepPlain(s, ch)
  }

  function Run(s: Scanner, text: string): Scanner
    decreases |text|
  {
    if text == "" then s else Run(Step(s, text[0]), text[1..])
  }

  /** The end of the file flushes a pending cell or row. */
  function Finish(s: Scanner): seq<Record> {
    if s.cell != "" || |s.row| > 0 then s.records + [s.row + [s.cell]] else s.records
  }

  function Tokenize(text: string): seq<Record> {
    Finish(Run(START, text))
  }

  lemma {:induction false} RunAppend(s: Scanner, a: string, b: string)
    ensures Run(s, a + b) == Run(Run(s, a), b)
    decreases |a|
  {
    if a == "" {
      assert a + b == b;
    } else {
      assert (a + b)[1..] == a[1..] + b;
      RunAppend(Step(s, a[0]), a[1..], b);
    }
  }

  lemma RunOne(s: Scanner, ch: char)
    ensures Run(s, [ch]) == Step(s, ch)
  {
    assert [ch][1..] == "";
  }

  lemma RunSnoc(s: Scanner, text: string, i: nat)
    requires i < |text|
    ensures Run(s, text[..i + 1]) == Step(Run(s, text[..i]), text[i])
  {
    assert text[..i + 1] == text[..i] + [text[i]];
    RunAppend(s, text[..i], [text[i]]);
    RunOne(Run(s, text[..i]), text[i]);
  }

  // ---------------------------------------------------------------- the reader's loop

  /** The loop as the source runs it: a quote inside quotes looks at the next character. */
  method TokenizeText(text: string) returns (records: seq<Record>)
    ensures records == Tokenize(text)
  {
    records := [];
    var row: Record := [];
    var cell := "";
    var inQuotes := false;
    var i := 0;
    while i < |text|
      invariant 0 <= i <= |text|
      invariant var s := Run(START, text[..i]);
                && s.records == records && s.row == row && s.cell == cell
                && (inQuotes <==> s.mode == Quoted)
                && (s.mode == QuoteSeen && i < |text| ==> text[i] != QUOTE)
    {
      var ch := text[i];
      RunSnoc(START, text, i);
      if inQuotes {
        if ch == QUOTE {
          if i + 1 < |text| && text[i + 1] == QUOTE {
            RunSnoc(START, text, i + 1);
            cell := cell + [QUOTE];
            i := i + 1;
          } else {
            inQuotes := false;
          }
        } else {
          cell := cell + [ch];
        }
      } else if ch == QUOTE {
        inQuotes := true;
      } else if ch == COMMA {
        row := row + [cell];
        cell := "";
      } else if ch == CR {
        // swallowed; a CRLF ends the record at its LF
      } else if ch == LF {
        row := row + [cell];
        records := records + [row];
        row := [];
        cell := "";
      } else {
        cell := cell + [ch];
      }
      i := i + 1;
    }
    assert text[..|text|] == text;
    if cell != "" || |row| > 0 {
      row := row + [cell];
      records := records + [row];
    }
  }

  // ---------------------------------------------------------------- the writer

  predicate NeedsQuotes(v: string) {
    exists i :: 0 <= i < |v| && v[i] in {QUOTE, COMMA, CR, LF}
  }

  /** Every quote doubled. */
  function Doubled(v: string): string {
    if v == "" then "" else (if v[0] == QUOTE then [QUOTE, QUOTE] else [v[0]]) + Doubled(v[1..])
  }

  function Escape(v: string): string {
    if NeedsQuotes(v) then [QUOTE] + Doubled(v) + [QUOTE] else v
  }

  function Line(cells: Record): string {
    if |cells| == 0 then ""
    else if |cells| == 1 then Escape(cells[0])
    else Escape(cells[0]) + [COMMA] + Line(cells[1..])
  }

  function Lines(records: seq<Record>): string {
    if |records| == 0 then ""
    else if |records| == 1 then Line(records[0])
    else Line(records[0]) + CRLF + Lines(records[1..])
  }

  function ToCsv(headers: Record, rows: seq<Record>): string {
    Lines([headers] + rows)
  }

  lemma {:induction false} DoubledIsNoShorter(v: string)
    ensures |Doubled(v)| >= |v|
    decreases |v|
  {
    if v != "" {
      DoubledIsNoShorter(v[1..]);
    }
  }

  /** A cell is printed bare exactly when it holds no quote, comma or line-break character. */
  lemma QuotedOnlyWhenNeeded(v: string)
    ensures Escape(v) == v <==> forall i :: 0 <= i < |v| ==> v[i] !in {'"', ',', '\r', '\n'}
  {
    DoubledIsNoShorter(v);
  }

  /** A further cell stands behind a comma. */
  lemma {:induction false} AppendCell(cells: Record, v: string)
    requires cells != []
    ensures Line(cells + [v]) == Line(cells) + "," + Escape(v)
    decreases |cells|
  {
    hide Escape;
    var more := cells + [v];
    assert more[0] == cells[0] && more[1..] == cells[1..] + [v];
    assert [COMMA] == ",";
    if |cells| > 1 {
      AppendCell(cells[1..], v);
    } else {
      assert more[1..] == [v];
    }
  }

  lemma {:induction false} LinesSnoc(records: seq<Record>, r: Record)
    requires records != []
    ensures Lines(records + [r]) == Lines(records) + CRLF + Line(r)
    decreases |records|
  {
    hide Line;
    var more := records + [r];
    assert more[0] == records[0] && more[1..] == records[1..] + [r];
    if |records| > 1 {
      LinesSnoc(records[1..], r);
    } else {
      assert more[1..] == [r];
    }
  }

  /** A further row is a further line: the file so far is not touched. */
  lemma AppendRow(headers: Record, rows: seq<Record>, r: Record)
    ensures ToCsv(headers, rows + [r]) == ToCsv(headers, rows) + "\r\n" + Line(r)
  {
    LinesSnoc([headers] + rows, r);
    assert CRLF == "\r\n";
    assert [headers] + (rows + [r]) == [headers] + rows + [r];
  }

  // ---------------------------------------------------------------- round trip

  /** What reading back a print yields: an empty record comes back as one empty cell, and a final
      record with nothing to show does not come back at all. */
  function Survivors(records: seq<Record>): seq<Record> {
    if |records| == 0 then []
    else if |records| == 1 then (if records[0] == [] || records[0] == [""] then [] else records)
    else [if records[0] == [] then [""] else records[0]] + Survivors(records[1..])
  }

  /** Inside quotes, one character as it is printed. */
  lemma RunDoubledOne(s: Scanner, ch: char)
    requires s.mode == Quoted
    ensures Run(s, if ch == QUOTE then [QUOTE, QUOTE] else [ch]) == s.(cell := s.cell + [ch])
  {
    if ch == QUOTE {
      assert [QUOTE] + [QUOTE] == [QUOTE, QUOTE];
      RunAppend(s, [QUOTE], [QUOTE]);
      RunOne(s, QUOTE);
      RunOne(Step(s, QUOTE), QUOTE);
    } else {
      RunOne(s, ch);
    }
  }

  lemma {:induction false} RunDoubled(s: Scanner, v: string)
    requires s.mode == Quoted
    ensures Run(s, Doubled(v)) == s.(cell := s.cell + v)
    decreases |v|
  {
    if v == "" {
      assert s.cell + v == s.cell;
    } else {
      hide Run;
      RunAppend(s, if v[0] == QUOTE then [QUOTE, QUOTE] else [v[0]], Doubled(v[1..]));
      RunDoubledOne(s, v[0]);
      RunDoubled(s.(cell := s.cell + [v[0]]), v[1..]);
      assert s.cell + [v[0]] + v[1..] == s.cell + v;
    }
  }

  lemma {:induction false} RunBare(s: Scanner, v: string)
    requires s.mode == Plain && !NeedsQuotes(v)
    ensures Run(s, v) == s.(cell := s.cell + v)
    decreases |v|
  {
    if v == "" {
      assert s.cell + v == s.cell;
    } else {
      assert v[0] !in {QUOTE, COMMA, CR, LF};
      assert forall i :: 0 <= i < |v[1..]| ==> v[1..][i] == v[i + 1];
      RunBare(s.(cell := s.cell + [v[0]]), v[1..]);
      assert s.cell + [v[0]] + v[1..] == s.cell + v;
    }
  }

  /** An escaped cell is read back whole, leaving the scanner outside quotes. */
  lemma RunEscaped(s: Scanner, v: string)
    requires s.mode == Plain && s.cell == ""
    ensures var t := Run(s, Escape(v)); t == s.(cell := v, mode := t.mode) && t.mode != Quoted
  {
    if NeedsQuotes(v) {
      RunAppend(s, [QUOTE] + Doubled(v), [QUOTE]);
      RunAppend(s, [QUOTE], Doubled(v));
      RunOne(s, QUOTE);
      RunDoubled(s.(mode := Quoted), v);
      RunOne(s.(cell := v, mode := Quoted), QUOTE);
      assert s.cell + v == v;
    } else {
      RunBare(s, v);
      assert s.cell + v == v;
    }
  }

  lemma {:induction false} RunLine(s: Scanner, cells: Record)
    requires s.mode == Plain && s.cell == "" && |cells| > 0
    ensures var t := Run(s, Line(cells));
            && t == Scanner(s.records, s.row + cells[..|cells| - 1], cells[|cells| - 1], t.mode)
            && t.mode != Quoted
    decreases |cells|
  {
    RunEscaped(s, cells[0]);
    if |cells| > 1 {
      RunAppend(s, Escape(cells[0]) + [COMMA], Line(cells[1..]));
      RunAppend(s, Escape(cells[0]), [COMMA]);
      RunOne(Run(s, Escape(cells[0])), COMMA);
      var t := Scanner(s.records, s.row + [cells[0]], "", Plain);
      RunLine(t, cells[1..]);
      assert s.row + [cells[0]] + cells[1..][..|cells| - 2] == s.row + cells[..|cells| - 1];
    } else {
      assert s.row + cells[..0] == s.row;
    }
  }

  lemma RunEndOfLine(s: Scanner)
    requires s.mode != Quoted
    ensures Run(s, CRLF) == Scanner(s.records + [s.row + [s.cell]], [], "", Plain)
  {
    assert CRLF == [CR] + [LF];
    RunAppend(s, [CR], [LF]);
    RunOne(s, CR);
    RunOne(Step(s, CR), LF);
  }

  /** One printed record, up to its end of line. */
  lemma RunRecord(done: seq<Record>, r: Record)
    ensures var t := Run(Scanner(done, [], "", Plain), Line(r));
            && t.records == done && t.row + [t.cell] == (if r == [] then [""] else r) && t.mode != Quoted
  {
    var s := Scanner(done, [], "", Plain);
    if r != [] {
      RunLine(s, r);
      assert [] + r[..|r| - 1] + [r[|r| - 1]] == r;
    }
  }

  lemma RunRecordAndEnd(done: seq<Record>, r: Record, rest: string)
    ensures Run(Scanner(done, [], "", Plain), Line(r) + CRLF + rest)
         == Run(Scanner(done + [if r == [] then [""] else r], [], "", Plain), rest)
  {
    var s := Scanner(done, [], "", Plain);
    RunAppend(s, Line(r) + CRLF, rest);
    RunAppend(s, Line(r), CRLF);
    RunRecord(done, r);
    RunEndOfLine(Run(s, Line(r)));
  }

  lemma RunLastRecord(done: seq<Record>, r: Record)
    ensures Finish(Run(Scanner(done, [], "", Plain), Line(r))) == done + Survivors([r])
  {
    RunRecord(done, r);
    var t := Run(Scanner(done, [], "", Plain), Line(r));
    assert done + [] == done;
    assert |t.row + [t.cell]| == |t.row| + 1 && (t.row + [t.cell])[|t.row|] == t.cell;
  }

  lemma Regroup<T>(a: seq<T>, b: seq<T>, c: seq<T>)
    ensures a + (b + c) == a + b + c
  {
  }

  lemma {:induction false} RunLines(done: seq<Record>, records: seq<Record>)
    ensures Finish(Run(Scanner(done, [], "", Plain), Lines(records))) == done + Survivors(records)
    decreases |records|
  {
    hide Step, Line, Escape;
    if |records| == 0 {
      assert done + [] == done;
    } else if |records| == 1 {
      RunLastRecord(done, records[0]);
      assert records == [records[0]];
    } else {
      hide Run;
      var r := records[0];
      var shown := if r == [] then [""] else r;
      RunRecordAndEnd(done, r, Lines(records[1..]));
      RunLines(done + [shown], records[1..]);
      Regroup(done, [shown], Survivors(records[1..]));
    }
  }

  /** Reading back any print at all. */
  lemma ReadBack(headers: Record, rows: seq<Record>)
    ensures Tokenize(ToCsv(headers, rows)) == Survivors([headers] + rows)
  {
    RunLines([], [headers] + rows);
  }

  ghost predicate Printable(records: seq<Record>) {
    && (forall i :: 0 <= i < |records| ==> records[i] != [])
    && (|records| > 0 ==> records[|records| - 1] != [""])
  }

  lemma PrintableTail(records: seq<Record>)
    requires |records| > 1
    ensures Printable(records) <==> records[0] != [] && Printable(records[1..])
  {
    var rest := records[1..];
    assert forall i :: 0 < i < |records| ==> records[i] == rest[i - 1];
    if Printable(records) {
      assert forall i :: 0 <= i < |rest| ==> rest[i] == records[i + 1];
    }
  }

  lemma SameHeadAndTail<T>(a: seq<T>, b: seq<T>)
    requires |a| > 0 && |b| > 0
    ensures a == b <==> a[0] == b[0] && a[1..] == b[1..]
  {
    assert a == [a[0]] + a[1..] && b == [b[0]] + b[1..];
  }

  lemma {:induction false} SurvivorsIdentity(records: seq<Record>)
    ensures Survivors(records) == records <==> Printable(records)
    decreases |records|
  {
    if |records| > 1 {
      SurvivorsIdentity(records[1..]);
      PrintableTail(records);
      assert Survivors(records)[1..] == Survivors(records[1..]);
      SameHeadAndTail(Survivors(records), records);
    }
  }

  /** The table survives the trip exactly when no record is empty and the last is not one empty cell. */
  lemma RoundTrip(headers: Record, rows: seq<Record>)
    ensures Tokenize(ToCsv(headers, rows)) == [headers] + rows <==> Printable([headers] + rows)
  {
    ReadBack(headers, rows);
    SurvivorsIdentity([headers] + rows);
  }

  // ---------------------------------------------------------------- laws of the reader

  lemma {:induction false} RunKeepsRecordsNonEmpty(s: Scanner, text: string)
    requires forall r :: r in s.records ==> r != []
    ensures forall r :: r in Run(s, text).records ==> r != []
    decreases |text|
  {
    if text != "" {
      RunKeepsRecordsNonEmpty(Step(s, text[0]), text[1..]);
    }
  }

  lemma RecordsNonEmpty(text: string)
    ensures forall r :: r in Tokenize(text) ==> r != []
  {
    RunKeepsRecordsNonEmpty(START, text);
  }

  /** Whatever was read can be printed and read again, unless it ends in a lone empty cell. */
  lemma Reprint(text: string)
    requires Tokenize(text) != []
    ensures var table := Tokenize(text);
            Tokenize(ToCsv(table[0], table[1..])) == table <==> table[|table| - 1] != [""]
  {
    var table := Tokenize(text);
    RecordsNonEmpty(text);
    RoundTrip(table[0], table[1..]);
    assert [table[0]] + table[1..] == table;
    assert forall i :: 0 <= i < |table| ==> table[i] in table;
  }

  /** Records already read do not influence the rest of the run. */
  lemma {:induction false} RunFrame(done: seq<Record>, s: Scanner, text: string)
    ensures var t := Run(s, text);
            Run(s.(records := done + s.records), text) == t.(records := done + t.records)
    decreases |text|
  {
    if text != "" {
      var u := Step(s, text[0]);
      assert Step(s.(records := done + s.records), text[0]) == u.(records := done + u.records) by {
        assert done + (s.records + [s.row + [s.cell]]) == done + s.records + [s.row + [s.cell]];
      }
      RunFrame(done, u, text[1..]);
    }
  }

  ghost predicate EndsRecord(a: string) {
    a != "" && a[|a| - 1] == LF && Run(START, a[..|a| - 1]).mode != Quoted
  }

  /** Cutting a file after a line feed outside quotes cuts its table. */
  lemma TokenizeConcat(a: string, b: string)
    requires EndsRecord(a)
    ensures Tokenize(a + b) == Tokenize(a) + Tokenize(b)
  {
    var s := Run(START, a);
    RunSnoc(START, a, |a| - 1);
    assert a[..|a|] == a;
    assert s == Scanner(s.records, [], "", Plain);
    RunAppend(START, a, b);
    RunFrame(s.records, START, b);
    assert s.records + [] == s.records;
    var t := Run(START, b);
    assert s.records + (t.records + [t.row + [t.cell]]) == s.records + t.records + [t.row + [t.cell]];
  }

  // ---------------------------------------------------------------- deleting carriage returns

  /** A carriage return at this point lies outside quotes. */
  ghost predicate OutsideQuotes(a: string) {
    Run(START, a).mode != Quoted
  }

  /** A choice of characters to delete, all of them carriage returns outside quotes. */
  ghost predicate OutsideReturns(text: string, gone: set<nat>) {
    forall i :: i in gone ==> i < |text| && text[i] == CR && OutsideQuotes(text[..i])
  }

  function Without(text: string, gone: set<nat>): string {
    if text == "" then ""
    else
      var n := |text| - 1;
      Without(text[..n], gone) + if n in gone then [] else [text[n]]
  }

  /** All characters between n and the last closing quote are deleted, and there is at least one. */
  ghost predicate Hangs(text: string, gone: set<nat>, n: nat)
    requires n <= |text|
  {
    n > 0 && n - 1 in gone && (Run(START, text[..n - 1]).mode == QuoteSeen || Hangs(text, gone, n - 1))
  }

  /** The deletion brings a closing quote and a further quote together: the two then read as `""`. */
  ghost predicate JoinsBefore(text: string, gone: set<nat>, end: nat)
    requires end <= |text|
  {
    exists n :: 0 <= n < end && text[n] == QUOTE && n !in gone && Hangs(text, gone, n)
  }

  ghost predicate JoinsQuotes(text: string, gone: set<nat>) {
    JoinsBefore(text, gone, |text|)
  }

  /** What two scanners hold has come apart for good: one cell is longer, or something finished differs. */
  ghost predicate Apart(s: Scanner, t: Scanner) {
    && |s.records| == |t.records| && |s.row| == |t.row|
    && (s.records != t.records || s.row != t.row || |s.cell| < |t.cell|)
  }

  predicate SameData(s: Scanner, t: Scanner) {
    s.records == t.records && s.row == t.row && s.cell == t.cell
  }

  /** The scanners of the text and of what is left of it, with deletions hanging or not. */
  ghost predicate InStep(s: Scanner, t: Scanner, hangs: bool, joined: bool) {
    && (if hangs then s.mode == Plain && t.mode == QuoteSeen else s.mode == t.mode)
    && (if joined then Apart(s, t) else SameData(s, t))
  }

  lemma SameSnoc<T>(a: seq<T>, x: T, b: seq<T>, y: T)
    requires |a| == |b|
    ensures a + [x] == b + [y] <==> a == b && x == y
  {
    var p, q := a + [x], b + [y];
    assert p[..|a|] == a && q[..|b|] == b && p[|a|] == x && q[|b|] == y;
  }

  lemma ApartSnoc(s: Scanner, t: Scanner)
    requires Apart(s, t)
    ensures s.row != t.row ==> s.row + [s.cell] != t.row + [t.cell]
    ensures s.row == t.row && s.records == t.records ==> s.row + [s.cell] != t.row + [t.cell]
    ensures s.records + [s.row + [s.cell]] != t.records + [t.row + [t.cell]]
  {
    SameSnoc(s.row, s.cell, t.row, t.cell);
    SameSnoc(s.records, s.row + [s.cell], t.records, t.row + [t.cell]);
  }

  lemma ApartPlain(s: Scanner, t: Scanner, ch: char)
    requires Apart(s, t)
    ensures Apart(StepPlain(s, ch), StepPlain(t, ch))
  {
    ApartSnoc(s, t);
  }

  /** A character that is kept. */
  lemma StepTogether(s: Scanner, t: Scanner, ch: char, hangs: bool, joined: bool)
    requires InStep(s, t, hangs, joined)
    ensures InStep(Step(s, ch), Step(t, ch), false, joined || (hangs && ch == QUOTE))
  {
    if joined {
      hide StepPlain;
      ApartPlain(s, t, ch);
      ModesPlain(s, t, ch);
    }
  }

  lemma ModesPlain(s: Scanner, t: Scanner, ch: char)
    ensures StepPlain(s, ch).mode == StepPlain(t, ch).mode == if ch == QUOTE then Quoted else Plain
    ensures ch == QUOTE ==> SameData(StepPlain(s, ch), s)
  {
  }

  /** A carriage return that is deleted. */
  lemma StepAlone(s: Scanner, t: Scanner, hangs: bool, joined: bool)
    requires InStep(s, t, hangs, joined) && s.mode != Quoted
    ensures InStep(Step(s, CR), t, s.mode == QuoteSeen || hangs, joined)
  {
  }

  lemma JoinsNext(text: string, gone: set<nat>, n: nat)
    requires n < |text|
    ensures JoinsBefore(text, gone, n + 1)
       <==> JoinsBefore(text, gone, n) || (text[n] == QUOTE && n !in gone && Hangs(text, gone, n))
  {
  }

  lemma StartInStep(text: string, gone: set<nat>)
    ensures InStep(START, START, false, false) && !JoinsBefore(text, gone, 0)
  {
  }

  lemma {:induction false} KeepInStep(text: string, gone: set<nat>, n: nat)
    requires n <= |text| && OutsideReturns(text, gone)
    ensures InStep(Run(START, text[..n]), Run(START, Without(text[..n], gone)),
                   Hangs(text, gone, n), JoinsBefore(text, gone, n))
    decreases n
  {
    hide Step, InStep, JoinsBefore;
    if n == 0 {
      StartInStep(text, gone);
    } else {
      var k, ch := n - 1, text[n - 1];
      var s, t := Run(START, text[..k]), Run(START, Without(text[..k], gone));
      KeepInStep(text, gone, k);
      RunSnoc(START, text, k);
      JoinsNext(text, gone, k);
      assert text[..n][..k] == text[..k];
      if k in gone {
        StepAlone(s, t, Hangs(text, gone, k), JoinsBefore(text, gone, k));
        assert Without(text[..n], gone) == Without(text[..k], gone);
      } else {
        StepTogether(s, t, ch, Hangs(text, gone, k), JoinsBefore(text, gone, k));
        RunAppend(START, Without(text[..k], gone), [ch]);
        RunOne(t, ch);
      }
    }
  }

  lemma FinishInStep(s: Scanner, t: Scanner, hangs: bool, joined: bool)
    requires InStep(s, t, hangs, joined)
    ensures Finish(s) == Finish(t) <==> !joined
  {
    if joined {
      ApartSnoc(s, t);
    }
  }

  /** Any carriage returns outside quotes can be deleted exactly when that joins no two quotes. */
  lemma DeleteReturns(text: string, gone: set<nat>)
    requires OutsideReturns(text, gone)
    ensures Tokenize(Without(text, gone)) == Tokenize(text) <==> !JoinsQuotes(text, gone)
  {
    hide Run, InStep, Finish, Without, Hangs;
    KeepInStep(text, gone, |text|);
    assert text[..|text|] == text;
    FinishInStep(Run(START, text), Run(START, Without(text, gone)), Hangs(text, gone, |text|), JoinsQuotes(text, gone));
  }

  /** From i to n stand nothing but carriage returns, between a closing quote and a further quote. */
  ghost predicate Gap(text: string, i: nat, n: nat) {
    && i < n < |text| && text[n] == QUOTE
    && Run(START, text[..i]).mode == QuoteSeen
    && forall k :: i <= k < n ==> text[k] == CR
  }

  ghost predicate HasGap(text: string) {
    exists i: nat, n: nat :: Gap(text, i, n)
  }

  lemma {:induction false} HangsFrom(text: string, gone: set<nat>, n: nat) returns (i: nat)
    requires n <= |text| && OutsideReturns(text, gone) && Hangs(text, gone, n)
    ensures i < n && Run(START, text[..i]).mode == QuoteSeen && forall k :: i <= k < n ==> text[k] == CR
    decreases n
  {
    if Run(START, text[..n - 1]).mode == QuoteSeen {
      i := n - 1;
    } else {
      i := HangsFrom(text, gone, n - 1);
    }
  }

  lemma JoinedInGap(text: string, gone: set<nat>)
    requires OutsideReturns(text, gone)
    ensures JoinsQuotes(text, gone) ==> HasGap(text)
  {
    if JoinsQuotes(text, gone) {
      var n :| 0 <= n < |text| && text[n] == QUOTE && n !in gone && Hangs(text, gone, n);
      var i := HangsFrom(text, gone, n);
      assert Gap(text, i, n);
    }
  }

  function Range(i: nat, n: nat): (r: set<nat>)
    ensures forall k: nat :: k in r <==> i <= k < n
  {
    if i >= n then {} else Range(i, n - 1) + {n - 1}
  }

  lemma {:induction false} GapIsOutside(text: string, i: nat, n: nat, k: nat)
    requires i < n <= |text| && Run(START, text[..i]).mode == QuoteSeen && (forall m :: i <= m < n ==> text[m] == CR)
    requires i < k <= n
    ensures Run(START, text[..k]).mode == Plain && Hangs(text, Range(i, n), k)
    decreases k
  {
    RunSnoc(START, text, k - 1);
    if k > i + 1 {
      GapIsOutside(text, i, n, k - 1);
    }
  }

  /** The documented claim, that carriage returns outside quotes do not matter, is true of a file exactly
      when nowhere nothing but carriage returns separates a closing quote from a further quote. */
  lemma ReturnsDoNotMatter(text: string)
    ensures (forall gone :: OutsideReturns(text, gone) ==> Tokenize(Without(text, gone)) == Tokenize(text))
       <==> !HasGap(text)
  {
    hide Tokenize, Without, Run, Hangs;
    if i: nat, n: nat :| Gap(text, i, n) {
      var gone := Range(i, n);
      forall k | i < k <= n
        ensures Run(START, text[..k]).mode == Plain && Hangs(text, gone, k)
      {
        GapIsOutside(text, i, n, k);
      }
      assert OutsideReturns(text, gone);
      assert JoinsQuotes(text, gone);
      DeleteReturns(text, gone);
    } else {
      forall gone | OutsideReturns(text, gone)
        ensures Tokenize(Without(text, gone)) == Tokenize(text)
      {
        JoinedInGap(text, gone);
        DeleteReturns(text, gone);
      }
    }
  }

  // ---------------------------------------------------------------- one carriage return

  /** The return separates a closing quote from a further quote. */
  ghost predicate SplitsQuotes(a: string, b: string) {
    Run(START, a).mode == QuoteSeen && b != "" && b[0] == QUOTE
  }

  lemma {:induction false} WithoutOne(a: string, b: string)
    ensures Without(a + [CR] + b, {|a|}) == a + b
    decreases |b|
  {
    var text := a + [CR] + b;
    if b == "" {
      assert text[..|a|] == a && a + b == a;
      WithoutNone(a, {|a|});
    } else {
      var n := |b| - 1;
      WithoutOne(a, b[..n]);
      assert text[..|text| - 1] == a + [CR] + b[..n];
      assert a + b[..n] + [b[n]] == a + b;
    }
  }

  lemma {:induction false} WithoutNone(a: string, gone: set<nat>)
    requires forall i :: i in gone ==> i >= |a|
    ensures Without(a, gone) == a
    decreases |a|
  {
    if a != "" {
      WithoutNone(a[..|a| - 1], gone);
    }
  }

  /** A carriage return outside quotes can be deleted exactly when it does not split two quotes. */
  lemma DeleteCarriageReturn(a: string, b: string)
    requires OutsideQuotes(a)
    ensures Tokenize(a + [CR] + b) == Tokenize(a + b) <==> !SplitsQuotes(a, b)
  {
    hide Tokenize, Without, Run;
    var text, gone := a + [CR] + b, {|a|};
    assert text[..|a|] == a;
    WithoutOne(a, b);
    DeleteReturns(text, gone);
    assert !Hangs(text, gone, |a|);
    if SplitsQuotes(a, b) {
      assert text[|a| + 1] == QUOTE && Hangs(text, gone, |a| + 1);
    }
    if JoinsQuotes(text, gone) {
      var n :| 0 <= n < |text| && text[n] == QUOTE && n !in gone && Hangs(text, gone, n);
      assert n == |a| + 1 && text[n] == b[0];
    }
  }

  /** The documented claim that a return outside quotes is ignored fails on this file. */
  lemma CarriageReturnMatters()
    ensures Tokenize("\"x\"" + [CR] + "\"y\"") != Tokenize("\"x\"" + "\"y\"")
  {
    assert Run(START, "\"x\"").mode == QuoteSeen by {
      assert "\"x\"" == ['"'] + ['x'] + ['"'];
      RunAppend(START, ['"'] + ['x'], ['"']);
      RunAppend(START, ['"'], ['x']);
      RunOne(START, '"');
      RunOne(Step(START, '"'), 'x');
      RunOne(Step(Step(START, '"'), 'x'), '"');
    }
    DeleteCarriageReturn("\"x\"", "\"y\"");
  }
}

/**
 * Reading students out of a CSV file (frontend/lib/csv.ts, `parseStudentCsv`) and the skipped-rows
 * export that is meant to be read back in (frontend/components/students/bulk-import-dialog.tsx).
 */
module StudentImport {
  import opened Options
  import opened Csv

  const BOM: char := '\U{FEFF}'

  // ---------------------------------------------------------------- String.prototype.trim, toLowerCase

  predicate IsSpace(ch: char) {
    || '\U{0009}' <= ch <= '\U{000D}'
    || ch in {' ', '\U{00A0}', '\U{1680}', '\U{2028}', '\U{2029}', '\U{202F}', '\U{205F}', '\U{3000}', BOM}
    || '\U{2000}' <= ch <= '\U{200A}'
  }

  function TrimStart(s: string): string {
    if s != "" && IsSpace(s[0]) then TrimStart(s[1..]) else s
  }

  function TrimEnd(s: string): string {
    if s != "" && IsSpace(s[|s| - 1]) then TrimEnd(s[..|s| - 1]) else s
  }

  function Trim(s: string): string {
    TrimEnd(TrimStart(s))
  }

  function LowerChar(ch: char): char {
    if 'A' <= ch <= 'Z' then (ch as int - 'A' as int + 'a' as int) as char else ch
  }

  function Lower(s: string): string {
    seq(|s|, i requires 0 <= i < |s| => LowerChar(s[i]))
  }

  lemma {:induction false} TrimEndIsTight(s: string)
    ensures var t := TrimEnd(s); t != "" ==> !IsSpace(t[|t| - 1])
    ensures TrimEnd(s) <= s
    decreases |s|
  {
    if s != "" && IsSpace(s[|s| - 1]) {
      TrimEndIsTight(s[..|s| - 1]);
    }
  }

  lemma {:induction false} TrimStartIsTight(s: string)
    ensures var t := TrimStart(s); t != "" ==> !IsSpace(t[0])
    decreases |s|
  {
    if s != "" && IsSpace(s[0]) {
      TrimStartIsTight(s[1..]);
    }
  }

  lemma TrimTwice(s: string)
    ensures Trim(Trim(s)) == Trim(s)
  {
    var t := TrimStart(s);
    TrimStartIsTight(s);
    TrimEndIsTight(t);
    var u := TrimEnd(t);
    if u != "" {
      assert u[0] == t[0];
    }
  }

  predicate AllSpace(s: string) {
    forall i :: 0 <= i < |s| ==> IsSpace(s[i])
  }

  /** Trimming takes off blanks at both ends, all of them, and nothing else. */
  lemma TrimIs(s: string)
    ensures exists a, b :: AllSpace(a) && AllSpace(b) && s == a + Trim(s) + b
    ensures Trim(s) != "" ==> !IsSpace(Trim(s)[0]) && !IsSpace(Trim(s)[|Trim(s)| - 1])
  {
    hide TrimStart, TrimEnd, IsSpace;
    var a := FrontBlanks(s);
    var t := TrimStart(s);
    var b := EndBlanks(t);
    assert s == a + Trim(s) + b;
    TrimStartIsTight(s);
    TrimEndIsTight(t);
  }

  lemma {:induction false} FrontBlanks(s: string) returns (a: string)
    ensures AllSpace(a) && s == a + TrimStart(s)
    decreases |s|
  {
    hide IsSpace;
    if s != "" && IsSpace(s[0]) {
      var rest := FrontBlanks(s[1..]);
      a := [s[0]] + rest;
    } else {
      a := "";
    }
  }

  lemma {:induction false} EndBlanks(s: string) returns (b: string)
    ensures AllSpace(b) && s == TrimEnd(s) + b
    decreases |s|
  {
    hide IsSpace;
    if s != "" && IsSpace(s[|s| - 1]) {
      var rest := EndBlanks(s[..|s| - 1]);
      b := rest + [s[|s| - 1]];
      assert s == s[..|s| - 1] + [s[|s| - 1]];
    } else {
      b := "";
    }
  }

  // ---------------------------------------------------------------- parseStudentCsv

  datatype StudentRow = StudentRow(name: string, email: string, className: Option<string>, mobile: Option<string>)

  /** Which column holds what; `None` is the source's index -1. */
  datatype Layout = Layout(name: nat, email: nat, className: Option<nat>, mobile: Option<nat>)

  const NO_HEADER: Layout := Layout(0, 1, None, None)

  function IndexOf(cells: Record, x: string): Option<nat> {
    if cells == [] then None
    else if cells[0] == x then Some(0)
    else match IndexOf(cells[1..], x)
      case None => None
      case Some(i) => Some(i + 1)
  }

  function Normalized(cells: Record): Record {
    seq(|cells|, i requires 0 <= i < |cells| => Lower(Trim(cells[i])))
  }

  /** The layout a header announces, or `None` when the record is not a header. */
  function HeaderLayout(record: Record): Option<Layout> {
    var header := Normalized(record);
    match (IndexOf(header, "name"), IndexOf(header, "email"))
    case (Some(n), Some(e)) =>
      var mobile := IndexOf(header, "mobile");
      Some(Layout(n, e, IndexOf(header, "class"), if mobile.Some? then mobile else IndexOf(header, "phone")))
    case _ => None
  }

  function Cell(cells: Record, i: nat): string {
    if i < |cells| then Trim(cells[i]) else ""
  }

  /** An optional cell is kept only when it is not blank. */
  function OptionalCell(cells: Record, column: Option<nat>): Option<string> {
    match column
    case None => None
    case Some(i) => if Cell(cells, i) == "" then None else Some(Cell(cells, i))
  }

  function ReadRow(cells: Record, at: Layout): seq<StudentRow> {
    var name, email := Cell(cells, at.name), Cell(cells, at.email);
    if name == "" && email == "" then []
    else [StudentRow(name, email, OptionalCell(cells, at.className), OptionalCell(cells, at.mobile))]
  }

  function ReadRows(records: seq<Record>, at: Layout): seq<StudentRow> {
    if records == [] then [] else ReadRow(records[0], at) + ReadRows(records[1..], at)
  }

  function WithoutBom(text: string): string {
    if text != "" && text[0] == BOM then text[1..] else text
  }

  function Students(text: string): seq<StudentRow> {
    var records := Tokenize(WithoutBom(text));
    if records == [] then []
    else match HeaderLayout(records[0])
      case Some(at) => ReadRows(records[1..], at)
      case None => ReadRows(records, NO_HEADER)
  }

  lemma {:induction false} ReadRowsSnoc(records: seq<Record>, more: Record, at: Layout)
    ensures ReadRows(records + [more], at) == ReadRows(records, at) + ReadRow(more, at)
    decreases |records|
  {
    if records == [] {
      assert [more][1..] == [];
    } else {
      assert (records + [more])[1..] == records[1..] + [more];
      ReadRowsSnoc(records[1..], more, at);
    }
  }

  lemma ReadNone(at: Layout)
    ensures ReadRows([], at) == []
  {
  }

  method ParseStudentCsv(text: string) returns (rows: seq<StudentRow>)
    ensures rows == Students(text)
  {
    hide HeaderLayout, Tokenize, Cell, OptionalCell, ReadRows;
    var clean := if text != "" && text[0] == BOM then text[1..] else text;
    var records := TokenizeText(clean);
    if |records| == 0 {
      return [];
    }
    var at, start := NO_HEADER, 0;
    var header := HeaderLayout(records[0]);
    if header.Some? {
      at, start := header.value, 1;
    }
    rows := [];
    ReadNone(at);
    assert records[start..start] == [];
    var i := start;
    while i < |records|
      invariant start <= i <= |records|
      invariant rows == ReadRows(records[start..i], at)
    {
      var cells := records[i];
      assert records[start..i + 1] == records[start..i] + [cells];
      ReadRowsSnoc(records[start..i], cells, at);
      var name, email := Cell(cells, at.name), Cell(cells, at.email);
      if !(name == "" && email == "") {
        rows := rows + [StudentRow(name, email, OptionalCell(cells, at.className), OptionalCell(cells, at.mobile))];
      }
      i := i + 1;
    }
    assert records[start..|records|] == records[start..];
    assert start == 0 ==> records[start..] == records;
  }

  // ---------------------------------------------------------------- importing a printed table

  /** Records that do not survive printing hold no student anyway. */
  lemma {:induction false} ReadSurvivors(records: seq<Record>, at: Layout)
    ensures ReadRows(Survivors(records), at) == ReadRows(records, at)
    decreases |records|
  {
    assert forall i: nat :: Cell([""], i) == "";
    if |records| == 1 {
      assert records[1..] == [];
    } else if |records| > 1 {
      var s := Survivors(records);
      assert s[1..] == Survivors(records[1..]);
      ReadSurvivors(records[1..], at);
    }
  }

  /** What a cell says: its text without the blanks around it, and nothing where the record is too short. */
  ghost predicate Says(cells: Record, i: nat, text: string) {
    text == if i < |cells| then Trim(cells[i]) else ""
  }

  /** Name, email, class and mobile come each from their own column; a blank class or mobile is none, and a
      record without name and email is no student. */
  lemma RowMeans(cells: Record, at: Layout, name: string, email: string)
    requires Says(cells, at.name, name) && Says(cells, at.email, email)
    ensures name == "" && email == "" <==> ReadRow(cells, at) == []
    ensures ReadRow(cells, at) != [] ==>
              && |ReadRow(cells, at)| == 1
              && ReadRow(cells, at)[0].name == name && ReadRow(cells, at)[0].email == email
              && OptionMeans(cells, at.className, ReadRow(cells, at)[0].className)
              && OptionMeans(cells, at.mobile, ReadRow(cells, at)[0].mobile)
  {
    hide Trim;
  }

  ghost predicate OptionMeans(cells: Record, column: Option<nat>, said: Option<string>) {
    match said
    case Some(text) => text != "" && column.Some? && Says(cells, column.value, text)
    case None => column.Some? ==> Says(cells, column.value, "")
  }

  lemma TrimmedAndLowered()
    ensures Lower(Trim(" Email")) == "email" && Lower(Trim("NAME ")) == "name" && Lower(Trim("Phone")) == "phone"
  {
    assert " Email"[1..] == "Email" && "NAME "[..4] == "NAME";
  }

  lemma HeaderWordsDiffer()
    ensures "class" !in ["email", "name", "phone"] && "mobile" !in ["email", "name", "phone"]
  {
    assert "email"[0] == 'e' && "name"[0] == 'n' && "phone"[0] == 'p' && "class"[0] == 'c' && "mobile"[0] == 'm';
  }

  lemma NoColumn(cells: Record, x: string, column: Option<nat>)
    requires x !in cells && FirstColumn(cells, x, column)
    ensures column == None
  {
  }

  lemma OnlyColumn(cells: Record, x: string, i: nat, column: Option<nat>)
    requires |cells| == 3 && cells[0] != cells[1] && cells[0] != cells[2] && cells[1] != cells[2]
    requires i < 3 && cells[i] == x && FirstColumn(cells, x, column)
    ensures column == Some(i)
  {
  }

  /** Header words count in any case and with blanks around them. */
  lemma HeadersInAnyCase()
    ensures HeaderLayout([" Email", "NAME ", "Phone"]) == Some(Layout(1, 0, None, Some(2)))
  {
    hide HeaderLayout, Trim, Lower;
    var header, n := [" Email", "NAME ", "Phone"], ["email", "name", "phone"];
    TrimmedAndLowered();
    HeaderWordsDiffer();
    assert Normalized(header) == n;
    HeaderMeans(header);
    assert "email"[0] == 'e' && "name"[0] == 'n' && "phone"[0] == 'p';
    var at := HeaderLayout(header).value;
    OnlyColumn(n, "name", 1, Some(at.name));
    OnlyColumn(n, "email", 0, Some(at.email));
    OnlyColumn(n, "phone", 2, at.mobile);
    NoColumn(n, "class", at.className);
  }

  /** A leading byte-order mark of the first cell is also what `trim` would have removed. */
  lemma BomInFirstCell(header: Record, rows: seq<Record>)
    requires |header| > 1
    ensures exists h: Record ::
              && |h| == |header|
              && Normalized(h) == Normalized(header)
              && Trim(h[0]) == Trim(header[0]) && h[1..] == header[1..]
              && WithoutBom(ToCsv(header, rows)) == ToCsv(h, rows)
  {
    var text := ToCsv(header, rows);
    var table := [header] + rows;
    assert table[1..] == rows;
    assert text[..|Escape(header[0])|] == Escape(header[0]);
    assert header[0] == "" ==> text != "" && text[0] == COMMA;
    if text != "" && text[0] == BOM {
      var v := header[0];
      assert !NeedsQuotes(v);
      assert v[0] == BOM;
      var h := [v[1..]] + header[1..];
      assert h[1..] == header[1..];
      assert forall i :: 0 <= i < |v[1..]| ==> v[1..][i] == v[i + 1];
      assert Escape(h[0]) == v[1..];
      assert Line(h) == Line(header)[1..];
      assert ([h] + rows)[1..] == rows;
      assert ToCsv(h, rows) == text[1..];
      assert Trim(h[0]) == Trim(v);
      assert Normalized(h) == Normalized(header);
    } else {
      assert WithoutBom(text) == ToCsv(header, rows);
    }
  }

  lemma {:induction false} IndexOfBound(cells: Record, x: string)
    ensures IndexOf(cells, x).Some? ==> IndexOf(cells, x).value < |cells| && cells[IndexOf(cells, x).value] == x
    decreases |cells|
  {
    if cells != [] {
      IndexOfBound(cells[1..], x);
    }
  }

  /** The column is the first that holds x; there is none only if no column does. */
  ghost predicate FirstColumn(cells: Record, x: string, column: Option<nat>) {
    match column
    case None => x !in cells
    case Some(i) => i < |cells| && cells[i] == x && forall j :: 0 <= j < i ==> cells[j] != x
  }

  lemma {:induction false} IndexOfIsFirst(cells: Record, x: string)
    ensures FirstColumn(cells, x, IndexOf(cells, x))
    decreases |cells|
  {
    if cells != [] {
      IndexOfIsFirst(cells[1..], x);
      assert forall j :: 0 < j < |cells| ==> cells[j] == cells[1..][j - 1];
    }
  }

  /** A first record is a header exactly when it names both columns, up to case and blanks; each column is
      the first of its name, and `phone` counts only where there is no `mobile`. */
  lemma HeaderMeans(record: Record)
    ensures var cells := Normalized(record);
            && (HeaderLayout(record).Some? <==> "name" in cells && "email" in cells)
            && (HeaderLayout(record).Some? ==>
                  var at := HeaderLayout(record).value;
                  && FirstColumn(cells, "name", Some(at.name)) && FirstColumn(cells, "email", Some(at.email))
                  && FirstColumn(cells, "class", at.className)
                  && FirstColumn(cells, if "mobile" in cells then "mobile" else "phone", at.mobile))
  {
    hide Normalized, IndexOf;
    var cells := Normalized(record);
    IndexOfIsFirst(cells, "name");
    IndexOfIsFirst(cells, "email");
    IndexOfIsFirst(cells, "class");
    IndexOfIsFirst(cells, "mobile");
    IndexOfIsFirst(cells, "phone");
  }

  /** Printing any table under a header that names both columns and importing the file reads exactly
      the table, wherever the columns are, whatever the cells hold, and however ragged the rows. */
  lemma ImportPrinted(header: Record, rows: seq<Record>)
    requires HeaderLayout(header).Some?
    ensures Students(ToCsv(header, rows)) == ReadRows(rows, HeaderLayout(header).value)
  {
    hide Trim, Lower, Tokenize, ToCsv, ReadRow, WithoutBom, Survivors, IndexOf;
    IndexOfBound(Normalized(header), "name");
    IndexOfBound(Normalized(header), "email");
    assert |header| > 1;
    BomInFirstCell(header, rows);
    var h: Record :| |h| == |header| && Normalized(h) == Normalized(header)
                     && Trim(h[0]) == Trim(header[0]) && h[1..] == header[1..]
                     && WithoutBom(ToCsv(header, rows)) == ToCsv(h, rows);
    ReadBack(h, rows);
    FirstSurvives([h] + rows);
    RestSurvives(h, rows, HeaderLayout(header).value);
  }

  /** What survives of the rows under a header holds the same students. */
  lemma RestSurvives(h: Record, rows: seq<Record>, at: Layout)
    requires |h| > 1
    ensures |Survivors([h] + rows)| > 0
    ensures ReadRows(Survivors([h] + rows)[1..], at) == ReadRows(rows, at)
  {
    hide ReadRow;
    var table := [h] + rows;
    assert table[1..] == rows;
    ReadSurvivors(rows, at);
    if rows == [] {
      assert table == [h];
    } else {
      assert Survivors(table)[1..] == Survivors(rows);
    }
  }

  lemma SameRow(h: Record, first: Record)
    requires |h| == |first| > 1 && Trim(h[0]) == Trim(first[0]) && h[1..] == first[1..]
    ensures ReadRow(h, NO_HEADER) == ReadRow(first, NO_HEADER)
  {
    assert h[1] == h[1..][0] && first[1] == first[1..][0];
  }

  /** A printed table whose first record is no header is read from its first record on, name first and
      email second. */
  lemma ImportWithoutHeader(first: Record, rows: seq<Record>)
    requires |first| > 1 && HeaderLayout(first) == None
    ensures Students(ToCsv(first, rows))
         == ReadRow(first, Layout(0, 1, None, None)) + ReadRows(rows, Layout(0, 1, None, None))
  {
    hide Trim, Tokenize, ToCsv, ReadRow, WithoutBom, Survivors;
    BomInFirstCell(first, rows);
    var h: Record :| |h| == |first| && Normalized(h) == Normalized(first)
                     && Trim(h[0]) == Trim(first[0]) && h[1..] == first[1..]
                     && WithoutBom(ToCsv(first, rows)) == ToCsv(h, rows);
    ReadBack(h, rows);
    SameRow(h, first);
    var table := [h] + rows;
    FirstSurvives(table);
    ReadSurvivors(table, NO_HEADER);
    assert table[0] == h && table[1..] == rows;
  }

  lemma FirstSurvives(table: seq<Record>)
    requires |table| > 0 && |table[0]| > 1
    ensures |Survivors(table)| > 0 && Survivors(table)[0] == table[0]
  {
  }

  // ---------------------------------------------------------------- the skipped-rows export

  datatype Skipped = Skipped(name: string, email: string)

  function SkippedCells(skipped: seq<Skipped>): seq<Record> {
    seq(|skipped|, i requires 0 <= i < |skipped| => [skipped[i].name, skipped[i].email])
  }

  function SkippedCsv(skipped: seq<Skipped>): string {
    ToCsv(["name", "email"], SkippedCells(skipped))
  }

  /** The skipped rows trimmed, without those whose name and email are both blank. */
  function Expected(skipped: seq<Skipped>): seq<StudentRow> {
    if skipped == [] then []
    else
      var name, email := Trim(skipped[0].name), Trim(skipped[0].email);
      (if name == "" && email == "" then [] else [StudentRow(name, email, None, None)]) + Expected(skipped[1..])
  }

  lemma {:induction false} ReadSkipped(skipped: seq<Skipped>)
    ensures ReadRows(SkippedCells(skipped), NO_HEADER) == Expected(skipped)
    decreases |skipped|
  {
    if skipped != [] {
      assert SkippedCells(skipped)[1..] == SkippedCells(skipped[1..]);
      ReadSkipped(skipped[1..]);
    }
  }

  lemma SkippedHeader()
    ensures HeaderLayout(["name", "email"]) == Some(NO_HEADER)
  {
    var header := ["name", "email"];
    var n := Normalized(header);
    assert Lower("name") == "name" && Lower("email") == "email";
    assert n == header;
    assert n[1..] == ["email"] && n[1..][1..] == [];
    assert "name" != "email" && "name" != "class" && "name" != "mobile" && "name" != "phone";
    assert "email"[0] == 'e' && "class"[0] == 'c' && "mobile"[0] == 'm' && "phone"[0] == 'p';
    assert IndexOf(n[1..], "email") == Some(0);
    assert IndexOf(n, "email") == Some(1);
    assert IndexOf(n, "class") == None && IndexOf(n, "mobile") == None && IndexOf(n, "phone") == None;
  }

  /** The skipped-rows file always imports again, with every name and email intact up to trimming. */
  lemma SkippedRowsReimport(skipped: seq<Skipped>)
    ensures Students(SkippedCsv(skipped)) == Expected(skipped)
  {
    SkippedHeader();
    ImportPrinted(["name", "email"], SkippedCells(skipped));
    ReadSkipped(skipped);
  }

  function AsSkipped(rows: seq<StudentRow>): seq<Skipped> {
    seq(|rows|, i requires 0 <= i < |rows| => Skipped(rows[i].name, rows[i].email))
  }

  lemma {:induction false} ExpectedTwice(skipped: seq<Skipped>)
    ensures Expected(AsSkipped(Expected(skipped))) == Expected(skipped)
    decreases |skipped|
  {
    if skipped != [] {
      var rest := Expected(skipped[1..]);
      ExpectedTwice(skipped[1..]);
      TrimTwice(skipped[0].name);
      TrimTwice(skipped[0].email);
      if |Expected(skipped)| == |rest| {
        assert Expected(skipped) == rest;
      } else {
        assert AsSkipped(Expected(skipped))[1..] == AsSkipped(rest);
      }
    }
  }

  /** If every row is skipped again, the second export imports the same rows as the first. */
  lemma ReimportIsStable(skipped: seq<Skipped>)
    ensures var once := Students(SkippedCsv(skipped));
            Students(SkippedCsv(AsSkipped(once))) == once
  {
    SkippedRowsReimport(skipped);
    SkippedRowsReimport(AsSkipped(Expected(skipped)));
    ExpectedTwice(skipped);
  }
}

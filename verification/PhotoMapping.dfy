/**
 * The mapping table of frontend/components/students/bulk-photo-dialog.tsx: which photo goes to which
 * student, before anything is uploaded.
 */
module PhotoMapping {
  import opened Options

  type Student = string

  datatype File = File(name: string, isImage: bool)

  /** What the server knows about a filename: the student, and whether a photo is already enrolled. */
  datatype Match = Match(student: Student, enrolled: bool)

  /** A row of the table. Its id is its place in the picked list. */
  datatype Row = Row(id: nat, filename: string, student: Option<Student>, enrolled: bool, keepExisting: bool)

  // ---------------------------------------------------------------- building the rows

  function Images(files: seq<File>): seq<File> {
    if files == [] then []
    else (if files[0].isImage then [files[0]] else []) + Images(files[1..])
  }

  /** The names in order of first occurrence. */
  function FirstNames(files: seq<File>): seq<string> {
    if files == [] then []
    else
      var before := FirstNames(files[..|files| - 1]);
      var name := files[|files| - 1].name;
      if name in before then before else before + [name]
  }

  /** The student of a row: the match, unless an earlier row already has that student. */
  function RowFor(i: nat, name: string, matches: map<string, Match>, taken: set<Student>): Row {
    if name in matches && matches[name].student !in taken then
      Row(i, name, Some(matches[name].student), matches[name].enrolled, false)
    else Row(i, name, None, false, false)
  }

  function Students(rows: seq<Row>): set<Student> {
    set r | r in rows && r.student.Some? :: r.student.value
  }

  ghost predicate DistinctStrings(names: seq<string>) {
    forall i, j :: 0 <= i < j < |names| ==> names[i] != names[j]
  }

  ghost predicate Apart(r: Row, q: Row) {
    r.id != q.id && r.filename != q.filename && (r.student.Some? ==> r.student != q.student)
  }

  /** Every row has its own id and name, and no student stands in two rows. */
  ghost predicate Sound(rows: seq<Row>) {
    forall i, j :: 0 <= i < j < |rows| ==> Apart(rows[i], rows[j])
  }

  /** A row's student is the matched one, and a matched student goes to the first photo that names it. */
  ghost predicate Faithful(rows: seq<Row>, names: seq<string>, matches: map<string, Match>) {
    && |rows| == |names|
    && (forall i :: 0 <= i < |rows| ==> rows[i].id == i && rows[i].filename == names[i] && !rows[i].keepExisting)
    && (forall i :: 0 <= i < |rows| && rows[i].student.Some? ==>
          names[i] in matches && matches[names[i]] == Match(rows[i].student.value, rows[i].enrolled))
    && (forall i :: 0 <= i < |rows| && rows[i].student == None && names[i] in matches ==>
          exists j :: 0 <= j < i && rows[j].student == Some(matches[names[i]].student))
  }

  lemma {:induction false} FirstNamesAre(files: seq<File>)
    ensures DistinctStrings(FirstNames(files))
    ensures forall name :: name in FirstNames(files) <==> exists f :: f in files && f.name == name
    decreases |files|
  {
    if files != [] {
      var before, last := files[..|files| - 1], files[|files| - 1];
      FirstNamesAre(before);
      assert files == before + [last];
      forall name
        ensures name in FirstNames(files) <==> exists f :: f in files && f.name == name
      {
        if name == last.name {
          assert last in files;
        }
      }
    }
  }

  lemma {:induction false} ImagesConcat(before: seq<File>, after: seq<File>)
    ensures Images(before + after) == Images(before) + Images(after)
    decreases |before|
  {
    if before == [] {
      assert before + after == after;
    } else {
      assert (before + after)[1..] == before[1..] + after;
      ImagesConcat(before[1..], after);
    }
  }

  lemma OneFile(f: File)
    ensures Images([f]) == if f.isImage then [f] else []
  {
    assert [f][1..] == [];
  }

  /** Only images are looked at, each as often as it is picked and in the picked order. */
  lemma ImagesAre(before: seq<File>, f: File, after: seq<File>)
    ensures Images([]) == []
    ensures Images(before + [f] + after) == Images(before) + (if f.isImage then [f] else []) + Images(after)
  {
    hide Images;
    OneFile(f);
    ImagesConcat(before + [f], after);
    ImagesConcat(before, [f]);
    NoFile();
  }

  lemma NoFile()
    ensures Images([]) == []
  {
  }

  /** Names keep the order in which they first occur: more files only add names at the end. */
  lemma {:induction false} FirstNamesGrow(files: seq<File>, n: nat)
    requires n <= |files|
    ensures FirstNames(files[..n]) <= FirstNames(files)
    decreases |files|
  {
    if n < |files| {
      FirstNamesGrow(files[..|files| - 1], n);
      assert files[..|files| - 1][..n] == files[..n];
    } else {
      assert files[..n] == files;
    }
  }

  datatype Picked = NoImages | TooMany | Mapped(rows: seq<Row>)

  /** The drop handler: images only, one row per name, at most `cap` rows, each student once. A failed
      match request changes nothing and is left to the caller. */
  method OnFiles(files: seq<File>, cap: nat, matches: map<string, Match>) returns (out: Picked)
    ensures out.NoImages? <==> Images(files) == []
    ensures out.TooMany? <==> Images(files) != [] && |FirstNames(Images(files))| > cap
    ensures out.Mapped? ==> Sound(out.rows) && Faithful(out.rows, FirstNames(Images(files)), matches)
  {
    var images := Images(files);
    if |images| == 0 {
      return NoImages;
    }
    var seen: set<string> := {};
    var unique: seq<string> := [];
    for i := 0 to |images|
      invariant unique == FirstNames(images[..i])
      invariant forall name :: name in seen <==> name in unique
    {
      assert images[..i + 1][..i] == images[..i];
      if images[i].name !in seen {
        seen := seen + {images[i].name};
        unique := unique + [images[i].name];
      }
    }
    assert images[..|images|] == images;
    if |unique| > cap {
      return TooMany;
    }
    FirstNamesAre(images);
    var rows := BuildRows(unique, matches);
    out := Mapped(rows);
  }

  /** `taken` are the students the rows have. */
  ghost predicate Taken(rows: seq<Row>, taken: set<Student>) {
    forall s :: s in taken <==> exists j :: 0 <= j < |rows| && rows[j].student == Some(s)
  }

  lemma NextRow(rows: seq<Row>, names: seq<string>, matches: map<string, Match>, taken: set<Student>, name: string)
    requires Sound(rows) && Faithful(rows, names, matches) && Taken(rows, taken)
    requires DistinctStrings(names + [name])
    ensures var row := RowFor(|rows|, name, matches, taken);
            && Sound(rows + [row]) && Faithful(rows + [row], names + [name], matches)
            && Taken(rows + [row], if row.student.Some? then taken + {row.student.value} else taken)
  {
    var row := RowFor(|rows|, name, matches, taken);
    var n, out := |rows|, rows + [row];
    assert forall i :: 0 <= i < n ==> out[i] == rows[i] && (names + [name])[i] == names[i];
    assert (names + [name])[n] == name && out[n] == row;
    NextRowSound(rows, row, taken);
    var now := if row.student.Some? then taken + {row.student.value} else taken;
    forall s
      ensures s in now <==> exists j :: 0 <= j <= n && out[j].student == Some(s)
    {
      if s in taken {
        var j :| 0 <= j < n && rows[j].student == Some(s);
        assert out[j].student == Some(s);
      }
    }
  }

  lemma NextRowSound(rows: seq<Row>, row: Row, taken: set<Student>)
    requires Sound(rows) && Taken(rows, taken)
    requires row.student.Some? ==> row.student.value !in taken
    requires forall i :: 0 <= i < |rows| ==> rows[i].id != row.id && rows[i].filename != row.filename
    ensures Sound(rows + [row])
  {
  }

  method BuildRows(unique: seq<string>, matches: map<string, Match>) returns (built: seq<Row>)
    requires DistinctStrings(unique)
    ensures Sound(built) && Faithful(built, unique, matches)
  {
    var taken: set<Student> := {};
    built := [];
    for i := 0 to |unique|
      invariant |built| == i && Sound(built) && Faithful(built, unique[..i], matches) && Taken(built, taken)
    {
      hide *;
      assert unique[..i + 1] == unique[..i] + [unique[i]];
      FrontDistinct(unique, i + 1);
      NextRow(built, unique[..i], matches, taken, unique[i]);
      var row := RowFor(i, unique[i], matches, taken);
      if row.student.Some? {
        taken := taken + {row.student.value};
      }
      built := built + [row];
    }
    assert unique[..|unique|] == unique;
  }

  lemma FrontDistinct(names: seq<string>, n: nat)
    requires DistinctStrings(names) && n <= |names|
    ensures DistinctStrings(names[..n])
  {
  }

  // ---------------------------------------------------------------- editing the rows

  function Updated(rows: seq<Row>, id: nat, f: Row -> Row): (out: seq<Row>)
    ensures |out| == |rows|
    ensures forall i :: 0 <= i < |rows| ==> out[i] == if rows[i].id == id then f(rows[i]) else rows[i]
  {
    seq(|rows|, i requires 0 <= i < |rows| => if rows[i].id == id then f(rows[i]) else rows[i])
  }

  function Assign(rows: seq<Row>, id: nat, s: Student, enrolled: bool): seq<Row> {
    Updated(rows, id, (r: Row) => Row(r.id, r.filename, Some(s), enrolled, false))
  }

  function Skip(rows: seq<Row>, id: nat): seq<Row> {
    Updated(rows, id, (r: Row) => Row(r.id, r.filename, None, false, false))
  }

  function ToggleKeep(rows: seq<Row>, id: nat): seq<Row> {
    Updated(rows, id, (r: Row) => r.(keepExisting := !r.keepExisting))
  }

  /** Students the picker of a row greys out: those of other rows. */
  function DisabledForRow(rows: seq<Row>, row: Row): set<Student> {
    match row.student
    case None => Students(rows)
    case Some(s) => Students(rows) - {s}
  }

  /** The picker lets a student through to a row exactly when assigning it keeps students apart. */
  lemma PickerGuards(rows: seq<Row>, k: nat, s: Student, enrolled: bool)
    requires Sound(rows) && k < |rows|
    ensures s !in DisabledForRow(rows, rows[k]) <==> Sound(Assign(rows, rows[k].id, s, enrolled))
  {
    var out := Assign(rows, rows[k].id, s, enrolled);
    assert out[k].student == Some(s);
    assert forall i :: 0 <= i < |rows| && i != k ==> out[i] == rows[i];
    if s in DisabledForRow(rows, rows[k]) {
      var r :| r in rows && r.student == Some(s);
      var j :| 0 <= j < |rows| && rows[j] == r;
      assert j != k && out[j].student == out[k].student;
    } else {
      forall j | 0 <= j < |rows| && j != k
        ensures rows[j].student != Some(s)
      {
        assert rows[j] in rows;
        assert rows[j].student.Some? ==> rows[j].student.value in Students(rows);
      }
    }
  }

  lemma EditsKeepSound(rows: seq<Row>, id: nat)
    requires Sound(rows)
    ensures Sound(Skip(rows, id)) && Sound(ToggleKeep(rows, id))
  {
  }

  // ---------------------------------------------------------------- what will be uploaded

  predicate IsKept(r: Row) {
    r.enrolled && r.keepExisting
  }

  function UploadRows(rows: seq<Row>): seq<Row> {
    if rows == [] then []
    else (if rows[0].student.Some? && !IsKept(rows[0]) then [rows[0]] else []) + UploadRows(rows[1..])
  }

  function KeptCount(rows: seq<Row>): nat {
    if rows == [] then 0
    else (if rows[0].student.Some? && IsKept(rows[0]) then 1 else 0) + KeptCount(rows[1..])
  }

  function MatchedCount(rows: seq<Row>): nat {
    if rows == [] then 0 else (if rows[0].student.Some? then 1 else 0) + MatchedCount(rows[1..])
  }

  function Replacing(rows: seq<Row>): nat {
    if rows == [] then 0
    else (if rows[0].student.Some? && !IsKept(rows[0]) && rows[0].enrolled then 1 else 0) + Replacing(rows[1..])
  }

  lemma {:induction false} UploadMembers(rows: seq<Row>)
    ensures forall r :: r in UploadRows(rows) <==> r in rows && r.student.Some? && !IsKept(r)
    decreases |rows|
  {
    if rows != [] {
      UploadMembers(rows[1..]);
    }
  }

  lemma RestSound(rows: seq<Row>)
    requires Sound(rows) && |rows| > 0
    ensures Sound(rows[1..]) && forall r :: r in rows[1..] ==> Apart(rows[0], r)
  {
    hide Apart;
    assert forall i :: 0 <= i < |rows[1..]| ==> rows[1..][i] == rows[i + 1];
  }

  lemma SoundCons(row: Row, more: seq<Row>)
    requires Sound(more) && forall r :: r in more ==> Apart(row, r)
    ensures Sound([row] + more)
  {
    hide Apart;
    var out := [row] + more;
    forall i, j | 0 <= i < j < |out|
      ensures Apart(out[i], out[j])
    {
      assert out[j] == more[j - 1] && more[j - 1] in more;
    }
  }

  /** The upload takes exactly the matched rows that are not kept, in order and each once. */
  lemma {:induction false} UploadsAreMatchedNotKept(rows: seq<Row>)
    requires Sound(rows)
    ensures Sound(UploadRows(rows))
    ensures forall r :: r in UploadRows(rows) <==> r in rows && r.student.Some? && !(r.enrolled && r.keepExisting)
    ensures MatchedCount(rows) == |UploadRows(rows)| + KeptCount(rows)
    decreases |rows|
  {
    hide Sound;
    UploadMembers(rows);
    if rows == [] {
      assert UploadRows(rows) == rows;
    } else {
      var rest := rows[1..];
      RestSound(rows);
      UploadsAreMatchedNotKept(rest);
      SoundCons(rows[0], UploadRows(rest));
      assert [] + UploadRows(rest) == UploadRows(rest);
    }
  }

  // ---------------------------------------------------------------- what edits do to the upload

  lemma {:induction false} UploadConcat(before: seq<Row>, after: seq<Row>)
    ensures UploadRows(before + after) == UploadRows(before) + UploadRows(after)
    decreases |before|
  {
    if before == [] {
      assert before + after == after;
    } else {
      assert (before + after)[1..] == before[1..] + after;
      UploadConcat(before[1..], after);
    }
  }

  lemma UploadOne(r: Row)
    ensures UploadRows([r]) == if r.student.Some? && !(r.enrolled && r.keepExisting) then [r] else []
  {
    assert [r][1..] == [];
  }

  /** The upload around one row: that row stands in its place exactly if it is matched and not kept. */
  lemma UploadAround(rows: seq<Row>, k: nat)
    requires k < |rows|
    ensures var r := rows[k];
            UploadRows(rows) == UploadRows(rows[..k])
                                + (if r.student.Some? && !(r.enrolled && r.keepExisting) then [r] else [])
                                + UploadRows(rows[k + 1..])
  {
    hide UploadRows;
    UploadThree(rows[..k], rows[k], rows[k + 1..]);
    CutAt(rows, k);
  }

  lemma UploadThree(front: seq<Row>, r: Row, back: seq<Row>)
    ensures UploadRows(front + [r] + back)
         == UploadRows(front)
            + (if r.student.Some? && !(r.enrolled && r.keepExisting) then [r] else [])
            + UploadRows(back)
  {
    hide UploadRows;
    UploadOne(r);
    UploadConcat(front + [r], back);
    UploadConcat(front, [r]);
  }

  lemma CutAt(rows: seq<Row>, k: nat)
    requires k < |rows|
    ensures rows[..k] + [rows[k]] + rows[k + 1..] == rows
  {
  }

  /** An edit of one row of a sound table changes that row only. */
  lemma OnlyThatRow(rows: seq<Row>, k: nat, f: Row -> Row)
    requires Sound(rows) && k < |rows|
    ensures Updated(rows, rows[k].id, f) == rows[k := f(rows[k])]
  {
    var out := Updated(rows, rows[k].id, f);
    forall i | 0 <= i < |rows| && i != k
      ensures rows[i].id != rows[k].id
    {
      assert if i < k then Apart(rows[i], rows[k]) else Apart(rows[k], rows[i]);
    }
  }

  /** What each edit leaves in its row; all other rows stay as they are. */
  lemma EditsLeave(rows: seq<Row>, k: nat, s: Student, enrolled: bool)
    requires Sound(rows) && k < |rows|
    ensures var r := rows[k];
            && Assign(rows, r.id, s, enrolled) == rows[k := Row(r.id, r.filename, Some(s), enrolled, false)]
            && Skip(rows, r.id) == rows[k := Row(r.id, r.filename, None, false, false)]
            && ToggleKeep(rows, r.id) == rows[k := Row(r.id, r.filename, r.student, r.enrolled, !r.keepExisting)]
  {
    hide Updated;
    OnlyThatRow(rows, k, (r: Row) => Row(r.id, r.filename, Some(s), enrolled, false));
    OnlyThatRow(rows, k, (r: Row) => Row(r.id, r.filename, None, false, false));
    OnlyThatRow(rows, k, (r: Row) => r.(keepExisting := !r.keepExisting));
  }

  /** The edited row in the upload: an assigned row always, a skipped row never, and a toggled row of an
      enrolled student exactly if it was not there before; the upload of the other rows stays the same. */
  lemma EditsUpload(rows: seq<Row>, k: nat, s: Student, enrolled: bool)
    requires Sound(rows) && k < |rows|
    ensures var r, front, back := rows[k], UploadRows(rows[..k]), UploadRows(rows[k + 1..]);
            && UploadRows(Assign(rows, r.id, s, enrolled))
               == front + [Row(r.id, r.filename, Some(s), enrolled, false)] + back
            && UploadRows(Skip(rows, r.id)) == front + back
            && (r.student.Some? && r.enrolled && !r.keepExisting ==>
                  UploadRows(rows) == front + [r] + back && UploadRows(ToggleKeep(rows, r.id)) == front + back)
            && (r.student.Some? && r.enrolled && r.keepExisting ==>
                  && UploadRows(rows) == front + back
                  && UploadRows(ToggleKeep(rows, r.id)) == front + [r.(keepExisting := false)] + back)
  {
    hide UploadRows, Assign, Skip, ToggleKeep, Sound;
    EditsLeave(rows, k, s, enrolled);
    var r := rows[k];
    UploadAround(rows, k);
    UploadReplaced(rows, k, Row(r.id, r.filename, Some(s), enrolled, false));
    UploadReplaced(rows, k, Row(r.id, r.filename, None, false, false));
    UploadReplaced(rows, k, Row(r.id, r.filename, r.student, r.enrolled, !r.keepExisting));
    assert UploadRows(rows[..k]) + [] == UploadRows(rows[..k]);
  }

  lemma UploadReplaced(rows: seq<Row>, k: nat, r: Row)
    requires k < |rows|
    ensures UploadRows(rows[k := r]) == UploadRows(rows[..k])
                                        + (if r.student.Some? && !(r.enrolled && r.keepExisting) then [r] else [])
                                        + UploadRows(rows[k + 1..])
  {
    var out := rows[k := r];
    UploadAround(out, k);
    assert out[..k] == rows[..k] && out[k + 1..] == rows[k + 1..];
  }

  /** Toggling twice changes nothing. */
  lemma ToggleTwice(rows: seq<Row>, id: nat)
    ensures ToggleKeep(ToggleKeep(rows, id), id) == rows
  {
  }

  /** In a table as it is built, every matched photo will be uploaded: replacing is the default. */
  lemma FreshRowsAreUploaded(rows: seq<Row>, names: seq<string>, matches: map<string, Match>)
    requires Faithful(rows, names, matches)
    ensures forall r :: r in UploadRows(rows) <==> r in rows && r.student.Some?
    ensures KeptCount(rows) == 0
  {
    UploadMembers(rows);
    NothingKept(rows);
  }

  lemma {:induction false} NothingKept(rows: seq<Row>)
    requires forall i :: 0 <= i < |rows| ==> !rows[i].keepExisting
    ensures KeptCount(rows) == 0
    decreases |rows|
  {
    if rows != [] {
      assert forall i :: 0 <= i < |rows[1..]| ==> rows[1..][i] == rows[i + 1];
      NothingKept(rows[1..]);
    }
  }
}

/**
 * The bulk-photo dialog and its hook together: every order of edits, clicks, closings, network
 * outcomes and worker turns. The dialog's own guards are the only thing that keeps rounds apart.
 */
module PhotoSession {
  import opened Options
  import opened WorkerPool
  import opened PhotoMapping
  import opened BulkEnroll

  datatype Phase = Picking | Mapping | Running

  /** `confirming`: the overwrite question is open; being modal, it keeps the table from being edited. */
  datatype Session = Session(phase: Phase, rows: seq<Row>, confirming: bool, hook: Hook)

  const OPENED: Session := Session(Picking, [], false, FRESH)

  datatype Event =
    | FilesMatched(found: seq<Row>)
    | StudentPicked(row: nat, student: Student, enrolled: bool)
    | RowSkipped(row: nat)
    | KeepToggled(row: nat)
    | StartClicked
    | OverwriteConfirmed
    | OverwriteCancelled
    | TableReset
    | DialogClosed
    | RetryClicked
    | Unmounted
    | WorkerTurn(worker: nat, turn: Turn)

  /** When the user interface or the event loop lets an event happen. */
  ghost predicate Enabled(s: Session, e: Event) {
    var editing := s.hook.mounted && s.phase == Mapping && !s.confirming;
    match e
    case FilesMatched(found) => s.hook.mounted && s.phase == Picking && Sound(found)
    case StudentPicked(k, student, _) => editing && k < |s.rows| && student !in DisabledForRow(s.rows, s.rows[k])
    case RowSkipped(k) => editing && k < |s.rows| && s.rows[k].student.Some?
    case KeepToggled(k) => editing && k < |s.rows| && s.rows[k].student.Some? && s.rows[k].enrolled
    case StartClicked => editing && UploadRows(s.rows) != []
    case OverwriteConfirmed => s.hook.mounted && s.confirming
    case OverwriteCancelled => s.hook.mounted && s.confirming
    case TableReset => editing
    case DialogClosed => s.hook.mounted
    case RetryClicked =>
      s.hook.mounted && s.phase == Running && !IsRunning(s.hook.items) && Count(s.hook.items, HasFailed) > 0
    case Unmounted => s.hook.mounted
    case WorkerTurn(w, t) => Indexed(s.hook) && CanTurn(s.hook, w, t)
  }

  function InputsOf(rows: seq<Row>): (inputs: seq<Input>)
    requires forall r :: r in rows ==> r.student.Some?
    ensures |inputs| == |rows|
    ensures forall i :: 0 <= i < |rows| ==> inputs[i] == Input(rows[i].id, rows[i].student.value)
  {
    seq(|rows|, i requires 0 <= i < |rows| => assert rows[i] in rows; Input(rows[i].id, rows[i].student.value))
  }

  /** `runEnroll`. */
  function RunEnroll(s: Session): Session {
    UploadMembers(s.rows);
    Session(Running, s.rows, false, RunBatch(s.hook, InputsOf(UploadRows(s.rows))))
  }

  ghost function Next(s: Session, e: Event): Session
    requires Enabled(s, e)
  {
    match e
    case FilesMatched(found) => s.(phase := Mapping, rows := found)
    case StudentPicked(k, student, enrolled) => s.(rows := Assign(s.rows, s.rows[k].id, student, enrolled))
    case RowSkipped(k) => s.(rows := Skip(s.rows, s.rows[k].id))
    case KeepToggled(k) => s.(rows := ToggleKeep(s.rows, s.rows[k].id))
    case StartClicked => if Replacing(s.rows) >= 1 then s.(confirming := true) else RunEnroll(s)
    case OverwriteConfirmed => RunEnroll(s)
    case OverwriteCancelled => s.(confirming := false)
    case TableReset => s.(phase := Picking, rows := [])
    case DialogClosed => if IsRunning(s.hook.items) then s else s.(phase := Picking, rows := [])
    case RetryClicked => s.(hook := Retry(s.hook))
    case Unmounted => s.(hook := s.hook.(mounted := false))
    case WorkerTurn(w, t) => s.(hook := TakeTurn(s.hook, w, t))
  }

  // ---------------------------------------------------------------- the invariant of every run

  ghost predicate SessionInv(s: Session) {
    && HookInv(s.hook)
    && Sound(s.rows)
    && (s.hook.mounted && s.phase != Running ==> Quiet(s.hook))
    && (s.hook.mounted && s.confirming ==> s.phase != Running)
  }

  lemma OpenedInv()
    ensures SessionInv(OPENED)
  {
    StartIsValid(0, CONCURRENCY);
  }

  lemma UploadInputsSeparate(rows: seq<Row>)
    requires Sound(rows)
    ensures forall r :: r in UploadRows(rows) ==> r.student.Some?
    ensures Separate(InputsOf(UploadRows(rows)))
  {
    UploadsAreMatchedNotKept(rows);
    var up := UploadRows(rows);
    forall i, j | 0 <= i < j < |up|
      ensures up[i].id != up[j].id && up[i].student != up[j].student
    {
      assert up[i] in up && Apart(up[i], up[j]);
    }
  }

  lemma RunEnrollKeeps(s: Session)
    requires SessionInv(s) && s.hook.mounted && s.phase != Running
    ensures SessionInv(RunEnroll(s))
  {
    hide HookInv, Quiet, Sound, RunBatch, UploadRows, Separate;
    UploadInputsSeparate(s.rows);
    UploadMembers(s.rows);
    RunKeeps(s.hook, InputsOf(UploadRows(s.rows)));
  }

  /** Once a round is over, the remaining turns of its workers only let them leave. */
  lemma QuietStays(h: Hook, w: nat, t: Turn)
    requires PoolOk(h) && Quiet(h) && Indexed(h) && CanTurn(h, w, t)
    ensures Quiet(TakeTurn(h, w, t))
  {
    hide Held, Valid, Patched;
    if t.Pulls? {
      PullKeeps(h.pool, w);
    } else {
      FinishKeeps(h.pool, w);
    }
  }

  lemma TurnInSession(s: Session, w: nat, t: Turn)
    requires SessionInv(s) && Enabled(s, WorkerTurn(w, t))
    ensures SessionInv(Next(s, WorkerTurn(w, t)))
  {
    hide Quiet, Sound, TakeTurn;
    TurnKeeps(s.hook, w, t);
    TurnKeepsPool(s.hook, w, t);
    if s.hook.mounted && s.phase != Running {
      QuietStays(s.hook, w, t);
    }
  }

  lemma EditInSession(s: Session, e: Event)
    requires SessionInv(s) && Enabled(s, e)
    requires e.StudentPicked? || e.RowSkipped? || e.KeepToggled?
    ensures SessionInv(Next(s, e))
  {
    hide HookInv, Quiet, Sound, DisabledForRow, Assign, Skip, ToggleKeep;
    match e
    case StudentPicked(k, student, enrolled) => PickerGuards(s.rows, k, student, enrolled);
    case RowSkipped(k) => EditsKeepSound(s.rows, s.rows[k].id);
    case KeepToggled(k) => EditsKeepSound(s.rows, s.rows[k].id);
  }

  /** Every event keeps the invariant. */
  lemma EventKeeps(s: Session, e: Event)
    requires SessionInv(s) && Enabled(s, e)
    ensures SessionInv(Next(s, e))
  {
    match e
    case WorkerTurn(w, t) => TurnInSession(s, w, t);
    case StudentPicked(_, _, _) => EditInSession(s, e);
    case RowSkipped(_) => EditInSession(s, e);
    case KeepToggled(_) => EditInSession(s, e);
    case StartClicked =>
      if Replacing(s.rows) == 0 {
        RunEnrollKeeps(s);
      }
    case OverwriteConfirmed => RunEnrollKeeps(s);
    case RetryClicked =>
      RunningIsExact(s.hook);
      RetryKeeps(s.hook);
      RetryStaysMounted(s.hook);
    case DialogClosed => RunningIsExact(s.hook);
    case FilesMatched(_) =>
    case OverwriteCancelled =>
    case TableReset =>
    case Unmounted =>
  }

  lemma RetryStaysMounted(h: Hook)
    ensures Retry(h).mounted == h.mounted
  {
  }

  ghost predicate CanHappen(s: Session, events: seq<Event>)
    decreases |events|
  {
    events == [] || (Enabled(s, events[0]) && CanHappen(Next(s, events[0]), events[1..]))
  }

  ghost function After(s: Session, events: seq<Event>): Session
    requires CanHappen(s, events)
    decreases |events|
  {
    if events == [] then s else After(Next(s, events[0]), events[1..])
  }

  lemma {:induction false} RunsKeep(s: Session, events: seq<Event>)
    requires SessionInv(s) && CanHappen(s, events)
    ensures SessionInv(After(s, events))
    decreases |events|
  {
    hide SessionInv, Enabled, Next;
    if events != [] {
      EventKeeps(s, events[0]);
      RunsKeep(Next(s, events[0]), events[1..]);
    }
  }

  // ---------------------------------------------------------------- what holds in every run

  /** A session that some run of the dialog can reach. */
  ghost predicate Reachable(s: Session) {
    exists events :: CanHappen(OPENED, events) && After(OPENED, events) == s
  }

  lemma ReachableInv(s: Session)
    requires Reachable(s)
    ensures SessionInv(s)
  {
    var events :| CanHappen(OPENED, events) && After(OPENED, events) == s;
    OpenedInv();
    RunsKeep(OPENED, events);
  }

  /** At most three photos are in flight, always of different students; and no student ever stands
      in two rows of the table. */
  lemma InFlightAreDifferentStudents(s: Session)
    requires Reachable(s)
    ensures |Held(s.hook.pool)| <= 3
    ensures forall i :: i in Held(s.hook.pool) ==> i < |s.hook.entries|
    ensures forall i, j :: i in Held(s.hook.pool) && j in Held(s.hook.pool) && i != j ==>
              s.hook.entries[i].student != s.hook.entries[j].student
    ensures Sound(s.rows)
  {
    ReachableInv(s);
    InFlight(s.hook.pool);
    forall i | i in Held(s.hook.pool)
      ensures i < |s.hook.entries|
    {
      HeldIsTaken(s.hook.pool, i);
    }
  }

  /** Whenever a click can start a round, the round before has nothing left to do. */
  lemma RoundsNeverOverlap(s: Session, e: Event)
    requires Reachable(s) && Enabled(s, e)
    requires e.StartClicked? || e.OverwriteConfirmed? || e.RetryClicked?
    ensures s.hook.pool.next == s.hook.pool.size && Held(s.hook.pool) == {} && s.hook.paths == map[]
  {
    ReachableInv(s);
    if e.RetryClicked? {
      RunningIsExact(s.hook);
    }
    QuietHasNoPaths(s.hook);
  }

  // ---------------------------------------------------------------- every round is whole

  /** The event starts a round: a batch, or a retry. */
  predicate Begins(s: Session, e: Event) {
    match e
    case StartClicked => Replacing(s.rows) == 0
    case OverwriteConfirmed => UploadRows(s.rows) != []
    case RetryClicked => true
    case _ => false
  }

  lemma {:induction false} CountedOne(items: seq<Item>, f: Status -> bool)
    requires Count(items, f) > 0
    ensures exists k :: 0 <= k < |items| && f(items[k].status)
  {
    if !f(items[0].status) {
      CountedOne(items[1..], f);
      var k :| 0 <= k < |items[1..]| && f(items[1..][k].status);
      assert f(items[k + 1].status);
    }
  }

  lemma RetryHasEntries(h: Hook)
    requires HookInv(h) && Count(h.items, HasFailed) > 0
    ensures FailedInputs(h.items, h.inputs) != []
  {
    hide FailedInputs;
    CountedOne(h.items, HasFailed);
    FailedInputsAre(h.items, h.inputs);
    var k :| 0 <= k < |h.items| && HasFailed(h.items[k].status);
    assert h.items[k].id in IdsOf(FailedInputs(h.items, h.inputs));
  }

  /** A round that begins has something to do, and its pool is at the start. */
  lemma BeginsAtStart(s: Session, e: Event)
    requires SessionInv(s) && Enabled(s, e) && Begins(s, e)
    ensures var h := Next(s, e).hook; h.entries != [] && h == Begin(h, h.items, h.entries)
  {
    hide HookInv, FailedInputs, UploadRows, Replacing, Start;
    UploadInputsSeparate(s.rows);
    if e.RetryClicked? {
      RetryHasEntries(s.hook);
    }
  }

  /** An event that is not a worker's turn stores nothing. It starts a round, or else it leaves the round and
      what is shown alone. */
  lemma OtherEvents(s: Session, e: Event)
    requires Enabled(s, e) && !e.WorkerTurn?
    ensures var g, h := Next(s, e).hook, s.hook;
            && g.storage == h.storage
            && ((g.pool == h.pool && g.paths == h.paths) || g.paths == map[])
            && (!Begins(s, e) ==> g == h.(mounted := g.mounted) && (g.mounted ==> h.mounted))
  {
    hide UploadRows, Replacing, Assign, Skip, ToggleKeep, FailedInputs, QueuedItems, Retained;
    UploadMembers(s.rows);
  }

  ghost function TakenNow(s: Session, e: Event): seq<nat> {
    if e.WorkerTurn? then BulkEnroll.TakenNow(s.hook, Move(e.worker, e.turn)) else []
  }

  ghost function EndedNow(s: Session, e: Event): seq<nat>
    requires Enabled(s, e)
  {
    if e.WorkerTurn? then BulkEnroll.EndedNow(s.hook, Move(e.worker, e.turn)) else []
  }

  /** The entries that workers take, and bring to an end, along a run of the session. */
  ghost function Taken(s: Session, events: seq<Event>): seq<nat>
    requires CanHappen(s, events)
    decreases |events|
  {
    if events == [] then [] else TakenNow(s, events[0]) + Taken(Next(s, events[0]), events[1..])
  }

  ghost function Ended(s: Session, events: seq<Event>): seq<nat>
    requires CanHappen(s, events)
    decreases |events|
  {
    if events == [] then [] else EndedNow(s, events[0]) + Ended(Next(s, events[0]), events[1..])
  }

  function Turns(events: seq<Event>): nat {
    if events == [] then 0 else (if events[0].WorkerTurn? then 1 else 0) + Turns(events[1..])
  }

  /** No event of the run starts a round. */
  ghost predicate WithinRound(s: Session, events: seq<Event>)
    requires CanHappen(s, events)
    decreases |events|
  {
    events == [] || (!Begins(s, events[0]) && WithinRound(Next(s, events[0]), events[1..]))
  }

  lemma EventBalances(s: Session, e: Event)
    requires SessionInv(s) && Enabled(s, e) && !Begins(s, e)
    ensures var g, h := Next(s, e).hook, s.hook;
            && g.entries == h.entries && g.pool.size == h.pool.size
            && g.pool.next == h.pool.next + |TakenNow(s, e)|
            && (forall k :: 0 <= k < |TakenNow(s, e)| ==> TakenNow(s, e)[k] == h.pool.next + k)
            && multiset(EndedNow(s, e)) + multiset(Held(g.pool)) == multiset(Held(h.pool)) + multiset(TakenNow(s, e))
            && Rank(g) <= Rank(h) - (if e.WorkerTurn? then 1 else 0)
  {
    if e.WorkerTurn? {
      hide TakeTurn, CanTurn, Indexed, Held, PoolOk, Rank, Sound, Quiet, BulkEnroll.TakenNow, BulkEnroll.EndedNow;
      MoveBalances(s.hook, Move(e.worker, e.turn));
      TurnKeepsPool(s.hook, e.worker, e.turn);
      TurnDecreasesRank(s.hook, e.worker, e.turn);
    } else {
      hide Next, Held, Begins;
      OtherEvents(s, e);
    }
  }

  lemma {:induction false} InOrder(s: Session, events: seq<Event>)
    requires SessionInv(s) && CanHappen(s, events) && WithinRound(s, events)
    ensures var g, h := After(s, events).hook, s.hook;
            && g.entries == h.entries && g.pool.size == h.pool.size
            && g.pool.next == h.pool.next + |Taken(s, events)|
            && (forall k :: 0 <= k < |Taken(s, events)| ==> Taken(s, events)[k] == h.pool.next + k)
            && Rank(g) <= Rank(h) - Turns(events)
    decreases |events|
  {
    hide SessionInv, Enabled, Next, Begins, TakenNow, EndedNow, Rank;
    if events != [] {
      EventBalances(s, events[0]);
      EventKeeps(s, events[0]);
      InOrder(Next(s, events[0]), events[1..]);
    }
  }

  lemma {:induction false} EndedOrHeld(s: Session, events: seq<Event>)
    requires SessionInv(s) && CanHappen(s, events) && WithinRound(s, events)
    ensures multiset(Ended(s, events)) + multiset(Held(After(s, events).hook.pool))
         == multiset(Held(s.hook.pool)) + multiset(Taken(s, events))
    decreases |events|
  {
    hide SessionInv, Enabled, Next, Begins, TakenNow, EndedNow, Rank, Held;
    if events != [] {
      var e, rest := events[0], events[1..];
      var t := Next(s, e);
      EventBalances(s, e);
      EventKeeps(s, e);
      EndedOrHeld(t, rest);
      Chain(EndedNow(s, e), Ended(t, rest), TakenNow(s, e), Taken(t, rest),
            multiset(Held(s.hook.pool)), multiset(Held(t.hook.pool)), multiset(Held(After(t, rest).hook.pool)));
    }
  }

  /** Each entry of the round that s has just begun was taken once and ended once along the events. */
  ghost predicate WholeRoundOf(s: Session, events: seq<Event>)
    requires CanHappen(s, events)
  {
    var n := |s.hook.entries|;
    && n > 0
    && Taken(s, events) == Indices(n)
    && multiset(Ended(s, events)) == multiset(Indices(n))
    && Turns(events) <= 3 * n + 3
    && After(s, events).hook.entries == s.hook.entries
  }

  /** Whatever edits, clicks, closings and an unmounting come between the turns of its workers: a round is
      over only when it has taken and ended each of its photos exactly once. */
  lemma EveryRoundIsWhole(s: Session, start: Event, during: seq<Event>)
    requires Reachable(s) && Enabled(s, start) && Begins(s, start)
    requires CanHappen(Next(s, start), during) && WithinRound(Next(s, start), during)
    requires Quiet(After(Next(s, start), during).hook)
    ensures WholeRoundOf(Next(s, start), during)
  {
    hide SessionInv, Enabled, Next, Begins, Held, PoolOk, Rank, Start, Reachable;
    ReachableInv(s);
    EventKeeps(s, start);
    BeginsAtStart(s, start);
    var b := Next(s, start);
    RankAtStart(b.hook, b.hook.items, b.hook.entries);
    StartsAtZero(b.hook, b.hook.items, b.hook.entries);
    InOrder(b, during);
    EndedOrHeld(b, during);
    RunsKeep(b, during);
    InvRank(After(b, during));
    AllInOrder(|b.hook.entries|, Taken(b, during));
    NothingHeld(multiset(Ended(b, during)), multiset(Taken(b, during)),
                Held(b.hook.pool), Held(After(b, during).hook.pool));
  }

  lemma StartsAtZero(h: Hook, items: seq<Item>, entries: seq<Input>)
    ensures Begin(h, items, entries).pool.next == 0 && Begin(h, items, entries).pool.size == |entries|
  {
  }

  lemma InvRank(s: Session)
    requires SessionInv(s)
    ensures Rank(s.hook) >= 0
  {
    RankIsNatural(s.hook);
  }

  /** In every session, between the start of a round and the start of the next, each photo of the round is
      taken exactly once and ended exactly once. */
  lemma BetweenTwoStarts(s: Session, start: Event, during: seq<Event>, next: Event)
    requires Reachable(s) && Enabled(s, start) && Begins(s, start)
    requires CanHappen(Next(s, start), during) && WithinRound(Next(s, start), during)
    requires Enabled(After(Next(s, start), during), next) && Begins(After(Next(s, start), during), next)
    ensures WholeRoundOf(Next(s, start), during)
  {
    hide SessionInv, Next, Held, Reachable, HookInv;
    ReachableInv(s);
    EventKeeps(s, start);
    RunsKeep(Next(s, start), during);
    OverBeforeNext(After(Next(s, start), during), next);
    EveryRoundIsWhole(s, start, during);
  }

  lemma OverBeforeNext(s: Session, e: Event)
    requires SessionInv(s) && Enabled(s, e) && Begins(s, e)
    ensures Quiet(s.hook)
  {
    hide Held, HookInv, Sound;
    if e.RetryClicked? {
      RunningIsExact(s.hook);
    }
  }

  // ---------------------------------------------------------------- storage and overwriting

  /** Storage is conserved in every run: an uploaded object is attached, given up for clean-up, or held
      by one of at most three enrolling photos; when the dialog is idle, nothing is held and every
      shown photo is enrolled or failed. */
  lemma StorageIsConserved(s: Session)
    requires Reachable(s)
    ensures s.hook.storage.uploaded == s.hook.storage.attached + s.hook.storage.cleaned + s.hook.paths.Values
    ensures s.hook.storage.attached !! s.hook.storage.cleaned !! s.hook.paths.Values
    ensures |s.hook.paths| <= 3
    ensures s.hook.mounted && !IsRunning(s.hook.items) ==>
              && s.hook.paths == map[]
              && Count(s.hook.items, st => st == Done(true)) + Count(s.hook.items, HasFailed) == |s.hook.items|
  {
    ReachableInv(s);
    InFlight(s.hook.pool);
    SubsetSize(s.hook.paths.Keys, Held(s.hook.pool));
    assert |s.hook.paths| == |s.hook.paths.Keys|;
    if s.hook.mounted && !IsRunning(s.hook.items) {
      RunningIsExact(s.hook);
      QuietHasNoPaths(s.hook);
      SummaryAddsUp(s.hook.items);
    }
  }

  lemma {:induction false} ReplacingIs(rows: seq<Row>)
    ensures Replacing(rows) >= 1 <==> exists r :: r in UploadRows(rows) && r.enrolled
    decreases |rows|
  {
    if rows != [] {
      ReplacingIs(rows[1..]);
      var own := if rows[0].student.Some? && !IsKept(rows[0]) then [rows[0]] else [];
      assert UploadRows(rows) == own + UploadRows(rows[1..]);
      assert forall r :: r in UploadRows(rows) <==> r in own || r in UploadRows(rows[1..]);
    }
  }

  /** An enrolled photo is never overwritten without the question: a round that replaces one starts by
      its confirmation, and "start" alone starts a round exactly when it replaces none. */
  lemma OverwritesAreConfirmed(s: Session, e: Event)
    requires Reachable(s) && Enabled(s, e) && s.phase != Running
    ensures Next(s, e).phase == Running && (exists r :: r in UploadRows(s.rows) && r.enrolled) ==>
              e == OverwriteConfirmed
    ensures e == StartClicked ==> (Next(s, e).phase == Running <==> forall r :: r in UploadRows(s.rows) ==> !r.enrolled)
  {
    hide UploadRows, Replacing, RunBatch, Assign, Skip, ToggleKeep, TakeTurn, Retry;
    ReplacingIs(s.rows);
  }

  /** The row sends its photo to a student, and is not told to keep the current one. */
  ghost predicate Sends(r: Row, e: Input) {
    r.id == e.id && r.student == Some(e.student) && !(r.enrolled && r.keepExisting)
  }

  lemma InputsCoverUploads(rows: seq<Row>, e: Input)
    requires forall r :: r in UploadRows(rows) ==> r.student.Some?
    ensures e in InputsOf(UploadRows(rows)) <==> exists r :: r in rows && Sends(r, e)
  {
    hide UploadRows;
    UploadMembers(rows);
    var up := UploadRows(rows);
    var round := InputsOf(up);
    if r :| r in rows && Sends(r, e) {
      assert r in up;
      var i :| 0 <= i < |up| && up[i] == r;
      assert round[i] == e;
    }
    if e in round {
      var i :| 0 <= i < |round| && round[i] == e;
      assert up[i] in up && Sends(up[i], e);
    }
  }

  /** A round uploads exactly the photos of the matched rows that are not told to keep the current one, each
      for the student of its own row. */
  lemma KeptRowsAreNotUploaded(s: Session, e: Input)
    requires Reachable(s) && s.hook.mounted && s.phase != Running && UploadRows(s.rows) != []
    ensures var round := RunEnroll(s).hook.entries;
            && MatchedCount(s.rows) == |round| + KeptCount(s.rows)
            && (e in round <==> exists r :: r in s.rows && Sends(r, e))
  {
    hide Sends, HookInv, Quiet, Sound, MatchedCount, KeptCount;
    ReachableInv(s);
    UploadsAreMatchedNotKept(s.rows);
    UploadMembers(s.rows);
    InputsCoverUploads(s.rows, e);
  }

  /** What every click that starts no round leaves: the table with that one edit, and the hook as it was. A
      dialog that is closed while photos are uploaded keeps everything. */
  lemma EditEvents(s: Session, e: Event)
    requires Reachable(s) && Enabled(s, e)
    ensures e.StudentPicked? ==>
              var r := s.rows[e.row];
              Next(s, e) == s.(rows := s.rows[e.row := Row(r.id, r.filename, Some(e.student), e.enrolled, false)])
    ensures e.RowSkipped? ==>
              var r := s.rows[e.row];
              Next(s, e) == s.(rows := s.rows[e.row := Row(r.id, r.filename, None, false, false)])
    ensures e.KeepToggled? ==>
              var r := s.rows[e.row];
              Next(s, e) == s.(rows := s.rows[e.row := r.(keepExisting := !r.keepExisting)])
    ensures e.FilesMatched? ==> Next(s, e) == s.(phase := Mapping, rows := e.found)
    ensures e.OverwriteCancelled? ==> Next(s, e) == s.(confirming := false)
    ensures e.TableReset? || (e.DialogClosed? && !IsRunning(s.hook.items)) ==>
              Next(s, e) == s.(phase := Picking, rows := [])
    ensures e.DialogClosed? && IsRunning(s.hook.items) ==> Next(s, e) == s
  {
    hide SessionInv, HookInv, IsRunning, DisabledForRow, Assign, Skip, ToggleKeep, TakeTurn, Retry, Replacing;
    ReachableInv(s);
    SessionIsSound(s);
    match e {
      case StudentPicked(k, student, enrolled) => EditsLeave(s.rows, k, student, enrolled);
      case RowSkipped(k) => EditsLeave(s.rows, k, "", false);
      case KeepToggled(k) => EditsLeave(s.rows, k, "", false);
      case _ =>
    }
  }

  lemma SessionIsSound(s: Session)
    requires SessionInv(s)
    ensures Sound(s.rows)
  {
  }

  lemma QueuedAgain(h: Hook)
    requires HookInv(h) && FailedInputs(h.items, h.inputs) != [] && h.mounted
    ensures var g := Retry(h);
            && |g.items| == |h.items|
            && (forall k :: 0 <= k < |h.items| ==>
                  g.items[k] == if HasFailed(h.items[k].status) then Item(h.items[k].id, Queued) else h.items[k])
            && (forall k :: 0 <= k < |h.items| ==>
                  (h.items[k].id in IdsOf(g.entries) <==> HasFailed(h.items[k].status)))
            && (forall i :: 0 <= i < |g.entries| ==>
                  g.entries[i].id in h.inputs && g.entries[i] == h.inputs[g.entries[i].id])
  {
    hide FailedInputs, Held, Valid, Conserved, Display, Start, IdsOf;
    FailedInputsAre(h.items, h.inputs);
  }

  /** A batch shows each of its photos as queued, in order. A retry shows exactly the failed photos as queued
      again, the others as they were, and goes over just these, each with the input it had. */
  lemma RoundsStartQueued(s: Session, e: Event)
    requires Reachable(s) && Enabled(s, e) && Begins(s, e)
    ensures !e.RetryClicked? ==>
              var h := Next(s, e).hook;
              && |h.items| == |h.entries|
              && (forall i :: 0 <= i < |h.entries| ==> h.items[i] == Item(h.entries[i].id, Queued))
              && |h.entries| == |UploadRows(s.rows)|
              && (forall i :: 0 <= i < |h.entries| ==>
                    && UploadRows(s.rows)[i].id == h.entries[i].id
                    && UploadRows(s.rows)[i].student == Some(h.entries[i].student))
    ensures e.RetryClicked? ==>
              var g, h := Next(s, e).hook, s.hook;
              && |g.items| == |h.items|
              && (forall k :: 0 <= k < |h.items| ==>
                    g.items[k] == if HasFailed(h.items[k].status) then Item(h.items[k].id, Queued) else h.items[k])
              && (forall k :: 0 <= k < |h.items| ==>
                    (h.items[k].id in IdsOf(g.entries) <==> HasFailed(h.items[k].status)))
              && (forall i :: 0 <= i < |g.entries| ==>
                    g.entries[i].id in h.inputs && g.entries[i] == h.inputs[g.entries[i].id])
  {
    hide HookInv, FailedInputs, UploadRows, Replacing, Start, Reachable, Retry, IdsOf, Retained;
    ReachableInv(s);
    UploadInputsSeparate(s.rows);
    UploadMembers(s.rows);
    if e.RetryClicked? {
      RetryHasEntries(s.hook);
      QueuedAgain(s.hook);
    }
  }
}

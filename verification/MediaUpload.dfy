/**
 * The event-photo upload (frontend/lib/hooks/use-media-upload.ts): every call of `add` appends a batch
 * and starts a pool of its own, so several pools may work on one list at a time. Retrying is offered
 * only when the list is idle.
 */
module MediaUpload {
  import opened WorkerPool

  type File = string

  const UPLOAD_CONCURRENCY: nat := 3

  datatype Status = Queued | Uploading | Done | Error

  datatype Item = Item(id: nat, status: Status)

  datatype Entry = Entry(id: nat, file: File)

  /** One call of `runPool`. */
  datatype Round = Round(entries: seq<Entry>, pool: Pool)

  datatype Hook = Hook(items: seq<Item>, nextId: nat, files: map<nat, File>, mounted: bool, rounds: seq<Round>)

  const FRESH: Hook := Hook([], 0, map[], true, [])

  predicate Pending(st: Status) {
    st.Queued? || st.Uploading?
  }

  predicate IsUploading(items: seq<Item>) {
    exists k :: 0 <= k < |items| && Pending(items[k].status)
  }

  // ---------------------------------------------------------------- steps of the hook

  function Patched(items: seq<Item>, id: nat, st: Status): (out: seq<Item>)
    ensures |out| == |items|
    ensures forall k :: 0 <= k < |items| ==> out[k] == if items[k].id == id then Item(id, st) else items[k]
  {
    seq(|items|, k requires 0 <= k < |items| => if items[k].id == id then Item(id, st) else items[k])
  }

  function Patch(h: Hook, id: nat, st: Status): Hook {
    if h.mounted then h.(items := Patched(h.items, id, st)) else h
  }

  function Batch(nextId: nat, picked: seq<File>): (batch: seq<Entry>)
    ensures |batch| == |picked| && forall i :: 0 <= i < |picked| ==> batch[i] == Entry(nextId + i, picked[i])
  {
    seq(|picked|, i requires 0 <= i < |picked| => Entry(nextId + i, picked[i]))
  }

  function Recorded(files: map<nat, File>, batch: seq<Entry>): map<nat, File> {
    if batch == [] then files
    else Recorded(files, batch[..|batch| - 1])[batch[|batch| - 1].id := batch[|batch| - 1].file]
  }

  function QueuedItems(batch: seq<Entry>): (items: seq<Item>)
    ensures |items| == |batch| && forall k :: 0 <= k < |items| ==> items[k] == Item(batch[k].id, Queued)
  {
    seq(|batch|, k requires 0 <= k < |batch| => Item(batch[k].id, Queued))
  }

  function RunPool(h: Hook, entries: seq<Entry>): Hook {
    h.(rounds := h.rounds + [Round(entries, Start(|entries|, UPLOAD_CONCURRENCY))])
  }

  function Add(h: Hook, picked: seq<File>): Hook {
    if picked == [] then h
    else
      var batch := Batch(h.nextId, picked);
      RunPool(h.(nextId := h.nextId + |picked|, files := Recorded(h.files, batch),
                 items := h.items + QueuedItems(batch)), batch)
  }

  function FailedEntries(items: seq<Item>, files: map<nat, File>): seq<Entry> {
    if items == [] then []
    else
      var it := items[|items| - 1];
      FailedEntries(items[..|items| - 1], files)
      + if it.status == Error && it.id in files then [Entry(it.id, files[it.id])] else []
  }

  function IdsOf(entries: seq<Entry>): set<nat> {
    set e | e in entries :: e.id
  }

  function Requeued(items: seq<Item>, ids: set<nat>): (out: seq<Item>)
    ensures |out| == |items|
    ensures forall k :: 0 <= k < |items| ==>
              out[k] == if items[k].id in ids then Item(items[k].id, Queued) else items[k]
  {
    seq(|items|, k requires 0 <= k < |items| => if items[k].id in ids then Item(items[k].id, Queued) else items[k])
  }

  function Retry(h: Hook): Hook {
    var entries := FailedEntries(h.items, h.files);
    if entries == [] then h else RunPool(h.(items := Requeued(h.items, IdsOf(entries))), entries)
  }

  datatype Turn = Pulls | Succeeds | Fails

  predicate CanTurn(h: Hook, r: nat, w: nat, t: Turn) {
    && r < |h.rounds| && w < |h.rounds[r].pool.workers|
    && if t.Pulls? then h.rounds[r].pool.workers[w] == Ready else h.rounds[r].pool.workers[w].Busy?
  }

  ghost predicate Indexed(h: Hook) {
    forall r :: 0 <= r < |h.rounds| ==> RoundIndexed(h.rounds[r])
  }

  predicate RoundIndexed(rd: Round) {
    && rd.pool.size == |rd.entries|
    && forall w :: 0 <= w < |rd.pool.workers| && rd.pool.workers[w].Busy? ==> rd.pool.workers[w].item < |rd.entries|
  }

  function TurnedRound(rd: Round, w: nat, t: Turn): Round
    requires w < |rd.pool.workers|
  {
    rd.(pool := if t.Pulls? then Pull(rd.pool, w) else Finish(rd.pool, w))
  }

  /** Worker w of round r moves. */
  function TakeTurn(h: Hook, r: nat, w: nat, t: Turn): Hook
    requires CanTurn(h, r, w, t) && Indexed(h)
  {
    var rd := h.rounds[r];
    var g := h.(rounds := h.rounds[r := TurnedRound(rd, w, t)]);
    match t
    case Pulls => if rd.pool.next < rd.pool.size then Patch(g, rd.entries[rd.pool.next].id, Uploading) else g
    case Succeeds => Patch(g, rd.entries[rd.pool.workers[w].item].id, Done)
    case Fails => Patch(g, rd.entries[rd.pool.workers[w].item].id, Error)
  }

  lemma NothingRecorded(files: map<nat, File>, nextId: nat)
    ensures Recorded(files, []) == files && Batch(nextId, []) == []
  {
  }

  lemma RecordedMore(files: map<nat, File>, batch: seq<Entry>, e: Entry)
    ensures Recorded(files, batch + [e]) == Recorded(files, batch)[e.id := e.file]
  {
    assert (batch + [e])[..|batch|] == batch;
  }

  lemma BatchMore(nextId: nat, picked: seq<File>, i: nat)
    requires i < |picked|
    ensures Batch(nextId, picked[..i + 1]) == Batch(nextId, picked[..i]) + [Entry(nextId + i, picked[i])]
  {
  }

  /** The hook's state and refs, and the handlers that update them in place. */
  class MediaUploader {
    var items: seq<Item>
    var nextId: nat
    var filesById: map<nat, File>
    var mounted: bool
    var rounds: seq<Round>

    function State(): Hook
      reads this
    {
      Hook(items, nextId, filesById, mounted, rounds)
    }

    constructor ()
      ensures State() == FRESH
    {
      items, nextId, filesById, mounted, rounds := [], 0, map[], true, [];
    }

    method PatchItem(id: nat, st: Status)
      modifies this`items
      ensures State() == Patch(old(State()), id, st)
    {
      if !mounted {
        return;
      }
      items := Patched(items, id, st);
    }

    method AddFiles(picked: seq<File>)
      modifies this
      ensures State() == Add(old(State()), picked)
    {
      if |picked| == 0 {
        return;
      }
      var batch: seq<Entry> := [];
      hide Recorded, Batch;
      NothingRecorded(filesById, nextId);
      for i := 0 to |picked|
        invariant State() == old(State()).(nextId := old(nextId) + i, files := Recorded(old(filesById), batch))
        invariant batch == Batch(old(nextId), picked[..i])
      {
        var id := nextId;
        RecordedMore(old(filesById), batch, Entry(id, picked[i]));
        BatchMore(old(nextId), picked, i);
        nextId := nextId + 1;
        filesById := filesById[id := picked[i]];
        batch := batch + [Entry(id, picked[i])];
      }
      assert picked[..|picked|] == picked;
      items := items + QueuedItems(batch);
      rounds := rounds + [Round(batch, Start(|batch|, UPLOAD_CONCURRENCY))];
    }

    method RetryFailed()
      modifies this
      ensures State() == Retry(old(State()))
    {
      var entries: seq<Entry> := [];
      for k := 0 to |items|
        invariant State() == old(State())
        invariant entries == FailedEntries(items[..k], filesById)
      {
        assert items[..k + 1][..k] == items[..k];
        if items[k].status != Error {
          continue;
        }
        if items[k].id in filesById {
          entries := entries + [Entry(items[k].id, filesById[items[k].id])];
        }
      }
      assert items[..|items|] == items;
      if |entries| == 0 {
        return;
      }
      items := Requeued(items, IdsOf(entries));
      rounds := rounds + [Round(entries, Start(|entries|, UPLOAD_CONCURRENCY))];
    }

    /** Worker w of round r at its loop test. */
    method PullNext(r: nat, w: nat)
      requires CanTurn(State(), r, w, Pulls) && Indexed(State())
      modifies this
      ensures State() == TakeTurn(old(State()), r, w, Pulls)
    {
      var rd := rounds[r];
      rounds := rounds[r := rd.(pool := Pull(rd.pool, w))];
      if rd.pool.next < rd.pool.size {
        PatchItem(rd.entries[rd.pool.next].id, Uploading);
      }
    }

    /** The upload that worker w of round r awaits is over. */
    method UploadEnded(r: nat, w: nat, ok: bool)
      requires CanTurn(State(), r, w, Succeeds) && Indexed(State())
      modifies this
      ensures State() == TakeTurn(old(State()), r, w, if ok then Succeeds else Fails)
    {
      var rd := rounds[r];
      rounds := rounds[r := rd.(pool := Finish(rd.pool, w))];
      PatchItem(rd.entries[rd.pool.workers[w].item].id, if ok then Done else Error);
    }
  }

  datatype Event =
    | Adds(picked: seq<File>)
    | RetryClicked
    | Unmounted
    | WorkerTurn(round: nat, worker: nat, turn: Turn)

  /** The hook lets `add` be called at any time; the page offers the retry only when nothing is pending. */
  ghost predicate Enabled(h: Hook, e: Event) {
    match e
    case Adds(_) => h.mounted
    case RetryClicked => h.mounted && !IsUploading(h.items)
    case Unmounted => h.mounted
    case WorkerTurn(r, w, t) => Indexed(h) && CanTurn(h, r, w, t)
  }

  ghost function Next(h: Hook, e: Event): Hook
    requires Enabled(h, e)
  {
    match e
    case Adds(picked) => Add(h, picked)
    case RetryClicked => Retry(h)
    case Unmounted => h.(mounted := false)
    case WorkerTurn(r, w, t) => TakeTurn(h, r, w, t)
  }

  ghost predicate CanHappen(h: Hook, events: seq<Event>)
    decreases |events|
  {
    events == [] || (Enabled(h, events[0]) && CanHappen(Next(h, events[0]), events[1..]))
  }

  ghost function After(h: Hook, events: seq<Event>): Hook
    requires CanHappen(h, events)
    decreases |events|
  {
    if events == [] then h else After(Next(h, events[0]), events[1..])
  }

  // ---------------------------------------------------------------- the invariant

  /** The ids a round has still to take. */
  ghost function Waits(rd: Round): set<nat> {
    set i | 0 <= i < |rd.entries| && i >= rd.pool.next :: rd.entries[i].id
  }

  /** The ids its workers hold. */
  ghost function Holds(rd: Round): set<nat> {
    set i | 0 <= i < |rd.entries| && i in Held(rd.pool) :: rd.entries[i].id
  }

  ghost function Opens(rd: Round): set<nat> {
    Waits(rd) + Holds(rd)
  }

  ghost predicate RoundOk(rd: Round, files: map<nat, File>) {
    && Valid(rd.pool) && |rd.pool.workers| <= UPLOAD_CONCURRENCY && rd.pool.size == |rd.entries|
    && (forall i, j :: 0 <= i < j < |rd.entries| ==> rd.entries[i].id != rd.entries[j].id)
    && (forall i :: 0 <= i < |rd.entries| ==>
          rd.entries[i].id in files && files[rd.entries[i].id] == rd.entries[i].file)
  }

  ghost predicate WaitsIn(rounds: seq<Round>, id: nat) {
    exists r :: 0 <= r < |rounds| && id in Waits(rounds[r])
  }

  ghost predicate HeldIn(rounds: seq<Round>, id: nat) {
    exists r :: 0 <= r < |rounds| && id in Holds(rounds[r])
  }

  /** No id is open in two rounds. */
  ghost predicate Apart(rounds: seq<Round>) {
    forall q, r :: 0 <= q < r < |rounds| ==> Opens(rounds[q]) !! Opens(rounds[r])
  }

  /** What is shown as queued or uploading is exactly what waits in, or is held by, some round. */
  ghost predicate Display(items: seq<Item>, rounds: seq<Round>) {
    forall k :: 0 <= k < |items| ==>
      && (items[k].status == Queued <==> WaitsIn(rounds, k))
      && (items[k].status == Uploading <==> HeldIn(rounds, k))
  }

  /** Ids count up from zero along the list, and the file of each is retained. */
  ghost predicate Numbered(h: Hook) {
    && |h.items| == h.nextId
    && (forall k :: 0 <= k < |h.items| ==> h.items[k].id == k)
    && (forall k: nat :: k in h.files <==> k < h.nextId)
  }

  ghost predicate HookInv(h: Hook) {
    && Numbered(h)
    && (forall r :: 0 <= r < |h.rounds| ==> RoundOk(h.rounds[r], h.files))
    && Apart(h.rounds)
    && (h.mounted ==> Display(h.items, h.rounds))
  }

  lemma InvIndexed(h: Hook)
    requires forall r :: 0 <= r < |h.rounds| ==> RoundOk(h.rounds[r], h.files)
    ensures Indexed(h)
  {
  }

  lemma OpenIsNumbered(h: Hook, r: nat, id: nat)
    requires HookInv(h) && r < |h.rounds| && id in Opens(h.rounds[r])
    ensures id < h.nextId
  {
    assert RoundOk(h.rounds[r], h.files);
  }

  // ---------------------------------------------------------------- a turn

  /** The id a turn moves, if any. */
  ghost function MovedId(rd: Round, w: nat, t: Turn): set<nat>
    requires RoundIndexed(rd) && w < |rd.pool.workers| && (!t.Pulls? ==> rd.pool.workers[w].Busy?)
  {
    if !t.Pulls? then {rd.entries[rd.pool.workers[w].item].id}
    else if rd.pool.next < rd.pool.size then {rd.entries[rd.pool.next].id}
    else {}
  }

  /** A turn moves one id from waiting to held, or from held to nowhere; nothing else changes. */
  lemma RoundTurn(rd: Round, files: map<nat, File>, w: nat, t: Turn)
    requires RoundOk(rd, files) && w < |rd.pool.workers|
    requires if t.Pulls? then rd.pool.workers[w] == Ready else rd.pool.workers[w].Busy?
    ensures RoundIndexed(rd)
    ensures var s, id := TurnedRound(rd, w, t), MovedId(rd, w, t);
            && RoundOk(s, files)
            && Waits(rd) !! Holds(rd) && Waits(s) !! Holds(s)
            && Waits(s) == (if t.Pulls? then Waits(rd) - id else Waits(rd))
            && Holds(s) == (if t.Pulls? then Holds(rd) + id else Holds(rd) - id)
            && id <= (if t.Pulls? then Waits(rd) else Holds(rd))
  {
    RoundDisjoint(rd, files);
    if t.Pulls? {
      PullTurn(rd, files, w);
    } else {
      FinishTurn(rd, files, w);
    }
    RoundDisjoint(TurnedRound(rd, w, t), files);
  }

  lemma RoundDisjoint(rd: Round, files: map<nat, File>)
    requires RoundOk(rd, files)
    ensures Waits(rd) !! Holds(rd)
  {
    forall i, j | 0 <= i < |rd.entries| && i >= rd.pool.next && 0 <= j < |rd.entries| && j in Held(rd.pool)
      ensures rd.entries[i].id != rd.entries[j].id
    {
      HeldIsTaken(rd.pool, j);
    }
  }

  lemma PullTurn(rd: Round, files: map<nat, File>, w: nat)
    requires RoundOk(rd, files) && w < |rd.pool.workers| && rd.pool.workers[w] == Ready
    ensures var s, id := TurnedRound(rd, w, Pulls), MovedId(rd, w, Pulls);
            RoundOk(s, files) && Waits(s) == Waits(rd) - id && Holds(s) == Holds(rd) + id && id <= Waits(rd)
  {
    hide Valid, Held;
    PullKeeps(rd.pool, w);
    var s := TurnedRound(rd, w, Pulls);
    var n := rd.pool.next;
    if n < rd.pool.size {
      var id := rd.entries[n].id;
      assert forall i :: 0 <= i < |rd.entries| && rd.entries[i].id == id ==> i == n;
    }
  }

  lemma FinishTurn(rd: Round, files: map<nat, File>, w: nat)
    requires RoundOk(rd, files) && w < |rd.pool.workers| && rd.pool.workers[w].Busy?
    ensures RoundIndexed(rd)
    ensures var s, id := TurnedRound(rd, w, Fails), MovedId(rd, w, Fails);
            RoundOk(s, files) && Waits(s) == Waits(rd) && Holds(s) == Holds(rd) - id && id <= Holds(rd)
  {
    FinishKeeps(rd.pool, w);
    var i := rd.pool.workers[w].item;
    hide Valid, Held;
    assert forall j :: 0 <= j < |rd.entries| && rd.entries[j].id == rd.entries[i].id ==> j == i;
  }

  lemma TurnKeepsApart(rounds: seq<Round>, r: nat, s: Round)
    requires Apart(rounds) && r < |rounds| && Opens(s) <= Opens(rounds[r])
    ensures Apart(rounds[r := s])
  {
    hide Opens;
  }

  /** Where an id waits or is held after round r has moved. */
  lemma ElsewhereAs(rounds: seq<Round>, r: nat, s: Round, id: nat)
    requires r < |rounds|
    ensures WaitsIn(rounds[r := s], id)
       <==> id in Waits(s) || exists q :: 0 <= q < |rounds| && q != r && id in Waits(rounds[q])
    ensures HeldIn(rounds[r := s], id)
       <==> id in Holds(s) || exists q :: 0 <= q < |rounds| && q != r && id in Holds(rounds[q])
  {
    hide Waits, Holds;
    var after := rounds[r := s];
    assert after[r] == s && forall q :: 0 <= q < |rounds| && q != r ==> after[q] == rounds[q];
  }

  lemma TurnDisplays(h: Hook, r: nat, w: nat, t: Turn)
    requires HookInv(h) && h.mounted && CanTurn(h, r, w, t) && Indexed(h)
    ensures Display(TakeTurn(h, r, w, t).items, TakeTurn(h, r, w, t).rounds)
  {
    hide RoundOk, Opens, Waits, Holds, WaitsIn, HeldIn, TurnedRound, MovedId;
    var g, rd := TakeTurn(h, r, w, t), h.rounds[r];
    assert RoundOk(rd, h.files);
    RoundTurn(rd, h.files, w, t);
    forall k | 0 <= k < |g.items|
      ensures g.items[k].status == Queued <==> WaitsIn(g.rounds, k)
      ensures g.items[k].status == Uploading <==> HeldIn(g.rounds, k)
    {
      TurnedItem(h, r, w, t, k);
      TurnedSets(h.rounds, r, TurnedRound(rd, w, t), MovedId(rd, w, t), t, k);
    }
  }

  /** Where an id waits or is held after a turn of round r. */
  lemma TurnedSets(rounds: seq<Round>, r: nat, s: Round, id: set<nat>, t: Turn, k: nat)
    requires r < |rounds| && Apart(rounds) && Waits(rounds[r]) !! Holds(rounds[r])
    requires Waits(s) == (if t.Pulls? then Waits(rounds[r]) - id else Waits(rounds[r]))
    requires Holds(s) == (if t.Pulls? then Holds(rounds[r]) + id else Holds(rounds[r]) - id)
    requires id <= (if t.Pulls? then Waits(rounds[r]) else Holds(rounds[r]))
    ensures k !in id ==> (WaitsIn(rounds[r := s], k) <==> WaitsIn(rounds, k))
    ensures k !in id ==> (HeldIn(rounds[r := s], k) <==> HeldIn(rounds, k))
    ensures k in id ==> !WaitsIn(rounds[r := s], k) && (HeldIn(rounds[r := s], k) <==> t.Pulls?)
  {
    hide Waits, Holds;
    ElsewhereAs(rounds, r, s, k);
    ElsewhereAs(rounds, r, rounds[r], k);
    assert rounds[r := rounds[r]] == rounds;
    if k in id {
      OpenOnce(rounds, r, k);
    }
  }

  lemma OpenOnce(rounds: seq<Round>, r: nat, id: nat)
    requires Apart(rounds) && r < |rounds| && id in Opens(rounds[r])
    ensures forall q :: 0 <= q < |rounds| && q != r ==> id !in Waits(rounds[q]) && id !in Holds(rounds[q])
  {
    forall q | 0 <= q < |rounds| && q != r
      ensures id !in Waits(rounds[q]) && id !in Holds(rounds[q])
    {
      assert id !in Opens(rounds[q]);
    }
  }

  /** What a turn does to the shown status of item k. */
  lemma TurnedItem(h: Hook, r: nat, w: nat, t: Turn, k: nat)
    requires Numbered(h) && h.mounted && CanTurn(h, r, w, t) && Indexed(h) && k < |h.items|
    ensures var g := TakeTurn(h, r, w, t);
            && |g.items| == |h.items|
            && g.items[k] == if k in MovedId(h.rounds[r], w, t)
                             then Item(k, match t case Pulls => Uploading case Succeeds => Done case Fails => Error)
                             else h.items[k]
  {
  }

  lemma TurnKeeps(h: Hook, r: nat, w: nat, t: Turn)
    requires HookInv(h) && CanTurn(h, r, w, t) && Indexed(h)
    ensures HookInv(TakeTurn(h, r, w, t))
  {
    hide RoundOk, Display, Waits, Holds, TurnedRound;
    var rd := h.rounds[r];
    assert RoundOk(rd, h.files);
    RoundTurn(rd, h.files, w, t);
    TurnKeepsApart(h.rounds, r, TurnedRound(rd, w, t));
    if h.mounted {
      TurnDisplays(h, r, w, t);
    }
  }

  // ---------------------------------------------------------------- a new round

  ghost predicate DistinctIds(entries: seq<Entry>) {
    forall i, j :: 0 <= i < j < |entries| ==> entries[i].id != entries[j].id
  }

  ghost predicate Kept(entries: seq<Entry>, files: map<nat, File>) {
    forall i :: 0 <= i < |entries| ==> entries[i].id in files && files[entries[i].id] == entries[i].file
  }

  lemma StartedRound(entries: seq<Entry>, files: map<nat, File>)
    requires DistinctIds(entries) && Kept(entries, files)
    ensures var rd := Round(entries, Start(|entries|, UPLOAD_CONCURRENCY));
            RoundOk(rd, files) && Waits(rd) == IdsOf(entries) && Holds(rd) == {}
  {
    StartIsValid(|entries|, UPLOAD_CONCURRENCY);
    hide Valid, Held;
    var rd := Round(entries, Start(|entries|, UPLOAD_CONCURRENCY));
    forall id | id in IdsOf(entries)
      ensures id in Waits(rd)
    {
      var e :| e in entries && e.id == id;
      var i :| 0 <= i < |entries| && entries[i] == e;
      assert rd.entries[i].id == id;
    }
  }

  lemma Appended(rounds: seq<Round>, rd: Round, k: nat)
    ensures WaitsIn(rounds + [rd], k) <==> WaitsIn(rounds, k) || k in Waits(rd)
    ensures HeldIn(rounds + [rd], k) <==> HeldIn(rounds, k) || k in Holds(rd)
  {
    hide Waits, Holds;
    var more := rounds + [rd];
    assert more[|rounds|] == rd && forall r :: 0 <= r < |rounds| ==> more[r] == rounds[r];
  }

  lemma AppendKeepsApart(rounds: seq<Round>, rd: Round)
    requires Apart(rounds) && forall r :: 0 <= r < |rounds| ==> Opens(rounds[r]) !! Opens(rd)
    ensures Apart(rounds + [rd])
  {
    hide Opens;
  }

  /** `recorded` is files with the entries written into it. */
  ghost predicate Holding(recorded: map<nat, File>, files: map<nat, File>, entries: seq<Entry>) {
    && recorded.Keys == files.Keys + IdsOf(entries)
    && (forall k: nat :: k in files && k !in IdsOf(entries) ==> recorded[k] == files[k])
    && Kept(entries, recorded)
  }

  lemma OneMore(recorded: map<nat, File>, files: map<nat, File>, front: seq<Entry>, last: Entry)
    requires Holding(recorded, files, front) && last.id !in IdsOf(front)
    ensures Holding(recorded[last.id := last.file], files, front + [last])
  {
    IdsOfMore(front, last);
  }

  lemma IdsOfMore(front: seq<Entry>, last: Entry)
    ensures IdsOf(front + [last]) == IdsOf(front) + {last.id}
    ensures forall i :: 0 <= i < |front| ==> front[i].id in IdsOf(front)
    ensures DistinctIds(front) && last.id !in IdsOf(front) ==> DistinctIds(front + [last])
  {
    forall i | 0 <= i < |front|
      ensures front[i].id in IdsOf(front)
    {
      assert front[i] in front;
    }
  }

  lemma LastIsNew(batch: seq<Entry>)
    requires DistinctIds(batch) && batch != []
    ensures batch[|batch| - 1].id !in IdsOf(batch[..|batch| - 1])
  {
  }

  lemma {:induction false} RecordedHas(files: map<nat, File>, batch: seq<Entry>)
    requires DistinctIds(batch)
    ensures Holding(Recorded(files, batch), files, batch)
    decreases |batch|
  {
    if batch == [] {
      assert IdsOf(batch) == {};
    } else {
      hide Holding, IdsOf;
      var n := |batch| - 1;
      assert batch[n].id !in IdsOf(batch[..n]) by {
        LastIsNew(batch);
      }
      RecordedHas(files, batch[..n]);
      OneMore(Recorded(files, batch[..n]), files, batch[..n], batch[n]);
      assert batch == batch[..n] + [batch[n]];
    }
  }

  lemma BatchIds(nextId: nat, picked: seq<File>)
    ensures DistinctIds(Batch(nextId, picked))
    ensures forall k: nat :: k in IdsOf(Batch(nextId, picked)) <==> nextId <= k < nextId + |picked|
  {
    var batch := Batch(nextId, picked);
    forall k | nextId <= k < nextId + |picked|
      ensures k in IdsOf(batch)
    {
      assert batch[k - nextId] in batch;
    }
  }

  /** A round stays in order when further files are recorded. */
  lemma StaysOk(rd: Round, files: map<nat, File>, more: map<nat, File>)
    requires RoundOk(rd, files) && forall k: nat :: k in files ==> k in more && more[k] == files[k]
    ensures RoundOk(rd, more)
  {
  }

  lemma AddKeeps(h: Hook, picked: seq<File>)
    requires HookInv(h) && h.mounted
    ensures HookInv(Add(h, picked))
  {
    if picked != [] {
      hide RoundOk, Recorded, Waits, Holds, Display, Start, Apart;
      var batch := Batch(h.nextId, picked);
      BatchIds(h.nextId, picked);
      RecordedHas(h.files, batch);
      AddedRoundsOk(h, picked);
      AddedApart(h, picked);
      AddedDisplays(h, picked);
    }
  }

  lemma AddedApart(h: Hook, picked: seq<File>)
    requires HookInv(h) && picked != []
    ensures Apart(Add(h, picked).rounds)
  {
    hide RoundOk, Recorded, Waits, Holds, Display, IdsOf, Start, DistinctIds, Kept;
    var batch := Batch(h.nextId, picked);
    var rd := Round(batch, Start(|batch|, UPLOAD_CONCURRENCY));
    BatchIds(h.nextId, picked);
    RecordedHas(h.files, batch);
    StartedRound(batch, Recorded(h.files, batch));
    forall r | 0 <= r < |h.rounds|
      ensures Opens(h.rounds[r]) !! Opens(rd)
    {
      forall id | id in Opens(h.rounds[r])
        ensures id !in Opens(rd)
      {
        OpenIsNumbered(h, r, id);
      }
    }
    hide Opens;
    AppendKeepsApart(h.rounds, rd);
  }

  lemma AddedDisplays(h: Hook, picked: seq<File>)
    requires HookInv(h) && h.mounted && picked != []
    ensures Display(Add(h, picked).items, Add(h, picked).rounds)
  {
    hide RoundOk, Recorded, Waits, Holds, WaitsIn, HeldIn, IdsOf, Start, DistinctIds, Kept, Apart;
    var batch := Batch(h.nextId, picked);
    var g := Add(h, picked);
    var rd := Round(batch, Start(|batch|, UPLOAD_CONCURRENCY));
    BatchIds(h.nextId, picked);
    RecordedHas(h.files, batch);
    StartedRound(batch, g.files);
    forall k | 0 <= k < |g.items|
      ensures g.items[k].status == Queued <==> WaitsIn(g.rounds, k)
      ensures g.items[k].status == Uploading <==> HeldIn(g.rounds, k)
    {
      Appended(h.rounds, rd, k);
      if k >= h.nextId {
        assert g.items[k] == Item(k, Queued);
        NowhereYet(h, k);
      }
    }
  }

  lemma AddedRoundsOk(h: Hook, picked: seq<File>)
    requires HookInv(h) && picked != []
    ensures var g := Add(h, picked); forall r :: 0 <= r < |g.rounds| ==> RoundOk(g.rounds[r], g.files)
  {
    hide RoundOk, Recorded, Waits, Holds, WaitsIn, HeldIn, IdsOf, Start, DistinctIds, Kept;
    var batch := Batch(h.nextId, picked);
    var g := Add(h, picked);
    BatchIds(h.nextId, picked);
    RecordedHas(h.files, batch);
    StartedRound(batch, g.files);
    forall r | 0 <= r < |h.rounds|
      ensures RoundOk(h.rounds[r], g.files)
    {
      StaysOk(h.rounds[r], h.files, g.files);
    }
  }

  lemma NowhereYet(h: Hook, k: nat)
    requires HookInv(h) && k >= h.nextId
    ensures !WaitsIn(h.rounds, k) && !HeldIn(h.rounds, k)
  {
    hide RoundOk, Waits, Holds, Display;
    forall r | 0 <= r < |h.rounds|
      ensures k !in Waits(h.rounds[r]) && k !in Holds(h.rounds[r])
    {
      if k in Opens(h.rounds[r]) {
        OpenIsNumbered(h, r, k);
      }
    }
  }

  // ---------------------------------------------------------------- retrying

  /** The retry list: exactly the failed items, each once, with the file it was added with. */
  lemma {:induction false} FailedEntriesAre(items: seq<Item>, files: map<nat, File>)
    requires forall k :: 0 <= k < |items| ==> items[k].id == k && k in files
    ensures DistinctIds(FailedEntries(items, files)) && Kept(FailedEntries(items, files), files)
    ensures forall k: nat :: k in IdsOf(FailedEntries(items, files)) <==> k < |items| && items[k].status == Error
    decreases |items|
  {
    if items == [] {
      assert IdsOf(FailedEntries(items, files)) == {};
    } else {
      hide IdsOf, DistinctIds;
      var n := |items| - 1;
      var before := FailedEntries(items[..n], files);
      FailedEntriesAre(items[..n], files);
      assert items[n].id == n;
      if items[n].status == Error {
        IdsOfMore(before, Entry(n, files[n]));
        assert FailedEntries(items, files) == before + [Entry(n, files[n])];
      } else {
        assert FailedEntries(items, files) == before;
      }
    }
  }

  ghost predicate AllQuiet(rounds: seq<Round>) {
    forall r :: 0 <= r < |rounds| ==> Opens(rounds[r]) == {}
  }

  /** The "uploading" flag is exact: it is on precisely when some round still has something to do. */
  lemma UploadingIsExact(h: Hook)
    requires HookInv(h) && h.mounted
    ensures IsUploading(h.items) <==> !AllQuiet(h.rounds)
  {
    hide RoundOk, Waits, Holds;
    if r :| 0 <= r < |h.rounds| && Opens(h.rounds[r]) != {} {
      var id :| id in Opens(h.rounds[r]);
      OpenIsNumbered(h, r, id);
      assert WaitsIn(h.rounds, id) || HeldIn(h.rounds, id);
      assert Pending(h.items[id].status);
    }
    if k :| 0 <= k < |h.items| && Pending(h.items[k].status) {
      var r :| 0 <= r < |h.rounds| && (k in Waits(h.rounds[r]) || k in Holds(h.rounds[r]));
      assert k in Opens(h.rounds[r]);
    }
  }

  lemma RetryKeeps(h: Hook)
    requires HookInv(h) && h.mounted && !IsUploading(h.items)
    ensures HookInv(Retry(h))
  {
    hide RoundOk, FailedEntries, Waits, Holds, IdsOf, Start, DistinctIds, Kept;
    UploadingIsExact(h);
    FailedEntriesAre(h.items, h.files);
    var entries := FailedEntries(h.items, h.files);
    if entries != [] {
      var g := Retry(h);
      var rd := Round(entries, Start(|entries|, UPLOAD_CONCURRENCY));
      StartedRound(entries, h.files);
      AppendKeepsApart(h.rounds, rd);
      forall k | 0 <= k < |g.items|
        ensures g.items[k].status == Queued <==> WaitsIn(g.rounds, k)
        ensures g.items[k].status == Uploading <==> HeldIn(g.rounds, k)
      {
        Appended(h.rounds, rd, k);
        assert !Pending(h.items[k].status);
      }
    }
  }

  // ---------------------------------------------------------------- every run

  lemma EventKeeps(h: Hook, e: Event)
    requires HookInv(h) && Enabled(h, e)
    ensures HookInv(Next(h, e))
  {
    hide Add, Retry, TakeTurn;
    match e
    case Adds(picked) => AddKeeps(h, picked);
    case RetryClicked => RetryKeeps(h);
    case Unmounted =>
    case WorkerTurn(r, w, t) => TurnKeeps(h, r, w, t);
  }

  lemma {:induction false} RunsKeep(h: Hook, events: seq<Event>)
    requires HookInv(h) && CanHappen(h, events)
    ensures HookInv(After(h, events))
    decreases |events|
  {
    hide HookInv, Enabled, Next;
    if events != [] {
      EventKeeps(h, events[0]);
      RunsKeep(Next(h, events[0]), events[1..]);
    }
  }

  ghost predicate Reachable(h: Hook) {
    exists events :: CanHappen(FRESH, events) && After(FRESH, events) == h
  }

  lemma ReachableInv(h: Hook)
    requires Reachable(h)
    ensures HookInv(h)
  {
    var events :| CanHappen(FRESH, events) && After(FRESH, events) == h;
    RunsKeep(FRESH, events);
  }

  /** However many pools are at work, no item has two workers, each works on the file the item was
      added with, and no pool has more than three in flight. */
  lemma NoItemHasTwoWorkers(h: Hook, q: nat, r: nat, i: nat, j: nat)
    requires Reachable(h) && q < |h.rounds| && r < |h.rounds|
    requires i in Held(h.rounds[q].pool) && j in Held(h.rounds[r].pool)
    ensures i < |h.rounds[q].entries| && j < |h.rounds[r].entries|
    ensures h.rounds[q].entries[i].id == h.rounds[r].entries[j].id ==> q == r && i == j
    ensures h.rounds[q].entries[i].id in h.files && h.files[h.rounds[q].entries[i].id] == h.rounds[q].entries[i].file
    ensures |Held(h.rounds[q].pool)| <= 3
  {
    ReachableInv(h);
    assert RoundOk(h.rounds[q], h.files) && RoundOk(h.rounds[r], h.files);
    HeldIsTaken(h.rounds[q].pool, i);
    HeldIsTaken(h.rounds[r].pool, j);
    InFlight(h.rounds[q].pool);
    hide Held, Valid;
    assert h.rounds[q].entries[i].id in Opens(h.rounds[q]) && h.rounds[r].entries[j].id in Opens(h.rounds[r]);
    if q < r {
      assert Opens(h.rounds[q]) !! Opens(h.rounds[r]);
    } else if r < q {
      assert Opens(h.rounds[r]) !! Opens(h.rounds[q]);
    }
  }

  /** What is uploaded stays uploaded: no later event, retries included, takes it up again. */
  lemma DoneStaysDone(h: Hook, e: Event, k: nat)
    requires Reachable(h) && Enabled(h, e) && k < |h.items| && h.items[k].status == Done
    ensures k < |Next(h, e).items| && Next(h, e).items[k] == Item(k, Done)
  {
    ReachableInv(h);
    match e
    case Adds(_) =>
    case RetryClicked => FailedEntriesAre(h.items, h.files);
    case Unmounted =>
    case WorkerTurn(r, w, t) =>
      var rd := h.rounds[r];
      assert RoundOk(rd, h.files);
      RoundTurn(rd, h.files, w, t);
      hide RoundOk, Waits, Holds, TurnedRound;
      if h.mounted {
        TurnedItem(h, r, w, t, k);
        assert !WaitsIn(h.rounds, k) && !HeldIn(h.rounds, k);
      }
  }

  // ---------------------------------------------------------------- one round at a time

  /** The page disables the picker while something is uploading. */
  ghost predicate PageLets(h: Hook, e: Event) {
    Enabled(h, e) && (e.Adds? ==> !IsUploading(h.items))
  }

  ghost predicate OnlyLastBusy(rounds: seq<Round>) {
    forall r :: 0 <= r < |rounds| - 1 ==> Opens(rounds[r]) == {}
  }

  lemma PageEventKeeps(h: Hook, e: Event)
    requires HookInv(h) && PageLets(h, e) && OnlyLastBusy(h.rounds)
    ensures OnlyLastBusy(Next(h, e).rounds)
  {
    match e
    case Adds(_) =>
      hide Opens, RoundOk;
      UploadingIsExact(h);
    case RetryClicked =>
      hide Opens, RoundOk;
      UploadingIsExact(h);
    case Unmounted =>
    case WorkerTurn(r, w, t) => TurnKeepsLastBusy(h, r, w, t);
  }

  lemma TurnKeepsLastBusy(h: Hook, r: nat, w: nat, t: Turn)
    requires HookInv(h) && OnlyLastBusy(h.rounds) && CanTurn(h, r, w, t) && Indexed(h)
    ensures OnlyLastBusy(TakeTurn(h, r, w, t).rounds)
  {
    hide RoundOk, Waits, Holds, TurnedRound, Patched;
    var rd := h.rounds[r];
    assert RoundOk(rd, h.files);
    RoundTurn(rd, h.files, w, t);
    assert Opens(TurnedRound(rd, w, t)) <= Opens(rd);
  }

  ghost predicate PageRun(h: Hook, events: seq<Event>)
    decreases |events|
  {
    events == [] || (PageLets(h, events[0]) && PageRun(Next(h, events[0]), events[1..]))
  }

  lemma {:induction false} PageRunsKeep(h: Hook, events: seq<Event>)
    requires HookInv(h) && OnlyLastBusy(h.rounds) && PageRun(h, events)
    ensures CanHappen(h, events)
    ensures HookInv(After(h, events)) && OnlyLastBusy(After(h, events).rounds)
    decreases |events|
  {
    hide HookInv, OnlyLastBusy, Enabled, Next;
    if events != [] {
      EventKeeps(h, events[0]);
      PageEventKeeps(h, events[0]);
      PageRunsKeep(Next(h, events[0]), events[1..]);
    }
  }

  /** Behind the page's guards no two pools are ever at work together, so at most three uploads are
      in flight altogether. */
  lemma OnePoolAtATime(events: seq<Event>, q: nat, r: nat)
    requires PageRun(FRESH, events)
    ensures CanHappen(FRESH, events)
    ensures var rounds := After(FRESH, events).rounds;
            q < r < |rounds| ==> Held(rounds[q].pool) == {} && rounds[q].pool.next == rounds[q].pool.size
    ensures var rounds := After(FRESH, events).rounds;
            r < |rounds| ==> |Held(rounds[r].pool)| <= 3
  {
    PageRunsKeep(FRESH, events);
    var h := After(FRESH, events);
    if r < |h.rounds| {
      assert RoundOk(h.rounds[r], h.files);
      InFlight(h.rounds[r].pool);
      if q < r {
        assert RoundOk(h.rounds[q], h.files) && Opens(h.rounds[q]) == {};
        ClosedIsDone(h.rounds[q], h.files);
      }
    }
  }

  lemma ClosedIsDone(rd: Round, files: map<nat, File>)
    requires RoundOk(rd, files)
    ensures Opens(rd) == {} <==> rd.pool.next == rd.pool.size && Held(rd.pool) == {}
  {
    if rd.pool.next < rd.pool.size {
      assert rd.entries[rd.pool.next].id in Waits(rd);
    } else if i :| i in Held(rd.pool) {
      HeldIsTaken(rd.pool, i);
      assert rd.entries[i].id in Holds(rd);
    }
  }

  // ---------------------------------------------------------------- every round ends

  ghost function Rank(p: Pool): int {
    2 * (p.size - p.next) + |Held(p)| + |Live(p)|
  }

  /** Turns still to be made. */
  ghost function WorkLeft(rounds: seq<Round>): int {
    if rounds == [] then 0 else WorkLeft(rounds[..|rounds| - 1]) + Rank(rounds[|rounds| - 1].pool)
  }

  lemma {:induction false} WorkOfUpdate(rounds: seq<Round>, r: nat, s: Round)
    requires r < |rounds|
    ensures WorkLeft(rounds[r := s]) == WorkLeft(rounds) - Rank(rounds[r].pool) + Rank(s.pool)
    decreases |rounds|
  {
    hide Rank;
    var n := |rounds| - 1;
    if r == n {
      assert rounds[r := s][..n] == rounds[..n];
    } else {
      WorkOfUpdate(rounds[..n], r, s);
      assert rounds[r := s][..n] == rounds[..n][r := s];
    }
  }

  lemma {:induction false} WorkIsNatural(rounds: seq<Round>)
    requires forall r :: 0 <= r < |rounds| ==> rounds[r].pool.next <= rounds[r].pool.size
    ensures WorkLeft(rounds) >= 0
    decreases |rounds|
  {
    if rounds != [] {
      WorkIsNatural(rounds[..|rounds| - 1]);
    }
  }

  lemma RankDrops(p: Pool, w: nat)
    requires Valid(p) && w < |p.workers|
    ensures p.workers[w] == Ready ==> Rank(Pull(p, w)) == Rank(p) - 1
    ensures p.workers[w].Busy? ==> Rank(Finish(p, w)) == Rank(p) - 1
  {
    hide Held, Live, Valid;
    if p.workers[w] == Ready {
      PullKeeps(p, w);
    } else if p.workers[w].Busy? {
      FinishKeeps(p, w);
    }
  }

  lemma TurnDecreasesWork(h: Hook, r: nat, w: nat, t: Turn)
    requires HookInv(h) && CanTurn(h, r, w, t) && Indexed(h)
    ensures WorkLeft(TakeTurn(h, r, w, t).rounds) == WorkLeft(h.rounds) - 1
  {
    hide Valid, Patched, WorkLeft, Rank, Pull, Finish, Apart, Display;
    var rd := h.rounds[r];
    assert RoundOk(rd, h.files);
    RankDrops(rd.pool, w);
    WorkOfUpdate(h.rounds, r, TurnedRound(rd, w, t));
  }

  predicate OnlyTurns(events: seq<Event>) {
    forall e :: e in events ==> e.WorkerTurn?
  }

  /** However the workers of all pools interleave, each turn takes one off the work left, which never
      goes below zero: all rounds end. */
  lemma {:induction false} TurnsAreCounted(h: Hook, events: seq<Event>)
    requires HookInv(h) && CanHappen(h, events) && OnlyTurns(events)
    ensures 0 <= WorkLeft(After(h, events).rounds) == WorkLeft(h.rounds) - |events|
    decreases |events|
  {
    hide HookInv, CanTurn, TakeTurn, WorkLeft;
    if events == [] {
      RoundsBounded(h);
      WorkIsNatural(h.rounds);
    } else {
      var e := events[0];
      assert e in events;
      TurnDecreasesWork(h, e.round, e.worker, e.turn);
      EventKeeps(h, e);
      TurnsAreCounted(Next(h, e), events[1..]);
    }
  }

  lemma RoundsBounded(h: Hook)
    requires HookInv(h)
    ensures forall r :: 0 <= r < |h.rounds| ==> h.rounds[r].pool.next <= h.rounds[r].pool.size
  {
    forall r | 0 <= r < |h.rounds|
      ensures h.rounds[r].pool.next <= h.rounds[r].pool.size
    {
      assert RoundOk(h.rounds[r], h.files);
    }
  }

  function Count(items: seq<Item>, st: Status): nat {
    if items == [] then 0 else (if items[0].status == st then 1 else 0) + Count(items[1..], st)
  }

  /** The summary accounts for every item exactly when nothing is pending. */
  lemma {:induction false} SummaryAddsUp(items: seq<Item>)
    ensures Count(items, Done) + Count(items, Error) <= |items|
    ensures Count(items, Done) + Count(items, Error) == |items| <==> !IsUploading(items)
    decreases |items|
  {
    if items != [] {
      SummaryAddsUp(items[1..]);
      assert forall k :: 0 < k < |items| ==> items[k] == items[1..][k - 1];
      assert IsUploading(items) <==> Pending(items[0].status) || IsUploading(items[1..]);
    }
  }

  ghost predicate Stuck(h: Hook) {
    forall r, w, t :: !CanTurn(h, r, w, t)
  }

  /** When no worker can move, all are uploaded or failed. */
  lemma StuckIsAllSettled(h: Hook)
    requires Reachable(h) && h.mounted && Stuck(h)
    ensures Count(h.items, Done) + Count(h.items, Error) == |h.items|
  {
    ReachableInv(h);
    forall r | 0 <= r < |h.rounds|
      ensures Opens(h.rounds[r]) == {}
    {
      StuckRoundIsDone(h, r);
    }
    UploadingIsExact(h);
    SummaryAddsUp(h.items);
  }

  lemma StuckRoundIsDone(h: Hook, r: nat)
    requires HookInv(h) && r < |h.rounds| && Stuck(h)
    ensures Opens(h.rounds[r]) == {}
  {
    var rd := h.rounds[r];
    assert RoundOk(rd, h.files);
    ClosedIsDone(rd, h.files);
    hide Valid, Held, Opens;
    forall w | 0 <= w < |rd.pool.workers|
      ensures rd.pool.workers[w] == Exited
    {
      assert !CanTurn(h, r, w, Pulls) && !CanTurn(h, r, w, Fails);
    }
    DrainedIsDone(rd.pool);
  }

  // ---------------------------------------------------------------- what adding, retrying and turns leave

  /** A pool over these entries, with nothing taken yet. */
  ghost predicate FreshRound(rd: Round, entries: seq<Entry>) {
    && rd.entries == entries && rd.pool.size == |entries| && rd.pool.next == 0
    && |rd.pool.workers| == (if |entries| <= 3 then |entries| else 3)
    && forall w :: 0 <= w < |rd.pool.workers| ==> rd.pool.workers[w] == Ready
  }

  /** g shows what h shows, and behind it one queued item for each picked file, whose file it retains. */
  ghost predicate Queues(h: Hook, g: Hook, picked: seq<File>) {
    && |g.items| == |h.items| + |picked|
    && (forall k :: 0 <= k < |h.items| ==> g.items[k] == h.items[k])
    && (forall k :: |h.items| <= k < |g.items| ==> g.items[k] == Item(k, Queued))
    && (forall k: nat :: |h.items| <= k < |g.items| ==> k in g.files && g.files[k] == picked[k - |h.items|])
    && (forall k: nat :: k in h.files ==> k in g.files && g.files[k] == h.files[k])
  }

  /** There is one more pool than before, over these entries. */
  ghost predicate Launches(before: seq<Round>, after: seq<Round>, entries: seq<Entry>) {
    |after| == |before| + 1 && after[..|before|] == before && FreshRound(after[|before|], entries)
  }

  lemma RunPoolLaunches(h: Hook, entries: seq<Entry>)
    ensures Launches(h.rounds, RunPool(h, entries).rounds, entries)
  {
    hide Start;
    StartHas(|entries|, UPLOAD_CONCURRENCY);
  }

  lemma HoldingFiles(recorded: map<nat, File>, files: map<nat, File>, n: nat, picked: seq<File>)
    requires Holding(recorded, files, Batch(n, picked)) && forall k: nat :: k in files <==> k < n
    ensures forall k: nat :: n <= k < n + |picked| ==> k in recorded && recorded[k] == picked[k - n]
    ensures forall k: nat :: k in files ==> k in recorded && recorded[k] == files[k]
  {
    BatchIds(n, picked);
    var batch := Batch(n, picked);
    forall k: nat | n <= k < n + |picked|
      ensures k in recorded && recorded[k] == picked[k - n]
    {
      assert batch[k - n] == Entry(k, picked[k - n]);
    }
  }

  lemma QueuesWhen(h: Hook, g: Hook, picked: seq<File>)
    requires g.items == h.items + QueuedItems(Batch(|h.items|, picked))
    requires forall k: nat :: |h.items| <= k < |h.items| + |picked| ==>
               k in g.files && g.files[k] == picked[k - |h.items|]
    requires forall k: nat :: k in h.files ==> k in g.files && g.files[k] == h.files[k]
    ensures Queues(h, g, picked)
  {
  }

  lemma AddIs(h: Hook, picked: seq<File>)
    requires picked != []
    ensures var g, batch := Add(h, picked), Batch(h.nextId, picked);
            && g.items == h.items + QueuedItems(batch) && g.files == Recorded(h.files, batch)
            && g.rounds == RunPool(h, batch).rounds && g.mounted == h.mounted
  {
    hide Recorded, Start, QueuedItems, Batch;
  }

  /** Adding files appends one queued item for each, in order and under a new id, retains the file, and starts
      one more pool, over just these; adding none does nothing. */
  lemma AddQueues(h: Hook, picked: seq<File>)
    requires Reachable(h)
    ensures Queues(h, Add(h, picked), picked) && Add(h, picked).mounted == h.mounted
    ensures if picked == [] then Add(h, picked) == h
            else Launches(h.rounds, Add(h, picked).rounds, Batch(|h.items|, picked))
  {
    hide RoundOk, Display, Recorded, Apart, Holding, Launches, Reachable, Queues, Batch, QueuedItems, Add, RunPool;
    ReachableInv(h);
    if picked == [] {
      AddNothing(h);
    } else {
      var batch := Batch(h.nextId, picked);
      AddIs(h, picked);
      BatchIds(h.nextId, picked);
      RecordedHas(h.files, batch);
      HoldingFiles(Recorded(h.files, batch), h.files, h.nextId, picked);
      RunPoolLaunches(h, batch);
      QueuesWhen(h, Add(h, picked), picked);
    }
  }

  lemma AddNothing(h: Hook)
    ensures Add(h, []) == h && Queues(h, h, [])
  {
  }

  lemma {:induction false} FailedInOrder(items: seq<Item>, files: map<nat, File>)
    requires forall k :: 0 <= k < |items| ==> items[k].id == k && k in files
    ensures forall i :: 0 <= i < |FailedEntries(items, files)| ==> FailedEntries(items, files)[i].id < |items|
    ensures forall i, j :: 0 <= i < j < |FailedEntries(items, files)| ==>
              FailedEntries(items, files)[i].id < FailedEntries(items, files)[j].id
    decreases |items|
  {
    if items != [] {
      FailedInOrder(items[..|items| - 1], files);
    }
  }

  /** A retry queues exactly the failed items again, and starts one more pool over just these, in the order
      of the list and each with its own file; without failed items it does nothing. */
  lemma RetryQueues(h: Hook)
    requires Reachable(h)
    ensures var g, entries := Retry(h), FailedEntries(h.items, h.files);
            && |g.items| == |h.items| && g.files == h.files && g.nextId == h.nextId && g.mounted == h.mounted
            && (forall k :: 0 <= k < |h.items| ==>
                  g.items[k] == if h.items[k].status == Error then Item(k, Queued) else h.items[k])
            && (forall k: nat :: k in IdsOf(entries) <==> k < |h.items| && h.items[k].status == Error)
            && (forall i, j :: 0 <= i < j < |entries| ==> entries[i].id < entries[j].id)
            && (forall i :: 0 <= i < |entries| ==>
                  entries[i].id in h.files && entries[i].file == h.files[entries[i].id])
            && (if entries == [] then g == h else Launches(h.rounds, g.rounds, entries))
  {
    ReachableInv(h);
    hide RoundOk, Display, FailedEntries, IdsOf, Start, Apart, FreshRound, Reachable;
    FailedEntriesAre(h.items, h.files);
    FailedInOrder(h.items, h.files);
    RunPoolLaunches(h, FailedEntries(h.items, h.files));
    NoIds();
  }

  lemma NoIds()
    ensures IdsOf([]) == {}
  {
  }

  /** The worker holds the photo with this id. */
  ghost predicate HoldsId(h: Hook, r: nat, w: nat, id: nat) {
    && r < |h.rounds| && w < |h.rounds[r].pool.workers| && h.rounds[r].pool.workers[w].Busy?
    && h.rounds[r].pool.workers[w].item < |h.rounds[r].entries|
    && h.rounds[r].entries[h.rounds[r].pool.workers[w].item].id == id
  }

  /** While the page is there an item becomes uploaded exactly by the success of the worker that holds it,
      and failed exactly by its failure; nothing else decides an item's outcome. */
  lemma OutcomesComeFromTurns(h: Hook, e: Event, k: nat)
    requires Reachable(h) && Enabled(h, e) && h.mounted && k < |h.items|
    ensures k < |Next(h, e).items|
    ensures Next(h, e).items[k].status == Done
       <==> h.items[k].status == Done || (e.WorkerTurn? && e.turn == Succeeds && HoldsId(h, e.round, e.worker, k))
    ensures Next(h, e).items[k].status == Error
       <==> || (h.items[k].status == Error && !e.RetryClicked?)
            || (e.WorkerTurn? && e.turn == Fails && HoldsId(h, e.round, e.worker, k))
  {
    ReachableInv(h);
    match e {
      case Adds(picked) =>
        hide HookInv, Recorded, Start;
        AddQueues(h, picked);
      case RetryClicked =>
        hide HookInv, FailedEntries, IdsOf, Start;
        RetryQueues(h);
      case Unmounted =>
      case WorkerTurn(r, w, t) => TurnOutcome(h, r, w, t, k);
    }
  }

  lemma TurnOutcome(h: Hook, r: nat, w: nat, t: Turn, k: nat)
    requires HookInv(h) && h.mounted && CanTurn(h, r, w, t) && Indexed(h) && k < |h.items|
    ensures var g := TakeTurn(h, r, w, t);
            && |g.items| == |h.items|
            && (g.items[k].status == Done <==>
                  h.items[k].status == Done || (t == Succeeds && HoldsId(h, r, w, k)))
            && (g.items[k].status == Error <==>
                  h.items[k].status == Error || (t == Fails && HoldsId(h, r, w, k)))
  {
    hide RoundOk, Waits, Holds, Opens, TurnedRound, TakeTurn;
    var rd := h.rounds[r];
    assert RoundOk(rd, h.files);
    RoundTurn(rd, h.files, w, t);
    TurnedItem(h, r, w, t, k);
    if k in MovedId(rd, w, t) {
      assert WaitsIn(h.rounds, k) || HeldIn(h.rounds, k);
    }
  }
}

/**
 * Bulk enrolment of reference photos (frontend/lib/hooks/use-bulk-photo-enroll.ts): a batch of photos
 * goes through a pool of three workers, each photo first uploaded to storage and then attached to
 * its student. The network decides each outcome; any worker may move at any time.
 */
module BulkEnroll {
  import opened Options
  import opened WorkerPool

  type Student = string
  type Path = string

  const CONCURRENCY: nat := 3

  datatype Status = Queued | Uploading | Enrolling | Done(enrolled: bool) | Error

  datatype Input = Input(id: nat, student: Student)

  datatype Item = Item(id: nat, status: Status)

  /** Objects put into the bucket, what became of them, and the reference photo of each student that was
      given one here. A thrown attach means "not attached". */
  datatype Storage = Storage(uploaded: set<Path>, attached: set<Path>, cleaned: set<Path>, photos: map<Student, Path>)

  /** `items` is what the dialog shows and `inputs` the retained handles. `entries`, `pool` and `paths`
      belong to the round in progress; `paths` holds the object of each entry that is enrolling. */
  datatype Hook = Hook(items: seq<Item>, inputs: map<nat, Input>, mounted: bool,
                       entries: seq<Input>, pool: Pool, paths: map<nat, Path>, storage: Storage)

  const FRESH: Hook := Hook([], map[], true, [], Start(0, CONCURRENCY), map[], Storage({}, {}, {}, map[]))

  predicate Settled(st: Status) {
    st.Done? || st.Error?
  }

  predicate HasFailed(st: Status) {
    st == Error || st == Done(false)
  }

  predicate IsRunning(items: seq<Item>) {
    exists k :: 0 <= k < |items| && !Settled(items[k].status)
  }

  // ---------------------------------------------------------------- steps of the hook

  function Patched(items: seq<Item>, id: nat, st: Status): (out: seq<Item>)
    ensures |out| == |items|
    ensures forall k :: 0 <= k < |items| ==> out[k] == if items[k].id == id then Item(id, st) else items[k]
  {
    seq(|items|, k requires 0 <= k < |items| => if items[k].id == id then Item(id, st) else items[k])
  }

  /** `patch`: nothing is shown any more once the dialog has gone. */
  function Patch(h: Hook, id: nat, st: Status): Hook {
    if h.mounted then h.(items := Patched(h.items, id, st)) else h
  }

  function Retained(inputs: map<nat, Input>, batch: seq<Input>): map<nat, Input> {
    if batch == [] then inputs
    else Retained(inputs, batch[..|batch| - 1])[batch[|batch| - 1].id := batch[|batch| - 1]]
  }

  function QueuedItems(batch: seq<Input>): (items: seq<Item>)
    ensures |items| == |batch| && forall k :: 0 <= k < |items| ==> items[k] == Item(batch[k].id, Queued)
  {
    seq(|batch|, k requires 0 <= k < |batch| => Item(batch[k].id, Queued))
  }

  function Begin(h: Hook, items: seq<Item>, entries: seq<Input>): Hook {
    h.(items := items, entries := entries, pool := Start(|entries|, CONCURRENCY), paths := map[])
  }

  /** `run`: a fresh batch replaces the items of the one before. */
  function RunBatch(h: Hook, batch: seq<Input>): Hook {
    if batch == [] then h
    else Begin(h.(inputs := Retained(h.inputs, batch)), QueuedItems(batch), batch)
  }

  /** The retained inputs of the failed items. */
  function FailedInputs(items: seq<Item>, inputs: map<nat, Input>): seq<Input> {
    if items == [] then []
    else
      var it := items[|items| - 1];
      FailedInputs(items[..|items| - 1], inputs)
      + if HasFailed(it.status) && it.id in inputs then [inputs[it.id]] else []
  }

  function IdsOf(entries: seq<Input>): set<nat> {
    set e | e in entries :: e.id
  }

  function Requeued(items: seq<Item>, ids: set<nat>): (out: seq<Item>)
    ensures |out| == |items|
    ensures forall k :: 0 <= k < |items| ==>
              out[k] == if items[k].id in ids then Item(items[k].id, Queued) else items[k]
  {
    seq(|items|, k requires 0 <= k < |items| => if items[k].id in ids then Item(items[k].id, Queued) else items[k])
  }

  /** `retryFailed`. */
  function Retry(h: Hook): Hook {
    var entries := FailedInputs(h.items, h.inputs);
    if entries == [] || !h.mounted then h else Begin(h, Requeued(h.items, IdsOf(entries)), entries)
  }

  /** What can happen to worker w. */
  datatype Turn =
    | Pulls                        // at its loop test: takes the next entry or leaves
    | Uploads(path: Path)          // the upload succeeds with a newly minted object path
    | UploadFails
    | Attaches(enrolled: bool)     // the attach answers; enrolment itself may have failed
    | AttachThrows                 // the attach throws; clean-up of the object is requested

  predicate CanTurn(h: Hook, w: nat, t: Turn) {
    && w < |h.pool.workers|
    && match t
       case Pulls => h.pool.workers[w] == Ready
       case Uploads(path) =>
         h.pool.workers[w].Busy? && h.pool.workers[w].item !in h.paths && path !in h.storage.uploaded
       case UploadFails => h.pool.workers[w].Busy? && h.pool.workers[w].item !in h.paths
       case Attaches(_) => h.pool.workers[w].Busy? && h.pool.workers[w].item in h.paths
       case AttachThrows => h.pool.workers[w].Busy? && h.pool.workers[w].item in h.paths
  }

  ghost predicate Indexed(h: Hook) {
    && h.pool.size == |h.entries| && h.pool.next <= h.pool.size
    && forall w :: 0 <= w < |h.pool.workers| && h.pool.workers[w].Busy? ==> h.pool.workers[w].item < |h.entries|
  }

  function TakeTurn(h: Hook, w: nat, t: Turn): Hook
    requires CanTurn(h, w, t) && Indexed(h)
  {
    match t
    case Pulls =>
      var g := h.(pool := Pull(h.pool, w));
      if h.pool.next < h.pool.size then Patch(g, h.entries[h.pool.next].id, Uploading) else g
    case Uploads(path) =>
      var i := h.pool.workers[w].item;
      Patch(h.(paths := h.paths[i := path], storage := h.storage.(uploaded := h.storage.uploaded + {path})),
            h.entries[i].id, Enrolling)
    case UploadFails =>
      var i := h.pool.workers[w].item;
      Patch(h.(pool := Finish(h.pool, w)), h.entries[i].id, Error)
    case Attaches(enrolled) =>
      var i := h.pool.workers[w].item;
      Patch(h.(pool := Finish(h.pool, w), paths := h.paths - {i},
               storage := h.storage.(attached := h.storage.attached + {h.paths[i]},
                                     photos := h.storage.photos[h.entries[i].student := h.paths[i]])),
            h.entries[i].id, Done(enrolled))
    case AttachThrows =>
      var i := h.pool.workers[w].item;
      Patch(h.(pool := Finish(h.pool, w), paths := h.paths - {i},
               storage := h.storage.(cleaned := h.storage.cleaned + {h.paths[i]})),
            h.entries[i].id, Error)
  }

  // ---------------------------------------------------------------- the invariant

  ghost predicate PoolOk(h: Hook) {
    && Valid(h.pool) && |h.pool.workers| <= CONCURRENCY && h.pool.size == |h.entries|
    && h.paths.Keys <= Held(h.pool)
  }

  /** The entries of a round have different ids and different students. */
  ghost predicate Separate(entries: seq<Input>) {
    forall i, j :: 0 <= i < j < |entries| ==> entries[i].id != entries[j].id && entries[i].student != entries[j].student
  }

  /** The items have different ids, and each has its input retained, all for different students. */
  ghost predicate Filed(items: seq<Item>, inputs: map<nat, Input>) {
    && (forall k, l :: 0 <= k < l < |items| ==> items[k].id != items[l].id)
    && (forall k :: 0 <= k < |items| ==> items[k].id in inputs && inputs[items[k].id].id == items[k].id)
    && (forall k, l :: 0 <= k < l < |items| ==> inputs[items[k].id].student != inputs[items[l].id].student)
  }

  ghost predicate Listed(id: nat, items: seq<Item>) {
    exists k :: 0 <= k < |items| && items[k].id == id
  }

  /** Every entry is the retained input of some item. */
  ghost predicate FromItems(entries: seq<Input>, items: seq<Item>, inputs: map<nat, Input>) {
    forall i :: 0 <= i < |entries| ==>
      entries[i].id in inputs && inputs[entries[i].id] == entries[i] && Listed(entries[i].id, items)
  }

  lemma StillListed(id: nat, items: seq<Item>, more: seq<Item>)
    requires Listed(id, items) && |items| <= |more|
    requires forall k :: 0 <= k < |items| ==> more[k].id == items[k].id
    ensures Listed(id, more)
  {
    var k :| 0 <= k < |items| && items[k].id == id;
    assert more[k].id == id;
  }

  /** What should be shown for entry i. */
  ghost predicate Shows(h: Hook, i: nat, st: Status) {
    if i >= h.pool.next then st == Queued
    else if i in Held(h.pool) then st == if i in h.paths then Enrolling else Uploading
    else Settled(st)
  }

  /** The shown items agree with the pool; those outside the round are settled. */
  ghost predicate Display(h: Hook) {
    && (forall i, k :: 0 <= i < |h.entries| && 0 <= k < |h.items| && h.items[k].id == h.entries[i].id ==>
          Shows(h, i, h.items[k].status))
    && (forall k :: 0 <= k < |h.items| && h.items[k].id !in IdsOf(h.entries) ==> Settled(h.items[k].status))
  }

  /** Every uploaded object is exactly one of attached, given up for clean-up, or held by an enrolling entry. */
  ghost predicate Conserved(h: Hook) {
    && h.storage.attached !! h.storage.cleaned
    && (forall i :: i in h.paths ==> h.paths[i] !in h.storage.attached && h.paths[i] !in h.storage.cleaned)
    && (forall i, j :: i in h.paths && j in h.paths && i != j ==> h.paths[i] != h.paths[j])
    && h.storage.uploaded == h.storage.attached + h.storage.cleaned + h.paths.Values
  }

  ghost predicate HookInv(h: Hook) {
    && PoolOk(h) && Separate(h.entries) && Filed(h.items, h.inputs) && FromItems(h.entries, h.items, h.inputs)
    && (h.mounted ==> Display(h))
    && Conserved(h)
  }

  /** The round is over: every entry was taken and none is held. */
  ghost predicate Quiet(h: Hook) {
    h.pool.next == h.pool.size && Held(h.pool) == {}
  }

  lemma InvIndexed(h: Hook)
    requires PoolOk(h)
    ensures Indexed(h)
  {
  }

  // ---------------------------------------------------------------- turns keep the invariant

  lemma TurnConserves(h: Hook, w: nat, t: Turn)
    requires PoolOk(h) && Conserved(h) && CanTurn(h, w, t) && Indexed(h)
    ensures Conserved(TakeTurn(h, w, t))
  {
    hide Held, Valid, Patched, Pull, Finish;
    var g := TakeTurn(h, w, t);
    match t
    case Pulls =>
      assert g.storage == h.storage && g.paths == h.paths;
    case Uploads(path) =>
      var i := h.pool.workers[w].item;
      assert g.paths == h.paths[i := path];
      AddedValue(h.paths, i, path);
    case UploadFails =>
      assert g.storage == h.storage && g.paths == h.paths;
    case Attaches(_) =>
      var i := h.pool.workers[w].item;
      assert g.paths == h.paths - {i};
      RemovedValue(h.paths, i);
    case AttachThrows =>
      var i := h.pool.workers[w].item;
      assert g.paths == h.paths - {i};
      RemovedValue(h.paths, i);
  }

  lemma AddedValue(m: map<nat, Path>, i: nat, path: Path)
    requires i !in m
    ensures m[i := path].Values == m.Values + {path}
  {
    var n := m[i := path];
    assert forall j :: j in m ==> n[j] == m[j];
    assert n[i] == path;
  }

  lemma RemovedValue(m: map<nat, Path>, i: nat)
    requires i in m && forall j :: j in m && j != i ==> m[j] != m[i]
    ensures (m - {i}).Values == m.Values - {m[i]}
  {
    var n := m - {i};
    assert forall j :: j in m && j != i ==> j in n && n[j] == m[j];
  }

  lemma TurnKeepsPool(h: Hook, w: nat, t: Turn)
    requires PoolOk(h) && CanTurn(h, w, t) && Indexed(h)
    ensures var g := TakeTurn(h, w, t);
            PoolOk(g) && g.entries == h.entries && g.inputs == h.inputs && g.mounted == h.mounted
  {
    hide Held, Valid, Patched;
    if t.Pulls? {
      PullKeeps(h.pool, w);
    } else {
      FinishKeeps(h.pool, w);
    }
  }

  /** The items before and after differ at most in the status of one id. */
  lemma TurnPatches(h: Hook, w: nat, t: Turn)
    requires PoolOk(h) && CanTurn(h, w, t) && Indexed(h)
    ensures |TakeTurn(h, w, t).items| == |h.items|
    ensures forall k :: 0 <= k < |h.items| ==> TakeTurn(h, w, t).items[k].id == h.items[k].id
  {
    hide Held, Valid, Pull, Finish;
  }

  /** The entry a turn is about, if it moves one. */
  ghost function Moved(h: Hook, w: nat, t: Turn): Option<nat>
    requires CanTurn(h, w, t) && Indexed(h)
  {
    if t.Pulls? then (if h.pool.next < h.pool.size then Some(h.pool.next) else None)
    else Some(h.pool.workers[w].item)
  }

  lemma TurnShows(h: Hook, w: nat, t: Turn, i: nat, st: Status)
    requires PoolOk(h) && CanTurn(h, w, t) && Indexed(h) && i < |h.entries| && Moved(h, w, t) != Some(i)
    requires Shows(h, i, st)
    ensures Shows(TakeTurn(h, w, t), i, st)
  {
    hide Held, Valid, Patched;
    if t.Pulls? {
      PullKeeps(h.pool, w);
    } else {
      FinishKeeps(h.pool, w);
    }
  }

  lemma MovedShows(h: Hook, w: nat, t: Turn, k: nat)
    requires PoolOk(h) && CanTurn(h, w, t) && Indexed(h) && h.mounted && k < |h.items|
    requires Moved(h, w, t).Some? && h.items[k].id == h.entries[Moved(h, w, t).value].id
    ensures var g := TakeTurn(h, w, t); |g.items| == |h.items| && Shows(g, Moved(h, w, t).value, g.items[k].status)
  {
    hide Held, Valid;
    if t.Pulls? {
      PullKeeps(h.pool, w);
    } else {
      FinishKeeps(h.pool, w);
    }
  }

  lemma OthersUntouched(h: Hook, w: nat, t: Turn, k: nat)
    requires PoolOk(h) && CanTurn(h, w, t) && Indexed(h) && k < |h.items|
    requires Moved(h, w, t).Some? ==> h.items[k].id != h.entries[Moved(h, w, t).value].id
    ensures var g := TakeTurn(h, w, t); |g.items| == |h.items| && g.items[k] == h.items[k]
  {
    hide Held, Valid, Pull, Finish;
  }

  lemma TurnDisplays(h: Hook, w: nat, t: Turn)
    requires PoolOk(h) && Separate(h.entries) && h.mounted && Display(h) && CanTurn(h, w, t) && Indexed(h)
    ensures Display(TakeTurn(h, w, t))
  {
    hide TakeTurn, Shows, PoolOk;
    var g := TakeTurn(h, w, t);
    TurnKeepsPool(h, w, t);
    TurnPatches(h, w, t);
    assert Moved(h, w, t).Some? ==> Moved(h, w, t).value < |h.entries| && h.entries[Moved(h, w, t).value] in h.entries;
    forall i, k | 0 <= i < |g.entries| && 0 <= k < |g.items| && g.items[k].id == g.entries[i].id
      ensures Shows(g, i, g.items[k].status)
    {
      assert h.items[k].id == h.entries[i].id;
      if Moved(h, w, t) == Some(i) {
        MovedShows(h, w, t, k);
      } else {
        OthersUntouched(h, w, t, k);
        TurnShows(h, w, t, i, h.items[k].status);
      }
    }
    forall k | 0 <= k < |g.items| && g.items[k].id !in IdsOf(g.entries)
      ensures Settled(g.items[k].status)
    {
      OthersUntouched(h, w, t, k);
    }
  }

  lemma TurnKeeps(h: Hook, w: nat, t: Turn)
    requires HookInv(h) && CanTurn(h, w, t) && Indexed(h)
    ensures HookInv(TakeTurn(h, w, t))
  {
    hide TakeTurn, CanTurn, Conserved, Display, PoolOk;
    TurnKeepsPool(h, w, t);
    TurnPatches(h, w, t);
    TurnConserves(h, w, t);
    forall i | 0 <= i < |h.entries|
      ensures Listed(h.entries[i].id, TakeTurn(h, w, t).items)
    {
      StillListed(h.entries[i].id, h.items, TakeTurn(h, w, t).items);
    }
    if h.mounted {
      TurnDisplays(h, w, t);
    }
  }

  // ---------------------------------------------------------------- rounds keep the invariant

  lemma QuietHasNoPaths(h: Hook)
    requires PoolOk(h) && Quiet(h)
    ensures h.paths == map[]
  {
    hide Held;
  }

  lemma BeginKeeps(h: Hook, items: seq<Item>, entries: seq<Input>)
    requires PoolOk(h) && Conserved(h) && Quiet(h) && h.mounted
    requires Separate(entries) && Filed(items, h.inputs) && FromItems(entries, items, h.inputs)
    requires forall k :: 0 <= k < |items| ==>
               if items[k].id in IdsOf(entries) then items[k].status == Queued else Settled(items[k].status)
    ensures HookInv(Begin(h, items, entries))
  {
    hide Held, Valid, Filed, Separate, FromItems;
    var g := Begin(h, items, entries);
    QuietHasNoPaths(h);
    StartIsValid(|entries|, CONCURRENCY);
    forall i, k | 0 <= i < |g.entries| && 0 <= k < |g.items| && g.items[k].id == g.entries[i].id
      ensures Shows(g, i, g.items[k].status)
    {
      assert entries[i] in entries;
    }
    assert g.paths.Values == {};
  }

  lemma {:induction false} RetainedHas(inputs: map<nat, Input>, batch: seq<Input>)
    requires forall i, j :: 0 <= i < j < |batch| ==> batch[i].id != batch[j].id
    ensures forall i :: 0 <= i < |batch| ==>
              batch[i].id in Retained(inputs, batch) && Retained(inputs, batch)[batch[i].id] == batch[i]
    decreases |batch|
  {
    if batch != [] {
      RetainedHas(inputs, batch[..|batch| - 1]);
    }
  }

  /** A batch may start whenever the round before is over. */
  lemma RunKeeps(h: Hook, batch: seq<Input>)
    requires HookInv(h) && h.mounted && Quiet(h) && Separate(batch)
    ensures HookInv(RunBatch(h, batch))
  {
    if batch != [] {
      hide Held, Valid, Conserved, Display;
      RetainedHas(h.inputs, batch);
      var g := h.(inputs := Retained(h.inputs, batch));
      var items := QueuedItems(batch);
      forall k | 0 <= k < |items|
        ensures items[k].id in IdsOf(batch)
      {
        assert batch[k] in batch;
      }
      assert FromItems(batch, items, g.inputs) by {
        forall i | 0 <= i < |batch|
          ensures Listed(batch[i].id, items)
        {
          assert items[i].id == batch[i].id;
        }
      }
      SameConserved(h, g);
      BeginKeeps(g, items, batch);
    }
  }

  lemma SameConserved(h: Hook, g: Hook)
    requires Conserved(h) && g.paths == h.paths && g.storage == h.storage
    ensures Conserved(g)
  {
  }

  /** e is the input of a failed item. */
  ghost predicate Failing(e: Input, items: seq<Item>, inputs: map<nat, Input>) {
    exists k :: 0 <= k < |items| && HasFailed(items[k].status) && items[k].id in inputs && inputs[items[k].id] == e
  }

  lemma {:induction false} FailedMembers(items: seq<Item>, inputs: map<nat, Input>)
    ensures forall e :: e in FailedInputs(items, inputs) <==> Failing(e, items, inputs)
    decreases |items|
  {
    if items != [] {
      var n := |items| - 1;
      FailedMembers(items[..n], inputs);
      forall e
        ensures e in FailedInputs(items, inputs) <==> Failing(e, items, inputs)
      {
        if Failing(e, items[..n], inputs) {
          var k :| 0 <= k < n && HasFailed(items[..n][k].status)
                   && items[..n][k].id in inputs && inputs[items[..n][k].id] == e;
          assert items[k] == items[..n][k];
        }
        if Failing(e, items, inputs) {
          var k :| 0 <= k <= n && HasFailed(items[k].status) && items[k].id in inputs && inputs[items[k].id] == e;
          assert k < n ==> items[..n][k] == items[k];
        }
      }
    }
  }

  lemma {:induction false} FailedAreSeparate(items: seq<Item>, inputs: map<nat, Input>)
    requires Filed(items, inputs)
    ensures Separate(FailedInputs(items, inputs))
    decreases |items|
  {
    if items != [] {
      var n := |items| - 1;
      var front, before := items[..n], FailedInputs(items[..n], inputs);
      FailedAreSeparate(front, inputs);
      FailedMembers(front, inputs);
      forall i | 0 <= i < |before|
        ensures before[i].id != items[n].id && before[i].student != inputs[items[n].id].student
      {
        assert before[i] in before && Failing(before[i], front, inputs);
        var k :| 0 <= k < n && HasFailed(front[k].status) && front[k].id in inputs && inputs[front[k].id] == before[i];
        assert items[k] == front[k];
      }
    }
  }

  /** The retry list: the inputs of exactly the failed items, each once. */
  lemma FailedInputsAre(items: seq<Item>, inputs: map<nat, Input>)
    requires Filed(items, inputs)
    ensures var entries := FailedInputs(items, inputs);
            && Separate(entries) && FromItems(entries, items, inputs)
            && forall k :: 0 <= k < |items| ==> (items[k].id in IdsOf(entries) <==> HasFailed(items[k].status))
  {
    hide FailedInputs, Separate;
    var entries := FailedInputs(items, inputs);
    FailedMembers(items, inputs);
    FailedAreSeparate(items, inputs);
    forall i | 0 <= i < |entries|
      ensures entries[i].id in inputs && inputs[entries[i].id] == entries[i] && Listed(entries[i].id, items)
    {
      assert entries[i] in entries;
    }
    forall k | 0 <= k < |items|
      ensures items[k].id in IdsOf(entries) <==> HasFailed(items[k].status)
    {
      if HasFailed(items[k].status) {
        assert Failing(inputs[items[k].id], items, inputs);
        assert inputs[items[k].id] in entries;
      }
    }
  }

  /** A retry may start whenever the round before is over. */
  lemma RetryKeeps(h: Hook)
    requires HookInv(h) && h.mounted && Quiet(h)
    ensures HookInv(Retry(h))
  {
    hide Held, Valid, Conserved, FailedInputs;
    FailedInputsAre(h.items, h.inputs);
    var entries := FailedInputs(h.items, h.inputs);
    if entries != [] {
      var items := Requeued(h.items, IdsOf(entries));
      SettledWhenQuiet(h);
      assert FromItems(entries, items, h.inputs) by {
        forall i | 0 <= i < |entries|
          ensures Listed(entries[i].id, items)
        {
          StillListed(entries[i].id, h.items, items);
        }
      }
      BeginKeeps(h, items, entries);
    }
  }

  lemma SettledWhenQuiet(h: Hook)
    requires HookInv(h) && h.mounted && Quiet(h)
    ensures !IsRunning(h.items)
  {
    hide Held, Valid, Conserved;
    forall k | 0 <= k < |h.items|
      ensures Settled(h.items[k].status)
    {
      if h.items[k].id in IdsOf(h.entries) {
        var e :| e in h.entries && e.id == h.items[k].id;
        var i :| 0 <= i < |h.entries| && h.entries[i] == e;
        assert Shows(h, i, h.items[k].status);
      }
    }
  }

  /** The dialog's "running" flag is exact: it is off precisely when the pool has nothing left to do. */
  lemma RunningIsExact(h: Hook)
    requires HookInv(h) && h.mounted
    ensures IsRunning(h.items) <==> !Quiet(h)
  {
    if Quiet(h) {
      SettledWhenQuiet(h);
    } else {
      hide Valid, Conserved;
      var i: nat :| i < |h.entries| && (i >= h.pool.next || i in Held(h.pool)) by {
        if h.pool.next < h.pool.size {
          assert h.pool.next < |h.entries|;
        } else {
          var j :| j in Held(h.pool);
          HeldIsTaken(h.pool, j);
        }
      }
      assert Listed(h.entries[i].id, h.items);
      var k :| 0 <= k < |h.items| && h.items[k].id == h.entries[i].id;
      assert Shows(h, i, h.items[k].status);
    }
  }

  function Count(items: seq<Item>, f: Status -> bool): nat {
    if items == [] then 0 else (if f(items[0].status) then 1 else 0) + Count(items[1..], f)
  }

  /** The summary line adds up: what is done is enrolled or failed, and all is done once idle. */
  lemma {:induction false} SummaryAddsUp(items: seq<Item>)
    ensures Count(items, st => st == Done(true)) + Count(items, HasFailed) == Count(items, Settled)
    ensures Count(items, Settled) <= |items|
    ensures Count(items, Settled) == |items| <==> !IsRunning(items)
    decreases |items|
  {
    if items != [] {
      SummaryAddsUp(items[1..]);
      assert forall k :: 0 < k < |items| ==> items[k] == items[1..][k - 1];
      assert IsRunning(items) <==> !Settled(items[0].status) || IsRunning(items[1..]);
    }
  }

  // ---------------------------------------------------------------- whole rounds

  datatype Move = Move(worker: nat, turn: Turn)

  ghost predicate CanRun(h: Hook, moves: seq<Move>)
    decreases |moves|
  {
    moves == [] || (Indexed(h) && CanTurn(h, moves[0].worker, moves[0].turn)
                    && CanRun(TakeTurn(h, moves[0].worker, moves[0].turn), moves[1..]))
  }

  ghost function AfterRun(h: Hook, moves: seq<Move>): Hook
    requires CanRun(h, moves)
    decreases |moves|
  {
    if moves == [] then h else AfterRun(TakeTurn(h, moves[0].worker, moves[0].turn), moves[1..])
  }

  function TakenNow(h: Hook, m: Move): seq<nat> {
    if m.turn.Pulls? && h.pool.next < h.pool.size then [h.pool.next] else []
  }

  function EndedNow(h: Hook, m: Move): seq<nat>
    requires CanTurn(h, m.worker, m.turn)
  {
    if m.turn.Pulls? || m.turn.Uploads? then [] else [h.pool.workers[m.worker].item]
  }

  /** The entries taken by some worker, in order. */
  ghost function Taken(h: Hook, moves: seq<Move>): seq<nat>
    requires CanRun(h, moves)
    decreases |moves|
  {
    if moves == [] then []
    else TakenNow(h, moves[0]) + Taken(TakeTurn(h, moves[0].worker, moves[0].turn), moves[1..])
  }

  /** The entries brought to an end, in order. */
  ghost function Ended(h: Hook, moves: seq<Move>): seq<nat>
    requires CanRun(h, moves)
    decreases |moves|
  {
    if moves == [] then []
    else EndedNow(h, moves[0]) + Ended(TakeTurn(h, moves[0].worker, moves[0].turn), moves[1..])
  }

  lemma MoveBalances(h: Hook, m: Move)
    requires PoolOk(h) && CanTurn(h, m.worker, m.turn) && Indexed(h)
    ensures var g := TakeTurn(h, m.worker, m.turn);
            && PoolOk(g) && g.pool.size == h.pool.size
            && g.pool.next == h.pool.next + |TakenNow(h, m)|
            && (forall k :: 0 <= k < |TakenNow(h, m)| ==> TakenNow(h, m)[k] == h.pool.next + k)
            && multiset(EndedNow(h, m)) + multiset(Held(g.pool)) == multiset(Held(h.pool)) + multiset(TakenNow(h, m))
  {
    hide Held, Valid, Patched;
    TurnKeepsPool(h, m.worker, m.turn);
    if m.turn.Pulls? {
      PullKeeps(h.pool, m.worker);
      if h.pool.next < h.pool.size {
        assert multiset(Held(h.pool) + {h.pool.next}) == multiset(Held(h.pool)) + multiset{h.pool.next};
      }
    } else if !m.turn.Uploads? {
      FinishKeeps(h.pool, m.worker);
      var i := h.pool.workers[m.worker].item;
      assert multiset(Held(h.pool) - {i}) + multiset{i} == multiset(Held(h.pool));
    }
  }

  lemma Chain(e: seq<nat>, e': seq<nat>, t: seq<nat>, t': seq<nat>,
              a: multiset<nat>, b: multiset<nat>, c: multiset<nat>)
    requires multiset(e) + b == a + multiset(t) && multiset(e') + c == b + multiset(t')
    ensures multiset(e + e') + c == a + multiset(t + t')
  {
    calc {
      multiset(e + e') + c;
      multiset(e) + (multiset(e') + c);
      multiset(e) + b + multiset(t');
      a + multiset(t) + multiset(t');
      a + multiset(t + t');
    }
  }

  lemma {:induction false} TakenInOrder(h: Hook, moves: seq<Move>)
    requires PoolOk(h) && CanRun(h, moves)
    ensures AfterRun(h, moves).pool.next == h.pool.next + |Taken(h, moves)|
    ensures forall k :: 0 <= k < |Taken(h, moves)| ==> Taken(h, moves)[k] == h.pool.next + k
    decreases |moves|
  {
    if moves != [] {
      hide TakeTurn, CanTurn, Held, PoolOk, TakenNow, EndedNow;
      MoveBalances(h, moves[0]);
      TakenInOrder(TakeTurn(h, moves[0].worker, moves[0].turn), moves[1..]);
    }
  }

  lemma {:induction false} EndedOrHeld(h: Hook, moves: seq<Move>)
    requires PoolOk(h) && CanRun(h, moves)
    ensures multiset(Ended(h, moves)) + multiset(Held(AfterRun(h, moves).pool))
         == multiset(Held(h.pool)) + multiset(Taken(h, moves))
    decreases |moves|
  {
    if moves != [] {
      hide TakeTurn, CanTurn, Held, PoolOk, TakenNow, EndedNow;
      var m, rest := moves[0], moves[1..];
      var g := TakeTurn(h, m.worker, m.turn);
      MoveBalances(h, m);
      EndedOrHeld(g, rest);
      Chain(EndedNow(h, m), Ended(g, rest), TakenNow(h, m), Taken(g, rest),
            multiset(Held(h.pool)), multiset(Held(g.pool)), multiset(Held(AfterRun(g, rest).pool)));
    }
  }

  /** In any run, entries are taken strictly in order, none is skipped or taken again, and every entry
      taken or held at the start is ended exactly once or still held. */
  lemma EachOnce(h: Hook, moves: seq<Move>)
    requires PoolOk(h) && CanRun(h, moves)
    ensures var g := AfterRun(h, moves);
            && g.pool.next == h.pool.next + |Taken(h, moves)|
            && (forall k :: 0 <= k < |Taken(h, moves)| ==> Taken(h, moves)[k] == h.pool.next + k)
            && multiset(Ended(h, moves)) + multiset(Held(g.pool)) == multiset(Held(h.pool)) + multiset(Taken(h, moves))
  {
    hide *;
    TakenInOrder(h, moves);
    EndedOrHeld(h, moves);
  }

  /** Turns still to be made at most. */
  ghost function Rank(h: Hook): int {
    3 * (h.pool.size - h.pool.next) + 2 * |Held(h.pool)| - |h.paths| + |Live(h.pool)|
  }

  lemma RankIsNatural(h: Hook)
    requires PoolOk(h)
    ensures Rank(h) >= 0
  {
    hide Held, Live, Valid;
    SubsetSize(h.paths.Keys, Held(h.pool));
    assert |h.paths| == |h.paths.Keys|;
    InvIndexed(h);
  }

  lemma SubsetSize<T>(a: set<T>, b: set<T>)
    requires a <= b
    ensures |a| <= |b|
  {
    assert b == a + (b - a);
  }

  lemma MapSizes(m: map<nat, Path>, i: nat, path: Path)
    ensures i in m ==> |m - {i}| == |m| - 1
    ensures i !in m ==> |m[i := path]| == |m| + 1
  {
    assert |m| == |m.Keys| && |m - {i}| == |(m - {i}).Keys| && |m[i := path]| == |m[i := path].Keys|;
    assert (m - {i}).Keys == m.Keys - {i} && m[i := path].Keys == m.Keys + {i};
  }

  /** What one step of a worker does to the pool's share of the rank. */
  lemma PoolShare(p: Pool, w: nat)
    requires Valid(p) && w < |p.workers|
    ensures p.workers[w] == Ready ==>
              3 * (p.size - Pull(p, w).next) + 2 * |Held(Pull(p, w))| + |Live(Pull(p, w))|
              < 3 * (p.size - p.next) + 2 * |Held(p)| + |Live(p)|
    ensures p.workers[w].Busy? ==>
              2 * |Held(Finish(p, w))| + |Live(Finish(p, w))| == 2 * |Held(p)| + |Live(p)| - 2
  {
    hide Held, Live, Valid;
    if p.workers[w] == Ready {
      PullKeeps(p, w);
    } else if p.workers[w].Busy? {
      FinishKeeps(p, w);
    }
  }

  lemma TurnDecreasesRank(h: Hook, w: nat, t: Turn)
    requires PoolOk(h) && CanTurn(h, w, t) && Indexed(h)
    ensures Rank(TakeTurn(h, w, t)) < Rank(h)
  {
    hide Held, Live, Valid, Patched;
    PoolShare(h.pool, w);
    if !t.Pulls? {
      MapSizes(h.paths, h.pool.workers[w].item, if t.Uploads? then t.path else "");
    }
  }

  /** No run of a round is longer than its rank: every round ends. */
  lemma {:induction false} RunsEnd(h: Hook, moves: seq<Move>)
    requires PoolOk(h) && CanRun(h, moves)
    ensures |moves| <= Rank(h)
    decreases |moves|
  {
    hide Rank, TakeTurn, CanTurn, PoolOk;
    RankIsNatural(h);
    if moves != [] {
      var m := moves[0];
      assert CanTurn(h, m.worker, m.turn) && Indexed(h);
      TurnDecreasesRank(h, m.worker, m.turn);
      TurnKeepsPool(h, m.worker, m.turn);
      RunsEnd(TakeTurn(h, m.worker, m.turn), moves[1..]);
    }
  }

  /** A round that can go no further is over: all workers have left and nothing is held. */
  lemma StuckIsQuiet(h: Hook)
    requires PoolOk(h) && forall w, t :: !CanTurn(h, w, t)
    ensures Drained(h.pool) && Quiet(h)
  {
    hide Held, Valid;
    forall w | 0 <= w < |h.pool.workers|
      ensures h.pool.workers[w] == Exited
    {
      assert !CanTurn(h, w, Pulls) && !CanTurn(h, w, UploadFails) && !CanTurn(h, w, AttachThrows);
    }
    DrainedIsDone(h.pool);
  }

  /** The entries of a round of n, by index. */
  function Indices(n: nat): (all: seq<nat>)
    ensures |all| == n && forall k :: 0 <= k < n ==> all[k] == k
  {
    seq(n, i => i)
  }

  lemma RankAtStart(h: Hook, items: seq<Item>, entries: seq<Input>)
    ensures var start := Begin(h, items, entries);
            PoolOk(start) && Held(start.pool) == {} && Rank(start) <= 3 * |entries| + 3
  {
    var start := Begin(h, items, entries);
    StartIsValid(|entries|, CONCURRENCY);
    LiveSize(start.pool, |start.pool.workers|);
  }

  /** From its start, a round of n photos takes each of them exactly once and, as soon as it is over, has
      ended each of them exactly once, after at most 3n + 3 turns; workers need not have left by then. */
  lemma {:induction false} WholeRound(h: Hook, items: seq<Item>, entries: seq<Input>, moves: seq<Move>)
    requires CanRun(Begin(h, items, entries), moves)
    requires Quiet(AfterRun(Begin(h, items, entries), moves))
    ensures var start := Begin(h, items, entries);
            && |moves| <= 3 * |entries| + 3
            && Taken(start, moves) == Indices(|entries|)
            && multiset(Ended(start, moves)) == multiset(Indices(|entries|))
  {
    hide Held, PoolOk, Rank;
    var start := Begin(h, items, entries);
    RankAtStart(h, items, entries);
    EachOnce(start, moves);
    RunsEnd(start, moves);
    RunKeepsPool(start, moves);
    AllInOrder(|entries|, Taken(start, moves));
    NothingHeld(multiset(Ended(start, moves)), multiset(Taken(start, moves)),
                Held(start.pool), Held(AfterRun(start, moves).pool));
  }

  lemma NothingHeld(ended: multiset<nat>, taken: multiset<nat>, before: set<nat>, after: set<nat>)
    requires before == after == {} && ended + multiset(after) == multiset(before) + taken
    ensures ended == taken
  {
    assert multiset(before) == multiset{} && multiset(after) == multiset{};
    assert ended + multiset{} == ended && multiset{} + taken == taken;
  }

  lemma AllInOrder(n: nat, taken: seq<nat>)
    requires |taken| == n && forall k :: 0 <= k < n ==> taken[k] == k
    ensures taken == Indices(n)
  {
  }

  lemma {:induction false} RunKeepsPool(h: Hook, moves: seq<Move>)
    requires PoolOk(h) && CanRun(h, moves)
    ensures PoolOk(AfterRun(h, moves)) && AfterRun(h, moves).pool.size == h.pool.size
    decreases |moves|
  {
    if moves != [] {
      TurnKeepsPool(h, moves[0].worker, moves[0].turn);
      RunKeepsPool(TakeTurn(h, moves[0].worker, moves[0].turn), moves[1..]);
    }
  }

  lemma {:induction false} LiveSize(p: Pool, n: nat)
    requires n <= |p.workers|
    ensures |set w | 0 <= w < n && p.workers[w] != Exited| <= n
    decreases n
  {
    var s := set w | 0 <= w < n && p.workers[w] != Exited;
    if n == 0 {
      assert s == {};
    } else {
      LiveSize(p, n - 1);
      var r := set w | 0 <= w < n - 1 && p.workers[w] != Exited;
      assert s <= r + {n - 1};
      SubsetSize(s, r + {n - 1});
    }
  }
}

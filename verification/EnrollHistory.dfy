/**
 * What the bulk-photo hook shows and has stored, told from the events alone: which worker uploaded which
 * object, which photo it had taken, and the turn by which it ended it. Nothing here looks at how a turn
 * changes the hook.
 */
module EnrollHistory {
  import opened WorkerPool
  import opened BulkEnroll
  import S = PhotoSession

  predicate ByWorker(e: S.Event, w: nat) {
    e.WorkerTurn? && e.worker == w
  }

  // ---------------------------------------------------------------- runs, one event longer

  lemma {:induction false} OneMore(s: S.Session, events: seq<S.Event>, e: S.Event)
    requires S.CanHappen(s, events) && S.Enabled(S.After(s, events), e)
    ensures S.CanHappen(s, events + [e])
    ensures S.After(s, events + [e]) == S.Next(S.After(s, events), e)
    decreases |events|
  {
    hide S.Enabled, S.Next;
    if events == [] {
      assert [] + [e] == [e] && [e][1..] == [];
    } else {
      assert (events + [e])[1..] == events[1..] + [e];
      OneMore(S.Next(s, events[0]), events[1..], e);
    }
  }

  lemma {:induction false} OneLess(s: S.Session, events: seq<S.Event>, e: S.Event)
    requires S.CanHappen(s, events + [e])
    ensures S.CanHappen(s, events) && S.Enabled(S.After(s, events), e)
    decreases |events|
  {
    hide S.Enabled, S.Next;
    if events != [] {
      assert (events + [e])[1..] == events[1..] + [e];
      OneLess(S.Next(s, events[0]), events[1..], e);
    }
  }

  // ---------------------------------------------------------------- stored objects

  /** At i, before j, the worker has its last turn so far. */
  ghost predicate LastTurn(events: seq<S.Event>, w: nat, i: nat, j: nat) {
    && i < j <= |events| && ByWorker(events[i], w)
    && forall k :: i < k < j ==> !ByWorker(events[k], w)
  }

  /** The last thing the worker did before j was to upload this object. */
  ghost predicate HasUploaded(events: seq<S.Event>, w: nat, path: Path, j: nat) {
    exists i: nat :: LastTurn(events, w, i, j) && events[i].turn == Uploads(path)
  }

  ghost predicate UploadedIn(events: seq<S.Event>, path: Path) {
    exists j :: 0 <= j < |events| && events[j].WorkerTurn? && events[j].turn == Uploads(path)
  }

  /** Some worker uploaded the object, and its attach then answered. */
  ghost predicate AttachedIn(events: seq<S.Event>, path: Path) {
    exists j :: 0 <= j < |events| && events[j].WorkerTurn? && events[j].turn.Attaches?
                && HasUploaded(events, events[j].worker, path, j)
  }

  /** Some worker uploaded the object, and its attach then threw. */
  ghost predicate OrphanedIn(events: seq<S.Event>, path: Path) {
    exists j :: 0 <= j < |events| && events[j].WorkerTurn? && events[j].turn.AttachThrows?
                && HasUploaded(events, events[j].worker, path, j)
  }

  /** A worker that holds an enrolling photo has just uploaded its object. */
  ghost predicate Carries(h: Hook, events: seq<S.Event>) {
    forall w :: 0 <= w < |h.pool.workers| && h.pool.workers[w].Busy? && h.pool.workers[w].item in h.paths ==>
      HasUploaded(events, w, h.paths[h.pool.workers[w].item], |events|)
  }

  ghost predicate StoredAsTold(h: Hook, events: seq<S.Event>) {
    && (forall path :: path in h.storage.uploaded <==> UploadedIn(events, path))
    && (forall path :: path in h.storage.attached <==> AttachedIn(events, path))
    && (forall path :: path in h.storage.cleaned <==> OrphanedIn(events, path))
  }

  lemma HasUploadedOne(events: seq<S.Event>, w: nat, p: Path, q: Path, j: nat)
    requires HasUploaded(events, w, p, j) && HasUploaded(events, w, q, j)
    ensures p == q
  {
  }

  lemma HasUploadedBefore(events: seq<S.Event>, e: S.Event, w: nat, path: Path, j: nat)
    requires j <= |events|
    ensures HasUploaded(events + [e], w, path, j) <==> HasUploaded(events, w, path, j)
  {
    var more := events + [e];
    assert forall k :: 0 <= k < |events| ==> more[k] == events[k];
    if i: nat :| LastTurn(events, w, i, j) && events[i].turn == Uploads(path) {
      assert LastTurn(more, w, i, j);
    }
    if i: nat :| LastTurn(more, w, i, j) && more[i].turn == Uploads(path) {
      assert LastTurn(events, w, i, j);
    }
  }

  /** What a further event adds to the last uploads. */
  lemma HasUploadedNow(events: seq<S.Event>, e: S.Event, w: nat, path: Path)
    ensures HasUploaded(events + [e], w, path, |events| + 1)
       <==> if ByWorker(e, w) then e.turn == Uploads(path) else HasUploaded(events, w, path, |events|)
  {
    var more, n := events + [e], |events|;
    assert forall k :: 0 <= k < n ==> more[k] == events[k];
    if ByWorker(e, w) {
      assert LastTurn(more, w, n, n + 1);
    } else {
      if i: nat :| LastTurn(events, w, i, n) && events[i].turn == Uploads(path) {
        assert LastTurn(more, w, i, n + 1);
      }
      if i: nat :| LastTurn(more, w, i, n + 1) && more[i].turn == Uploads(path) {
        assert LastTurn(events, w, i, n);
      }
    }
  }

  /** What a further event adds to the objects told of. */
  lemma ToldNow(events: seq<S.Event>, e: S.Event, path: Path)
    ensures UploadedIn(events + [e], path) <==> UploadedIn(events, path) || (e.WorkerTurn? && e.turn == Uploads(path))
    ensures AttachedIn(events + [e], path)
       <==> AttachedIn(events, path)
            || (e.WorkerTurn? && e.turn.Attaches? && HasUploaded(events, e.worker, path, |events|))
    ensures OrphanedIn(events + [e], path)
       <==> OrphanedIn(events, path)
            || (e.WorkerTurn? && e.turn.AttachThrows? && HasUploaded(events, e.worker, path, |events|))
  {
    hide HasUploaded;
    var more, n := events + [e], |events|;
    assert more[n] == e && forall k :: 0 <= k < n ==> more[k] == events[k];
    forall j: nat, w: nat | j <= n
      ensures HasUploaded(more, w, path, j) <==> HasUploaded(events, w, path, j)
    {
      HasUploadedBefore(events, e, w, path, j);
    }
  }

  /** What a turn does to storage and to the objects in hand. */
  lemma TurnStores(h: Hook, w: nat, t: Turn)
    requires PoolOk(h) && CanTurn(h, w, t) && Indexed(h)
    ensures var g, worker := TakeTurn(h, w, t), h.pool.workers[w];
            && |g.pool.workers| == |h.pool.workers|
            && (forall v :: 0 <= v < |h.pool.workers| && v != w ==> g.pool.workers[v] == h.pool.workers[v])
            && (t.Pulls? ==> g.storage == h.storage && g.paths == h.paths
                             && (g.pool.workers[w].Busy? ==> g.pool.workers[w].item == h.pool.next))
            && (t.Uploads? ==> g.storage == h.storage.(uploaded := h.storage.uploaded + {t.path})
                               && g.paths == h.paths[worker.item := t.path] && g.pool.workers[w] == worker)
            && (t.UploadFails? ==> g.storage == h.storage && g.paths == h.paths && g.pool.workers[w] == Ready)
            && (t.Attaches? ==> g.storage.attached == h.storage.attached + {h.paths[worker.item]}
                                && g.storage.uploaded == h.storage.uploaded && g.storage.cleaned == h.storage.cleaned
                                && g.storage.photos
                                   == h.storage.photos[h.entries[worker.item].student := h.paths[worker.item]]
                                && g.paths == h.paths - {worker.item} && g.pool.workers[w] == Ready)
            && (t.AttachThrows? ==> g.storage == h.storage.(cleaned := h.storage.cleaned + {h.paths[worker.item]})
                                    && g.paths == h.paths - {worker.item} && g.pool.workers[w] == Ready)
  {
    hide Held, Valid, Patched;
  }

  lemma OthersHoldOthers(h: Hook, v: nat, w: nat)
    requires PoolOk(h) && v < |h.pool.workers| && w < |h.pool.workers| && v != w
    requires h.pool.workers[v].Busy? && h.pool.workers[w].Busy?
    ensures h.pool.workers[v].item != h.pool.workers[w].item
  {
  }

  lemma NotYetInHand(h: Hook)
    requires PoolOk(h)
    ensures h.pool.next !in h.paths
  {
    assert h.pool.next !in Held(h.pool);
  }

  lemma TurnCarries(h: Hook, events: seq<S.Event>, w: nat, t: Turn)
    requires PoolOk(h) && CanTurn(h, w, t) && Indexed(h) && Carries(h, events)
    ensures Carries(TakeTurn(h, w, t), events + [S.WorkerTurn(w, t)])
  {
    hide PoolOk, TakeTurn, CanTurn, Indexed, HasUploaded;
    var e, g := S.WorkerTurn(w, t), TakeTurn(h, w, t);
    TurnStores(h, w, t);
    NotYetInHand(h);
    forall v | 0 <= v < |g.pool.workers| && g.pool.workers[v].Busy? && g.pool.workers[v].item in g.paths
      ensures HasUploaded(events + [e], v, g.paths[g.pool.workers[v].item], |events| + 1)
    {
      HasUploadedNow(events, e, v, g.paths[g.pool.workers[v].item]);
      if v != w {
        TurnLeavesOther(h, v, w, t);
      } else {
        TurnOfOwn(h, w, t);
      }
    }
  }

  lemma TurnLeavesOther(h: Hook, v: nat, w: nat, t: Turn)
    requires PoolOk(h) && CanTurn(h, w, t) && Indexed(h) && v != w && v < |h.pool.workers| && h.pool.workers[v].Busy?
    ensures var g, i := TakeTurn(h, w, t), h.pool.workers[v].item;
            (i in g.paths <==> i in h.paths) && (i in h.paths ==> g.paths[i] == h.paths[i])
  {
    hide Patched, Held, Valid;
    if h.pool.workers[w].Busy? {
      OthersHoldOthers(h, v, w);
    }
  }

  lemma TurnOfOwn(h: Hook, w: nat, t: Turn)
    requires PoolOk(h) && CanTurn(h, w, t) && Indexed(h)
    ensures var g := TakeTurn(h, w, t);
            |g.pool.workers| == |h.pool.workers|
            && (g.pool.workers[w].Busy? && g.pool.workers[w].item in g.paths ==>
                  t.Uploads? && g.paths[g.pool.workers[w].item] == t.path)
  {
    TurnStores(h, w, t);
    NotYetInHand(h);
    hide TakeTurn, Indexed, Held, Valid;
  }

  lemma TurnStoresAsTold(h: Hook, events: seq<S.Event>, w: nat, t: Turn)
    requires PoolOk(h) && CanTurn(h, w, t) && Indexed(h) && Carries(h, events) && StoredAsTold(h, events)
    ensures StoredAsTold(TakeTurn(h, w, t), events + [S.WorkerTurn(w, t)])
  {
    hide PoolOk, TakeTurn, Indexed, HasUploaded, UploadedIn, AttachedIn, OrphanedIn;
    var e, g := S.WorkerTurn(w, t), TakeTurn(h, w, t);
    TurnStores(h, w, t);
    forall path
      ensures path in g.storage.uploaded <==> UploadedIn(events + [e], path)
      ensures path in g.storage.attached <==> AttachedIn(events + [e], path)
      ensures path in g.storage.cleaned <==> OrphanedIn(events + [e], path)
    {
      ToldNow(events, e, path);
      if (t.Attaches? || t.AttachThrows?) && HasUploaded(events, w, path, |events|) {
        HasUploadedOne(events, w, path, h.paths[h.pool.workers[w].item], |events|);
      }
    }
  }

  lemma OtherStoresAsTold(s: S.Session, events: seq<S.Event>, e: S.Event)
    requires S.Enabled(s, e) && !e.WorkerTurn? && Carries(s.hook, events) && StoredAsTold(s.hook, events)
    ensures Carries(S.Next(s, e).hook, events + [e]) && StoredAsTold(S.Next(s, e).hook, events + [e])
  {
    hide S.Enabled, S.Next, HasUploaded, UploadedIn, AttachedIn, OrphanedIn;
    var g, h := S.Next(s, e).hook, s.hook;
    S.OtherEvents(s, e);
    forall w | 0 <= w < |g.pool.workers| && g.pool.workers[w].Busy? && g.pool.workers[w].item in g.paths
      ensures HasUploaded(events + [e], w, g.paths[g.pool.workers[w].item], |events| + 1)
    {
      HasUploadedNow(events, e, w, g.paths[g.pool.workers[w].item]);
    }
    forall path
      ensures path in g.storage.uploaded <==> UploadedIn(events + [e], path)
      ensures path in g.storage.attached <==> AttachedIn(events + [e], path)
      ensures path in g.storage.cleaned <==> OrphanedIn(events + [e], path)
    {
      ToldNow(events, e, path);
    }
  }

  lemma NothingTold()
    ensures Carries(S.OPENED.hook, []) && StoredAsTold(S.OPENED.hook, [])
  {
  }

  lemma InvPool(s: S.Session)
    requires S.SessionInv(s)
    ensures PoolOk(s.hook) && Indexed(s.hook)
  {
  }

  lemma {:induction false} RunStoresAsTold(events: seq<S.Event>)
    requires S.CanHappen(S.OPENED, events)
    ensures Carries(S.After(S.OPENED, events).hook, events) && StoredAsTold(S.After(S.OPENED, events).hook, events)
    decreases |events|
  {
    hide Carries, StoredAsTold, S.SessionInv, PoolOk, Indexed, TakeTurn, CanTurn, S.Begins;
    if events == [] {
      NothingTold();
    } else {
      var n := |events| - 1;
      var before, e := events[..n], events[n];
      assert events == before + [e];
      OneLess(S.OPENED, before, e);
      OneMore(S.OPENED, before, e);
      RunStoresAsTold(before);
      var s := S.After(S.OPENED, before);
      S.OpenedInv();
      S.RunsKeep(S.OPENED, before);
      InvPool(s);
      if e.WorkerTurn? {
        TurnCarries(s.hook, before, e.worker, e.turn);
        TurnStoresAsTold(s.hook, before, e.worker, e.turn);
      } else {
        OtherStoresAsTold(s, before, e);
      }
    }
  }

  /** In every run of the dialog the stored objects are those some worker uploaded; attached are exactly
      those whose attach answered, and given up for clean-up exactly those whose attach threw. */
  lemma StorageAsTold(events: seq<S.Event>, path: Path)
    requires S.CanHappen(S.OPENED, events)
    ensures var storage := S.After(S.OPENED, events).hook.storage;
            && (path in storage.uploaded <==> UploadedIn(events, path))
            && (path in storage.attached <==> AttachedIn(events, path))
            && (path in storage.cleaned <==> OrphanedIn(events, path))
  {
    hide UploadedIn, AttachedIn, OrphanedIn, Carries, S.CanHappen, S.After;
    RunStoresAsTold(events);
  }

  // ---------------------------------------------------------------- shown outcomes

  /** How often workers have come to their loop test. */
  function LoopTests(events: seq<S.Event>): nat {
    if events == [] then 0
    else
      LoopTests(events[..|events| - 1])
      + if events[|events| - 1].WorkerTurn? && events[|events| - 1].turn.Pulls? then 1 else 0
  }

  /** At i the k-th loop test of the round takes entry k. */
  ghost predicate TakesAt(events: seq<S.Event>, i: nat, k: nat) {
    && i < |events| && events[i].WorkerTurn? && events[i].turn.Pulls?
    && LoopTests(events[..i]) == k
  }

  predicate Ends(e: S.Event, w: nat) {
    ByWorker(e, w) && (e.turn.UploadFails? || e.turn.Attaches? || e.turn.AttachThrows?)
  }

  /** Before j the worker took entry k and has not ended it. */
  ghost predicate HasTaken(events: seq<S.Event>, w: nat, k: nat, j: nat) {
    exists i: nat :: TookAndHeld(events, w, k, i, j)
  }

  ghost predicate TookAndHeld(events: seq<S.Event>, w: nat, k: nat, i: nat, j: nat) {
    && i < j <= |events| && TakesAt(events, i, k) && events[i].worker == w
    && forall m :: i < m < j ==> !Ends(events[m], w)
  }

  /** At j the worker that took entry k ends it. */
  ghost predicate EndsAt(events: seq<S.Event>, j: nat, k: nat) {
    j < |events| && events[j].WorkerTurn? && Ends(events[j], events[j].worker)
    && HasTaken(events, events[j].worker, k, j)
  }

  /** What is to be shown after the turn that ended an entry. */
  function Outcome(t: Turn): Status {
    match t
    case Attaches(enrolled) => Done(enrolled)
    case _ => Error
  }

  ghost predicate InHand(h: Hook, w: nat, k: nat) {
    w < |h.pool.workers| && h.pool.workers[w] == Busy(k)
  }

  /** The pool is where the events have brought it. */
  ghost predicate PoolAsTold(h: Hook, events: seq<S.Event>) {
    && h.pool.next == (if LoopTests(events) < h.pool.size then LoopTests(events) else h.pool.size)
    && (forall w: nat, k: nat :: k < h.pool.size ==> (HasTaken(events, w, k, |events|) <==> InHand(h, w, k)))
    && (forall k: nat :: k < h.pool.next && k !in Held(h.pool) ==> exists j: nat :: EndsAt(events, j, k))
    && (forall j: nat, k: nat :: k < h.pool.size && EndsAt(events, j, k) ==> k < h.pool.next && k !in Held(h.pool))
  }

  /** What is shown of an ended entry is the outcome of the turn that ended it. */
  ghost predicate ShownAsTold(h: Hook, events: seq<S.Event>) {
    forall j: nat, k: nat, c: nat ::
      EndsAt(events, j, k) && k < |h.entries| && c < |h.items| && h.items[c].id == h.entries[k].id ==>
        h.items[c].status == Outcome(events[j].turn)
  }

  lemma LoopTestsNow(events: seq<S.Event>, e: S.Event)
    ensures LoopTests(events + [e]) == LoopTests(events) + if e.WorkerTurn? && e.turn.Pulls? then 1 else 0
    ensures forall i :: 0 <= i <= |events| ==> (events + [e])[..i] == events[..i]
  {
    assert (events + [e])[..|events|] == events;
  }

  lemma TakesBefore(events: seq<S.Event>, e: S.Event, i: nat, k: nat)
    ensures i < |events| ==> (TakesAt(events + [e], i, k) <==> TakesAt(events, i, k))
    ensures TakesAt(events + [e], |events|, k)
       <==> e.WorkerTurn? && e.turn.Pulls? && LoopTests(events) == k
  {
    LoopTestsNow(events, e);
    assert events[..|events|] == events;
  }

  lemma HasTakenBefore(events: seq<S.Event>, e: S.Event, w: nat, k: nat, j: nat)
    requires j <= |events|
    ensures HasTaken(events + [e], w, k, j) <==> HasTaken(events, w, k, j)
  {
    hide TakesAt;
    var more := events + [e];
    assert forall m :: 0 <= m < |events| ==> more[m] == events[m];
    if i: nat :| TookAndHeld(events, w, k, i, j) {
      TakesBefore(events, e, i, k);
      assert TookAndHeld(more, w, k, i, j);
    }
    if i: nat :| TookAndHeld(more, w, k, i, j) {
      TakesBefore(events, e, i, k);
      assert TookAndHeld(events, w, k, i, j);
    }
  }

  /** What a further event adds to the entries in hand. */
  lemma HasTakenNow(events: seq<S.Event>, e: S.Event, w: nat, k: nat)
    ensures HasTaken(events + [e], w, k, |events| + 1)
       <==> || (ByWorker(e, w) && e.turn.Pulls? && LoopTests(events) == k)
            || (HasTaken(events, w, k, |events|) && !Ends(e, w))
  {
    hide TakesAt;
    var more, n := events + [e], |events|;
    assert more[n] == e && forall m :: 0 <= m < n ==> more[m] == events[m];
    TakesBefore(events, e, n, k);
    if ByWorker(e, w) && e.turn.Pulls? && LoopTests(events) == k {
      assert TookAndHeld(more, w, k, n, n + 1);
    }
    if HasTaken(events, w, k, n) && !Ends(e, w) {
      var i: nat :| TookAndHeld(events, w, k, i, n);
      TakesBefore(events, e, i, k);
      assert TookAndHeld(more, w, k, i, n + 1);
    }
    var end := n + 1;
    if i: nat :| TookAndHeld(more, w, k, i, end) {
      TakesBefore(events, e, i, k);
      if i < n {
        assert TookAndHeld(events, w, k, i, n);
      }
    }
  }

  /** What a further event adds to the entries ended. */
  lemma EndsNow(events: seq<S.Event>, e: S.Event, j: nat, k: nat)
    ensures EndsAt(events + [e], j, k)
       <==> || EndsAt(events, j, k)
            || (j == |events| && e.WorkerTurn? && Ends(e, e.worker) && HasTaken(events, e.worker, k, |events|))
  {
    hide HasTaken;
    var more := events + [e];
    if j < |events| {
      assert more[j] == events[j];
      if events[j].WorkerTurn? {
        HasTakenBefore(events, e, events[j].worker, k, j);
      }
    } else if j == |events| && e.WorkerTurn? {
      HasTakenBefore(events, e, e.worker, k, j);
    }
  }

  /** What a turn does to the pool. */
  lemma TurnMovesPool(h: Hook, w: nat, t: Turn)
    requires PoolOk(h) && CanTurn(h, w, t) && Indexed(h)
    ensures var p, q, worker := h.pool, TakeTurn(h, w, t).pool, h.pool.workers[w];
            && q.size == p.size && |q.workers| == |p.workers|
            && (t.Pulls? ==>
                  && worker == Ready
                  && q.next == (if p.next < p.size then p.next + 1 else p.next)
                  && q.workers[w] == (if p.next < p.size then Busy(p.next) else Exited)
                  && Held(q) == (if p.next < p.size then Held(p) + {p.next} else Held(p)))
            && (t.Uploads? ==> worker.Busy? && q == p)
            && (!t.Pulls? && !t.Uploads? ==>
                  && worker.Busy? && worker.item < p.next
                  && q.next == p.next && q.workers[w] == Ready && Held(q) == Held(p) - {worker.item})
            && (forall v :: 0 <= v < |p.workers| && v != w ==> q.workers[v] == p.workers[v])
  {
    hide Held, Valid, Patched;
    if t.Pulls? {
      PullKeeps(h.pool, w);
    } else {
      FinishKeeps(h.pool, w);
    }
  }

  lemma TurnInHand(h: Hook, events: seq<S.Event>, w: nat, t: Turn, v: nat, k: nat)
    requires PoolOk(h) && CanTurn(h, w, t) && Indexed(h) && PoolAsTold(h, events) && k < h.pool.size
    ensures HasTaken(events + [S.WorkerTurn(w, t)], v, k, |events| + 1) <==> InHand(TakeTurn(h, w, t), v, k)
  {
    hide PoolOk, TakeTurn, Indexed, HasTaken, EndsAt, Held;
    TurnMovesPool(h, w, t);
    HasTakenNow(events, S.WorkerTurn(w, t), v, k);
    assert HasTaken(events, v, k, |events|) <==> InHand(h, v, k);
  }

  lemma HeldIsInHand(h: Hook, k: nat) returns (w: nat)
    requires k in Held(h.pool)
    ensures InHand(h, w, k)
  {
    w :| 0 <= w < |h.pool.workers| && h.pool.workers[w].Busy? && h.pool.workers[w].item == k;
  }

  /** An entry taken and no longer held was ended. */
  lemma TurnEnds(h: Hook, events: seq<S.Event>, w: nat, t: Turn, k: nat)
    requires PoolOk(h) && CanTurn(h, w, t) && Indexed(h) && PoolAsTold(h, events)
    requires k < TakeTurn(h, w, t).pool.next && k !in Held(TakeTurn(h, w, t).pool)
    ensures exists j: nat :: EndsAt(events + [S.WorkerTurn(w, t)], j, k)
  {
    hide PoolOk, TakeTurn, Indexed, HasTaken, EndsAt, Held;
    var e := S.WorkerTurn(w, t);
    TurnMovesPool(h, w, t);
    if k < h.pool.next && k !in Held(h.pool) {
      var j: nat :| EndsAt(events, j, k);
      EndsNow(events, e, j, k);
    } else {
      assert h.pool.workers[w] == Busy(k) && InHand(h, w, k);
      SizeBound(h);
      EndsNow(events, e, |events|, k);
      EndsIs(events, e, k);
    }
  }

  lemma EndsIs(events: seq<S.Event>, e: S.Event, k: nat)
    requires e.WorkerTurn? && Ends(e, e.worker) && HasTaken(events, e.worker, k, |events|)
    ensures EndsAt(events + [e], |events|, k)
  {
    hide HasTaken;
    EndsNow(events, e, |events|, k);
  }

  /** An entry that was ended is taken and no longer held. */
  lemma TurnEnded(h: Hook, events: seq<S.Event>, w: nat, t: Turn, j: nat, k: nat)
    requires PoolOk(h) && CanTurn(h, w, t) && Indexed(h) && PoolAsTold(h, events)
    requires k < h.pool.size && EndsAt(events + [S.WorkerTurn(w, t)], j, k)
    ensures k < TakeTurn(h, w, t).pool.next && k !in Held(TakeTurn(h, w, t).pool)
  {
    hide PoolOk, TakeTurn, Indexed, HasTaken, EndsAt, Held;
    TurnMovesPool(h, w, t);
    EndsNow(events, S.WorkerTurn(w, t), j, k);
    if !EndsAt(events, j, k) {
      assert InHand(h, w, k);
    }
  }

  lemma SizeBound(h: Hook)
    requires PoolOk(h)
    ensures h.pool.next <= h.pool.size
  {
  }

  lemma TurnPoolAsTold(h: Hook, events: seq<S.Event>, w: nat, t: Turn)
    requires PoolOk(h) && CanTurn(h, w, t) && Indexed(h) && PoolAsTold(h, events)
    ensures PoolAsTold(TakeTurn(h, w, t), events + [S.WorkerTurn(w, t)])
  {
    hide PoolOk, TakeTurn, CanTurn, Indexed, HasTaken, EndsAt, InHand, Held, LoopTests;
    var e, g := S.WorkerTurn(w, t), TakeTurn(h, w, t);
    TurnMovesPool(h, w, t);
    LoopTestsNow(events, e);
    forall v: nat, k: nat | k < g.pool.size
      ensures HasTaken(events + [e], v, k, |events + [e]|) <==> InHand(g, v, k)
    {
      TurnInHand(h, events, w, t, v, k);
    }
    forall k: nat | k < g.pool.next && k !in Held(g.pool)
      ensures exists j: nat :: EndsAt(events + [e], j, k)
    {
      TurnEnds(h, events, w, t, k);
    }
    forall j: nat, k: nat | k < g.pool.size && EndsAt(events + [e], j, k)
      ensures k < g.pool.next && k !in Held(g.pool)
    {
      TurnEnded(h, events, w, t, j, k);
    }
  }

  /** The item of the photo a turn ends shows the outcome. */
  lemma EndedShows(h: Hook, w: nat, t: Turn, c: nat)
    requires PoolOk(h) && CanTurn(h, w, t) && Indexed(h) && h.mounted && c < |h.items|
    requires (t.UploadFails? || t.Attaches? || t.AttachThrows?) && h.items[c].id == h.entries[h.pool.workers[w].item].id
    ensures |TakeTurn(h, w, t).items| == |h.items|
    ensures TakeTurn(h, w, t).items[c].status == Outcome(t)
  {
    hide Held, Valid, Finish;
  }

  lemma TurnShownAsTold(h: Hook, events: seq<S.Event>, w: nat, t: Turn, j: nat, k: nat, c: nat)
    requires PoolOk(h) && Separate(h.entries) && CanTurn(h, w, t) && Indexed(h) && h.mounted
    requires PoolAsTold(h, events) && ShownAsTold(h, events)
    requires EndsAt(events + [S.WorkerTurn(w, t)], j, k) && k < |h.entries|
    requires c < |h.items| && h.items[c].id == h.entries[k].id
    ensures |TakeTurn(h, w, t).items| == |h.items|
    ensures TakeTurn(h, w, t).items[c].status == Outcome((events + [S.WorkerTurn(w, t)])[j].turn)
  {
    hide TakeTurn, HasTaken, EndsAt, Held, Outcome, Valid;
    var e := S.WorkerTurn(w, t);
    EndsNow(events, e, j, k);
    TurnMovesPool(h, w, t);
    if EndsAt(events, j, k) {
      EndIsBefore(events, j, k);
      if !t.Pulls? {
        WorkerHolds(h.pool, w);
      }
      OthersUntouched(h, w, t, c);
      assert h.items[c].status == Outcome(events[j].turn);
    } else {
      assert InHand(h, w, k);
      EndedShows(h, w, t, c);
    }
  }

  lemma EndIsBefore(events: seq<S.Event>, j: nat, k: nat)
    requires EndsAt(events, j, k)
    ensures j < |events| && events[j].WorkerTurn?
  {
  }

  lemma WorkerHolds(p: Pool, w: nat)
    requires w < |p.workers| && p.workers[w].Busy?
    ensures p.workers[w].item in Held(p)
  {
  }

  lemma StartAsTold(h: Hook)
    requires h == Begin(h, h.items, h.entries)
    ensures PoolAsTold(h, []) && ShownAsTold(h, [])
  {
  }

  lemma OtherHasTaken(events: seq<S.Event>, e: S.Event, w: nat, k: nat)
    requires !e.WorkerTurn?
    ensures HasTaken(events + [e], w, k, |events| + 1) <==> HasTaken(events, w, k, |events|)
    ensures forall j: nat :: EndsAt(events + [e], j, k) <==> EndsAt(events, j, k)
    ensures LoopTests(events + [e]) == LoopTests(events)
  {
    hide HasTaken, EndsAt;
    HasTakenNow(events, e, w, k);
    LoopTestsNow(events, e);
    forall j: nat
      ensures EndsAt(events + [e], j, k) <==> EndsAt(events, j, k)
    {
      EndsNow(events, e, j, k);
    }
  }

  /** An event that is no turn changes neither the round nor what is told of it. */
  lemma OtherAsTold(h: Hook, g: Hook, events: seq<S.Event>, e: S.Event)
    requires !e.WorkerTurn? && g == h.(mounted := g.mounted) && PoolAsTold(h, events)
    ensures PoolAsTold(g, events + [e])
    ensures ShownAsTold(h, events) ==> ShownAsTold(g, events + [e])
  {
    hide HasTaken, EndsAt, InHand, Held, LoopTests;
    OtherHasTaken(events, e, 0, 0);
    forall w: nat, k: nat
      ensures HasTaken(events + [e], w, k, |events + [e]|) <==> HasTaken(events, w, k, |events|)
    {
      OtherHasTaken(events, e, w, k);
    }
    forall j: nat, k: nat
      ensures EndsAt(events + [e], j, k) <==> EndsAt(events, j, k)
    {
      OtherHasTaken(events, e, 0, k);
    }
    forall k: nat | k < g.pool.next && k !in Held(g.pool)
      ensures exists j: nat :: EndsAt(events + [e], j, k)
    {
      var j: nat :| EndsAt(events, j, k);
      assert EndsAt(events + [e], j, k);
    }
    forall w: nat, k: nat
      ensures InHand(g, w, k) <==> InHand(h, w, k)
    {
      SameInHand(h, g, w, k);
    }
    OtherShows(h, g, events, e);
  }

  lemma SameInHand(h: Hook, g: Hook, w: nat, k: nat)
    requires g.pool == h.pool
    ensures InHand(g, w, k) <==> InHand(h, w, k)
  {
  }

  lemma OtherShows(h: Hook, g: Hook, events: seq<S.Event>, e: S.Event)
    requires !e.WorkerTurn? && g.items == h.items && g.entries == h.entries
    ensures ShownAsTold(h, events) ==> ShownAsTold(g, events + [e])
  {
    hide EndsAt, Outcome;
    if ShownAsTold(h, events) {
      forall j: nat, k: nat, c: nat
        | EndsAt(events + [e], j, k) && k < |g.entries| && c < |g.items| && g.items[c].id == g.entries[k].id
        ensures j < |events| && events[j].WorkerTurn? && g.items[c].status == Outcome((events + [e])[j].turn)
      {
        OtherHasTaken(events, e, 0, k);
        EndIsBefore(events, j, k);
      }
    }
  }

  lemma TurnAsTold(h: Hook, events: seq<S.Event>, w: nat, t: Turn)
    requires HookInv(h) && CanTurn(h, w, t) && Indexed(h) && PoolAsTold(h, events)
    requires h.mounted ==> ShownAsTold(h, events)
    ensures PoolAsTold(TakeTurn(h, w, t), events + [S.WorkerTurn(w, t)])
    ensures h.mounted ==> ShownAsTold(TakeTurn(h, w, t), events + [S.WorkerTurn(w, t)])
  {
    hide TakeTurn, Indexed, EndsAt, PoolAsTold, Outcome, Display, Conserved, Filed, FromItems, PoolOk, Separate;
    var g, more := TakeTurn(h, w, t), events + [S.WorkerTurn(w, t)];
    TurnPoolAsTold(h, events, w, t);
    TurnKeepsPool(h, w, t);
    TurnPatches(h, w, t);
    if h.mounted {
      forall j: nat, k: nat, c: nat
        | EndsAt(more, j, k) && k < |g.entries| && c < |g.items| && g.items[c].id == g.entries[k].id
        ensures j < |more| && more[j].WorkerTurn? && g.items[c].status == Outcome(more[j].turn)
      {
        EndIsBefore(more, j, k);
        TurnShownAsTold(h, events, w, t, j, k, c);
      }
    }
  }

  lemma {:induction false} OneLessWithin(s: S.Session, events: seq<S.Event>, e: S.Event)
    requires S.CanHappen(s, events + [e]) && S.WithinRound(s, events + [e])
    ensures S.CanHappen(s, events) && S.Enabled(S.After(s, events), e)
    ensures S.WithinRound(s, events) && !S.Begins(S.After(s, events), e)
    decreases |events|
  {
    hide S.Enabled, S.Next, S.Begins;
    OneLess(s, events, e);
    if events == [] {
      assert [] + [e] == [e];
    } else {
      assert (events + [e])[1..] == events[1..] + [e];
      OneLessWithin(S.Next(s, events[0]), events[1..], e);
    }
  }

  lemma InvHook(s: S.Session)
    requires S.SessionInv(s)
    ensures HookInv(s.hook) && Indexed(s.hook)
  {
    InvIndexed(s.hook);
  }

  lemma TurnIsNext(s: S.Session, e: S.Event)
    requires e.WorkerTurn? && S.Enabled(s, e)
    ensures Indexed(s.hook) && CanTurn(s.hook, e.worker, e.turn)
    ensures S.Next(s, e).hook == TakeTurn(s.hook, e.worker, e.turn)
    ensures TakeTurn(s.hook, e.worker, e.turn).mounted == s.hook.mounted
  {
  }

  lemma {:induction false} RoundAsTold(b: S.Session, during: seq<S.Event>)
    requires S.SessionInv(b) && b.hook == Begin(b.hook, b.hook.items, b.hook.entries)
    requires S.CanHappen(b, during) && S.WithinRound(b, during)
    ensures PoolAsTold(S.After(b, during).hook, during)
    ensures S.After(b, during).hook.mounted ==> ShownAsTold(S.After(b, during).hook, during)
    decreases |during|
  {
    hide PoolAsTold, ShownAsTold, S.SessionInv, HookInv, Indexed, TakeTurn, CanTurn, S.Begins, S.Enabled, S.Next, Begin;
    if during == [] {
      StartAsTold(b.hook);
    } else {
      var n := |during| - 1;
      var before, e := during[..n], during[n];
      assert during == before + [e];
      OneLessWithin(b, before, e);
      OneMore(b, before, e);
      RoundAsTold(b, before);
      var s := S.After(b, before);
      S.RunsKeep(b, before);
      InvHook(s);
      if e.WorkerTurn? {
        TurnIsNext(s, e);
        TurnAsTold(s.hook, before, e.worker, e.turn);
      } else {
        S.OtherEvents(s, e);
        OtherAsTold(s.hook, S.Next(s, e).hook, before, e);
      }
    }
  }

  /** The turn that ended entry k is one of these. */
  ghost predicate EndedBy(events: seq<S.Event>, k: nat, turns: set<Turn>) {
    exists j: nat :: EndsAt(events, j, k) && events[j].turn in turns
  }

  /** As long as the dialog is there, a photo of the round is shown as done, enrolled or not, exactly when its
      attach has answered so, and as failed exactly when its upload failed or its attach threw. */
  lemma OutcomesAsTold(s: S.Session, start: S.Event, during: seq<S.Event>, k: nat, c: nat)
    requires S.Reachable(s) && S.Enabled(s, start) && S.Begins(s, start)
    requires S.CanHappen(S.Next(s, start), during) && S.WithinRound(S.Next(s, start), during)
    requires var h := S.After(S.Next(s, start), during).hook;
             h.mounted && k < |h.entries| && c < |h.items| && h.items[c].id == h.entries[k].id
    ensures var shown := S.After(S.Next(s, start), during).hook.items[c].status;
            && (forall enrolled :: shown == Done(enrolled) <==> EndedBy(during, k, {Attaches(enrolled)}))
            && (shown == Error <==> EndedBy(during, k, {UploadFails, AttachThrows}))
  {
    hide S.SessionInv, S.Begins, S.Enabled, S.Next, S.Reachable, HookInv, PoolOk, Separate;
    hide EndsAt, Held, HasTaken, InHand;
    S.ReachableInv(s);
    S.EventKeeps(s, start);
    S.BeginsAtStart(s, start);
    var b := S.Next(s, start);
    var h := S.After(b, during).hook;
    RoundAsTold(b, during);
    S.RunsKeep(b, during);
    InvHook(S.After(b, during));
    ShownOf(h, k, c);
    forall j: nat | EndsAt(during, j, k)
      ensures ShownBy(during, j, h.items[c].status)
    {
      EndTurn(during, j, k);
    }
    OutcomeOf(during, k, h.items[c].status);
  }

  ghost predicate ShownBy(events: seq<S.Event>, j: nat, shown: Status) {
    j < |events| && events[j].WorkerTurn? && shown == Outcome(events[j].turn)
  }

  lemma OutcomeOf(events: seq<S.Event>, k: nat, shown: Status)
    requires forall j: nat :: EndsAt(events, j, k) ==> ShownBy(events, j, shown)
    requires Settled(shown) <==> exists j: nat :: EndsAt(events, j, k)
    ensures forall enrolled :: shown == Done(enrolled) <==> EndedBy(events, k, {Attaches(enrolled)})
    ensures shown == Error <==> EndedBy(events, k, {UploadFails, AttachThrows})
  {
    hide EndsAt;
    if j: nat :| EndsAt(events, j, k) {
      EndTurn(events, j, k);
      assert ShownBy(events, j, shown);
    }
  }

  lemma EndTurn(events: seq<S.Event>, j: nat, k: nat)
    requires EndsAt(events, j, k)
    ensures j < |events| && events[j].WorkerTurn?
    ensures events[j].turn.UploadFails? || events[j].turn.Attaches? || events[j].turn.AttachThrows?
  {
  }

  lemma ShownOf(h: Hook, k: nat, c: nat)
    requires HookInv(h) && h.mounted && k < |h.entries| && c < |h.items| && h.items[c].id == h.entries[k].id
    ensures |h.entries| == h.pool.size
    ensures Settled(h.items[c].status) <==> k < h.pool.next && k !in Held(h.pool)
  {
    hide Held, Valid, Conserved, Filed, FromItems;
    assert Shows(h, k, h.items[c].status);
  }

  // ---------------------------------------------------------------- whose photo is whose

  /** At j the worker that took entry k attached this object, its own last upload. */
  ghost predicate GaveAt(events: seq<S.Event>, j: nat, k: nat, path: Path) {
    && EndsAt(events, j, k) && events[j].turn.Attaches?
    && HasUploaded(events, events[j].worker, path, j)
  }

  /** The student has a photo among those that the events of the round gave. */
  ghost predicate Given(h: Hook, events: seq<S.Event>, student: Student) {
    exists j: nat, k: nat, path :: GaveAt(events, j, k, path) && k < |h.entries| && h.entries[k].student == student
  }

  /** Each student of the round has the photo that was attached for their own entry; everybody else has the
      photo they had before. */
  ghost predicate PhotosAsTold(h: Hook, before: map<Student, Path>, events: seq<S.Event>) {
    && (forall j: nat, k: nat, path :: GaveAt(events, j, k, path) && k < |h.entries| ==>
          h.entries[k].student in h.storage.photos && h.storage.photos[h.entries[k].student] == path)
    && (forall student :: !Given(h, events, student) ==>
          && (student in h.storage.photos <==> student in before)
          && (student in before ==> h.storage.photos[student] == before[student]))
  }

  /** What a further event adds to the photos given. */
  lemma GaveNow(events: seq<S.Event>, e: S.Event, j: nat, k: nat, path: Path)
    ensures GaveAt(events + [e], j, k, path)
       <==> || GaveAt(events, j, k, path)
            || (j == |events| && e.WorkerTurn? && e.turn.Attaches? && HasTaken(events, e.worker, k, |events|)
                && HasUploaded(events, e.worker, path, |events|))
  {
    hide HasTaken, HasUploaded, EndsAt;
    EndsNow(events, e, j, k);
    var more := events + [e];
    if EndsAt(events, j, k) {
      EndTurn(events, j, k);
      assert more[j] == events[j];
      HasUploadedBefore(events, e, events[j].worker, path, j);
    } else if j == |events| && e.WorkerTurn? {
      assert more[j] == e;
      HasUploadedBefore(events, e, e.worker, path, j);
    }
  }

  lemma NoNewGift(h: Hook, g: Hook, before: map<Student, Path>, events: seq<S.Event>, e: S.Event)
    requires PhotosAsTold(h, before, events) && g.entries == h.entries && g.storage.photos == h.storage.photos
    requires e.WorkerTurn? ==> !e.turn.Attaches?
    ensures PhotosAsTold(g, before, events + [e])
  {
    hide GaveAt;
    forall j: nat, k: nat, path
      ensures GaveAt(events + [e], j, k, path) <==> GaveAt(events, j, k, path)
    {
      GaveNow(events, e, j, k, path);
    }
    forall student
      ensures Given(g, events + [e], student) <==> Given(h, events, student)
    {
      if Given(h, events, student) {
        var j: nat, k: nat, path :| GaveAt(events, j, k, path) && k < |h.entries| && h.entries[k].student == student;
        assert GaveAt(events + [e], j, k, path);
      }
      if Given(g, events + [e], student) {
        var j: nat, k: nat, path :|
          GaveAt(events + [e], j, k, path) && k < |g.entries| && g.entries[k].student == student;
        assert GaveAt(events, j, k, path);
      }
    }
  }

  /** The object in a worker's hand is its own last upload, for the entry it holds. */
  lemma InTheHandOf(h: Hook, events: seq<S.Event>, w: nat, t: Turn)
    requires PoolOk(h) && CanTurn(h, w, t) && t.Attaches? && Indexed(h) && Carries(h, events) && PoolAsTold(h, events)
    ensures var i := h.pool.workers[w].item;
            && i < |h.entries| && i in h.paths
            && HasTaken(events, w, i, |events|) && HasUploaded(events, w, h.paths[i], |events|)
            && (forall k: nat :: k < |h.entries| && HasTaken(events, w, k, |events|) ==> k == i)
            && (forall path :: HasUploaded(events, w, path, |events|) ==> path == h.paths[i])
            && (forall j: nat, path :: !GaveAt(events, j, i, path))
  {
    hide HasTaken, HasUploaded, EndsAt, Valid, Held;
    var i := h.pool.workers[w].item;
    assert InHand(h, w, i);
    WorkerHolds(h.pool, w);
    forall k: nat | k < |h.entries| && HasTaken(events, w, k, |events|)
      ensures k == i
    {
      assert InHand(h, w, k);
    }
    forall path | HasUploaded(events, w, path, |events|)
      ensures path == h.paths[i]
    {
      HasUploadedOne(events, w, path, h.paths[i], |events|);
    }
  }

  lemma AttachGives(h: Hook, before: map<Student, Path>, events: seq<S.Event>, w: nat, t: Turn)
    requires PoolOk(h) && Separate(h.entries) && CanTurn(h, w, t) && t.Attaches? && Indexed(h)
    requires Carries(h, events) && PoolAsTold(h, events) && PhotosAsTold(h, before, events)
    ensures PhotosAsTold(TakeTurn(h, w, t), before, events + [S.WorkerTurn(w, t)])
  {
    hide TakeTurn, PoolOk, Indexed, Carries, PoolAsTold, GaveAt, HasTaken, HasUploaded;
    var e, g, i := S.WorkerTurn(w, t), TakeTurn(h, w, t), h.pool.workers[w].item;
    var more := events + [e];
    TurnStores(h, w, t);
    TurnKeepsPool(h, w, t);
    InTheHandOf(h, events, w, t);
    GaveNow(events, e, |events|, i, h.paths[i]);
    forall j: nat, k: nat, path | GaveAt(more, j, k, path) && k < |g.entries|
      ensures g.entries[k].student in g.storage.photos && g.storage.photos[g.entries[k].student] == path
    {
      GaveNow(events, e, j, k, path);
    }
    forall student | !Given(g, more, student)
      ensures student in g.storage.photos <==> student in before
      ensures student in before ==> g.storage.photos[student] == before[student]
    {
      assert student != h.entries[i].student;
      if Given(h, events, student) {
        var j: nat, k: nat, path :| GaveAt(events, j, k, path) && k < |h.entries| && h.entries[k].student == student;
        GaveNow(events, e, j, k, path);
      }
    }
  }

  lemma StartGivesNothing(h: Hook)
    requires h == Begin(h, h.items, h.entries)
    ensures Carries(h, []) && PhotosAsTold(h, h.storage.photos, [])
  {
    hide HasUploaded;
  }

  lemma {:induction false} RoundGives(b: S.Session, during: seq<S.Event>)
    requires S.SessionInv(b) && b.hook == Begin(b.hook, b.hook.items, b.hook.entries)
    requires S.CanHappen(b, during) && S.WithinRound(b, during)
    ensures Carries(S.After(b, during).hook, during)
    ensures PhotosAsTold(S.After(b, during).hook, b.hook.storage.photos, during)
    decreases |during|
  {
    hide PoolAsTold, PhotosAsTold, Carries, HookInv, Indexed, TakeTurn, CanTurn, Begin, PoolOk, Separate;
    hide S.SessionInv, S.Begins, S.Enabled, S.Next;
    if during == [] {
      StartGivesNothing(b.hook);
    } else {
      var n := |during| - 1;
      var before, e := during[..n], during[n];
      assert during == before + [e];
      OneLessWithin(b, before, e);
      OneMore(b, before, e);
      RoundGives(b, before);
      RoundAsTold(b, before);
      var s := S.After(b, before);
      S.RunsKeep(b, before);
      InvHook(s);
      InvPool(s);
      InvSeparate(s.hook);
      if e.WorkerTurn? {
        TurnIsNext(s, e);
        TurnCarries(s.hook, before, e.worker, e.turn);
        if e.turn.Attaches? {
          AttachGives(s.hook, b.hook.storage.photos, before, e.worker, e.turn);
        } else {
          TurnKeepsPool(s.hook, e.worker, e.turn);
          OtherTurnsGiveNothing(s.hook, e.worker, e.turn);
          NoNewGift(s.hook, S.Next(s, e).hook, b.hook.storage.photos, before, e);
        }
      } else {
        S.OtherEvents(s, e);
        NoNewGift(s.hook, S.Next(s, e).hook, b.hook.storage.photos, before, e);
        OtherCarries(s.hook, S.Next(s, e).hook, before, e);
      }
    }
  }

  lemma InvSeparate(h: Hook)
    requires HookInv(h)
    ensures Separate(h.entries)
  {
  }

  lemma OtherTurnsGiveNothing(h: Hook, w: nat, t: Turn)
    requires PoolOk(h) && CanTurn(h, w, t) && Indexed(h) && !t.Attaches?
    ensures TakeTurn(h, w, t).storage.photos == h.storage.photos
  {
    hide Held, Valid, Patched;
  }

  lemma OtherCarries(h: Hook, g: Hook, events: seq<S.Event>, e: S.Event)
    requires !e.WorkerTurn? && Carries(h, events) && g.pool == h.pool && g.paths == h.paths
    ensures Carries(g, events + [e])
  {
    hide HasUploaded;
    forall w | 0 <= w < |g.pool.workers| && g.pool.workers[w].Busy? && g.pool.workers[w].item in g.paths
      ensures HasUploaded(events + [e], w, g.paths[g.pool.workers[w].item], |events| + 1)
    {
      HasUploadedNow(events, e, w, g.paths[g.pool.workers[w].item]);
    }
  }

  /** In every round each student gets the photo of their own row and no other: where a worker took the row's
      entry, uploaded an object and had it attached, that object is the student's photo; and a student for
      whom nothing was attached has the photo they had before. */
  lemma EachTheirOwnPhoto(s: S.Session, start: S.Event, during: seq<S.Event>)
    requires S.Reachable(s) && S.Enabled(s, start) && S.Begins(s, start)
    requires S.CanHappen(S.Next(s, start), during) && S.WithinRound(S.Next(s, start), during)
    ensures PhotosAsTold(S.After(S.Next(s, start), during).hook, s.hook.storage.photos, during)
  {
    hide S.SessionInv, S.Begins, S.Enabled, S.Next, S.Reachable, PhotosAsTold, Carries;
    S.ReachableInv(s);
    S.EventKeeps(s, start);
    S.BeginsAtStart(s, start);
    StartIsNoTurn(s, start);
    S.OtherEvents(s, start);
    RoundGives(S.Next(s, start), during);
  }

  lemma StartIsNoTurn(s: S.Session, e: S.Event)
    requires S.Begins(s, e)
    ensures !e.WorkerTurn?
  {
  }
}

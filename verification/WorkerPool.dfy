/**
 * The bounded worker pool that the upload, enrolment and download hooks share: workers pull the next
 * index of a common queue, hold it while they await, and leave when the queue is drained. The loop
 * test and the increment happen in one turn of the event loop, so taking an item is one step.
 */
module WorkerPool {
  datatype Worker = Ready | Busy(item: nat) | Exited

  datatype Pool = Pool(size: nat, next: nat, workers: seq<Worker>)

  function Start(size: nat, limit: nat): Pool {
    Pool(size, 0, seq(if limit < size then limit else size, _ => Ready))
  }

  /** One turn of worker w: at its loop test it takes the next item or leaves. */
  function Pull(p: Pool, w: nat): Pool
    requires w < |p.workers|
  {
    if p.next < p.size then p.(next := p.next + 1, workers := p.workers[w := Busy(p.next)])
    else p.(workers := p.workers[w := Exited])
  }

  /** Worker w is done with its item and returns to its loop test. */
  function Finish(p: Pool, w: nat): Pool
    requires w < |p.workers|
  {
    p.(workers := p.workers[w := Ready])
  }

  /** The items that some worker holds. */
  function Held(p: Pool): set<nat> {
    set w | 0 <= w < |p.workers| && p.workers[w].Busy? :: p.workers[w].item
  }

  function Live(p: Pool): set<nat> {
    set w | 0 <= w < |p.workers| && p.workers[w] != Exited
  }

  predicate Drained(p: Pool) {
    forall w :: 0 <= w < |p.workers| ==> p.workers[w] == Exited
  }

  /** Only taken items are held, no item has two workers, and nobody leaves before the queue is empty. */
  ghost predicate Valid(p: Pool) {
    && p.next <= p.size
    && (p.size > 0 ==> |p.workers| > 0)
    && (forall w :: 0 <= w < |p.workers| && p.workers[w].Busy? ==> p.workers[w].item < p.next)
    && (forall v, w :: 0 <= v < w < |p.workers| && p.workers[v].Busy? && p.workers[w].Busy? ==>
          p.workers[v].item != p.workers[w].item)
    && (forall w :: 0 <= w < |p.workers| && p.workers[w] == Exited ==> p.next == p.size)
  }

  lemma StartIsValid(size: nat, limit: nat)
    requires limit > 0
    ensures Valid(Start(size, limit)) && Held(Start(size, limit)) == {}
  {
  }

  /** A pool starts with as many workers as the limit allows and the items need, all at their loop test. */
  lemma StartHas(size: nat, limit: nat)
    ensures var p := Start(size, limit);
            && p.size == size && p.next == 0
            && |p.workers| == (if size <= limit then size else limit)
            && forall w :: 0 <= w < |p.workers| ==> p.workers[w] == Ready
  {
  }

  lemma SomeoneIsLive(p: Pool)
    requires !Drained(p)
    ensures exists w :: 0 <= w < |p.workers| && p.workers[w] != Exited
  {
  }

  /** Taking an item: it was held by nobody and now is; nothing else changes hands. */
  lemma PullKeeps(p: Pool, w: nat)
    requires Valid(p) && w < |p.workers| && p.workers[w] == Ready
    ensures var q := Pull(p, w);
            && Valid(q)
            && p.next !in Held(p)
            && Held(q) == (if p.next < p.size then Held(p) + {p.next} else Held(p))
            && w in Live(p) && Live(q) == (if p.next < p.size then Live(p) else Live(p) - {w})
  {
    var q := Pull(p, w);
    forall i
      ensures i in Held(q) <==> i in Held(p) || (i == p.next && p.next < p.size)
    {
      if i in Held(p) {
        var v :| 0 <= v < |p.workers| && p.workers[v].Busy? && p.workers[v].item == i;
        assert q.workers[v] == p.workers[v];
      }
      if i in Held(q) {
        var v :| 0 <= v < |q.workers| && q.workers[v].Busy? && q.workers[v].item == i;
        assert v != w ==> q.workers[v] == p.workers[v];
      }
      if i == p.next && p.next < p.size {
        assert q.workers[w] == Busy(i);
      }
    }
  }

  /** Finishing an item releases exactly that item. */
  lemma FinishKeeps(p: Pool, w: nat)
    requires Valid(p) && w < |p.workers| && p.workers[w].Busy?
    ensures var q, i := Finish(p, w), p.workers[w].item;
            && Valid(q) && i in Held(p) && i < p.next
            && Held(q) == Held(p) - {i} && Live(q) == Live(p)
  {
    var q, i := Finish(p, w), p.workers[w].item;
    forall k
      ensures k in Held(q) <==> k in Held(p) && k != i
    {
      if k in Held(p) && k != i {
        var v :| 0 <= v < |p.workers| && p.workers[v].Busy? && p.workers[v].item == k;
        assert q.workers[v] == p.workers[v];
      }
      if k in Held(q) {
        var v :| 0 <= v < |q.workers| && q.workers[v].Busy? && q.workers[v].item == k;
        assert q.workers[v] == p.workers[v];
      }
    }
  }

  /** A pool whose workers have all left has taken every item and holds none. */
  lemma DrainedIsDone(p: Pool)
    requires Valid(p) && Drained(p)
    ensures p.next == p.size && Held(p) == {}
  {
    if p.size > 0 {
      assert p.workers[0] == Exited;
    }
  }

  lemma HeldIsTaken(p: Pool, i: nat)
    requires Valid(p) && i in Held(p)
    ensures i < p.next
  {
  }

  /** There are never more items in flight than workers. */
  lemma InFlight(p: Pool)
    ensures |Held(p)| <= |p.workers|
  {
    HeldAmong(p, |p.workers|);
    assert Held(p) == set w | 0 <= w < |p.workers| && p.workers[w].Busy? :: p.workers[w].item;
  }

  lemma {:induction false} HeldAmong(p: Pool, n: nat)
    requires n <= |p.workers|
    ensures |set w | 0 <= w < n && p.workers[w].Busy? :: p.workers[w].item| <= n
    decreases n
  {
    var s := set w | 0 <= w < n && p.workers[w].Busy? :: p.workers[w].item;
    if n == 0 {
      assert s == {};
    } else {
      HeldAmong(p, n - 1);
      var r := set w | 0 <= w < n - 1 && p.workers[w].Busy? :: p.workers[w].item;
      if p.workers[n - 1].Busy? {
        assert s == r + {p.workers[n - 1].item};
      } else {
        assert s == r;
      }
    }
  }
}

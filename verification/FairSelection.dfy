/**
 * The random selection is fair: of distinct ids, every set of the selection's size is picked by the
 * same number of draw sequences, so it is as likely as any other when the draws are.
 */
module FairSelection {
  import opened Shuffle

  /** All draw sequences for n ids. */
  ghost function AllDraws(n: nat): set<seq<nat>> {
    if n == 0 then {[]} else set c, j | c in AllDraws(n - 1) && 0 <= j < n :: c + [j]
  }

  lemma {:induction false} AllDrawsAre(n: nat, c: seq<nat>)
    ensures c in AllDraws(n) <==> Draws(c, n)
    decreases n
  {
    if n > 0 {
      if c in AllDraws(n) {
        var d, j :| d in AllDraws(n - 1) && 0 <= j < n && c == d + [j];
        AllDrawsAre(n - 1, d);
      }
      if Draws(c, n) {
        AllDrawsAre(n - 1, c[..n - 1]);
        assert c == c[..n - 1] + [c[n - 1]];
      }
    }
  }

  /** The draws that pick s. */
  ghost function DrawsPicking(ids: seq<Id>, n: int, s: set<Id>): set<seq<nat>> {
    set c | c in AllDraws(|ids|) && Draws(c, |ids|) && Picked(ids, c, n) == s
  }

  // ---------------------------------------------------------------- distinct sequences

  lemma {:induction false} DistinctSize(p: seq<Id>)
    requires Distinct(p)
    ensures |Elements(p)| == |p|
    decreases |p|
  {
    if p != [] {
      var rest := p[1..];
      assert forall i :: 0 <= i < |rest| ==> rest[i] == p[i + 1];
      DistinctSize(rest);
      assert p == [p[0]] + rest;
      assert Elements(p) == {p[0]} + Elements(rest);
    }
  }

  lemma {:induction false} DistinctCount(p: seq<Id>, x: Id)
    requires Distinct(p)
    ensures multiset(p)[x] == if x in p then 1 else 0
    decreases |p|
  {
    if p != [] {
      var rest := p[1..];
      assert forall i :: 0 <= i < |rest| ==> rest[i] == p[i + 1];
      DistinctCount(rest, x);
      assert p == [p[0]] + rest;
    }
  }

  lemma SameElementsPermute(p: seq<Id>, q: seq<Id>)
    requires Distinct(p) && Distinct(q) && Elements(p) == Elements(q)
    ensures Permutation(p, q)
  {
    DistinctSize(p);
    DistinctSize(q);
    forall x
      ensures multiset(p)[x] == multiset(q)[x]
    {
      DistinctCount(p, x);
      DistinctCount(q, x);
      assert x in p <==> x in Elements(p);
      assert x in q <==> x in Elements(q);
    }
  }

  lemma PermutationElements(p: seq<Id>, q: seq<Id>)
    requires Permutation(p, q)
    ensures Elements(p) == Elements(q)
  {
    forall x
      ensures x in p <==> x in q
    {
      assert x in p <==> x in multiset(p);
      assert x in q <==> x in multiset(q);
    }
  }

  lemma {:induction false} ShuffleKeepsDistinct(ids: seq<Id>, c: seq<nat>, n: nat)
    requires Distinct(ids) && n <= |ids| && DrawsBelow(c, n)
    ensures Distinct(ShuffledBelow(ids, c, n))
    decreases n
  {
    hide Swap;
    if n > 1 {
      SwapKeepsDistinct(ids, n - 1, c[n - 1]);
      ShuffleKeepsDistinct(Swap(ids, n - 1, c[n - 1]), c, n - 1);
    }
  }

  /** The ids in some order. */
  ghost predicate Order(p: seq<Id>, ids: seq<Id>) {
    Distinct(p) && Elements(p) == Elements(ids) && |p| == |ids|
  }

  lemma ShuffledIsOrder(ids: seq<Id>, c: seq<nat>)
    requires Distinct(ids) && Draws(c, |ids|)
    ensures Order(Shuffled(ids, c), ids)
  {
    ShuffleKeepsDistinct(ids, c, |ids|);
    ShuffleIsPermutation(ids, c, |ids|);
    PermutationElements(Shuffled(ids, c), ids);
  }

  lemma DistinctFront(p: seq<Id>, k: nat)
    requires Distinct(p) && k <= |p|
    ensures Distinct(p[..k]) && |Elements(p[..k])| == k && Elements(p[..k]) <= Elements(p)
  {
    DistinctSize(p[..k]);
  }

  /** The selection holds the promised number of ids, all of them among the given ones. */
  lemma PickedSize(ids: seq<Id>, c: seq<nat>, n: int)
    requires Distinct(ids) && Draws(c, |ids|)
    ensures |Picked(ids, c, n)| == if n <= 0 then 0 else if n >= |ids| then |ids| else n
    ensures forall x :: x in Picked(ids, c, n) ==> x in ids
  {
    ShuffledIsOrder(ids, c);
    DistinctFront(Shuffled(ids, c), SelectionSize(n, |ids|));
  }

  // ---------------------------------------------------------------- renaming

  ghost function Listing(s: set<Id>): (p: seq<Id>)
    ensures Distinct(p) && Elements(p) == s && |p| == |s|
  {
    if s == {} then []
    else
      var x :| x in s;
      [x] + Listing(s - {x})
  }

  lemma ConcatDistinct(f: seq<Id>, r: seq<Id>)
    requires Distinct(f) && Distinct(r) && Elements(f) !! Elements(r)
    ensures Distinct(f + r) && Elements(f + r) == Elements(f) + Elements(r)
  {
    forall i, j | 0 <= i < j < |f + r|
      ensures (f + r)[i] != (f + r)[j]
    {
      if i < |f| <= j {
        assert f[i] in Elements(f) && r[j - |f|] in Elements(r);
      }
    }
  }

  /** Some order of the ids that has s in front. */
  lemma FrontedBy(ids: seq<Id>, s: set<Id>) returns (p: seq<Id>)
    requires Distinct(ids) && s <= Elements(ids)
    ensures Order(p, ids) && |s| <= |p| && Elements(p[..|s|]) == s
  {
    hide Distinct, Elements;
    DistinctSize(ids);
    var f, r := Listing(s), Listing(Elements(ids) - s);
    ConcatDistinct(f, r);
    p := f + r;
    assert p[..|s|] == f;
    assert Elements(ids) == s + (Elements(ids) - s);
  }

  /** Renames each id of `a` to the one at the same place of `b`. */
  ghost function Renamed(a: seq<Id>, b: seq<Id>, p: seq<Id>): (q: seq<Id>)
    requires |a| == |b| && Elements(p) <= Elements(a)
    ensures |q| == |p|
  {
    seq(|p|, i requires 0 <= i < |p| => assert p[i] in Elements(p); b[IndexIn(a, p[i])])
  }

  lemma RenamedIsInjective(a: seq<Id>, b: seq<Id>, p: seq<Id>, q: seq<Id>)
    requires |a| == |b| && Distinct(b) && Elements(p) <= Elements(a) && Elements(q) <= Elements(a)
    requires |p| == |q| && Renamed(a, b, p) == Renamed(a, b, q)
    ensures p == q
  {
    forall i | 0 <= i < |p|
      ensures p[i] == q[i]
    {
      assert p[i] in Elements(p) && q[i] in Elements(q);
      assert Renamed(a, b, p)[i] == b[IndexIn(a, p[i])] && Renamed(a, b, q)[i] == b[IndexIn(a, q[i])];
      assert IndexIn(a, p[i]) == IndexIn(a, q[i]);
    }
  }

  lemma RenamedIsOrder(ids: seq<Id>, a: seq<Id>, b: seq<Id>, p: seq<Id>)
    requires Order(a, ids) && Order(b, ids) && Order(p, ids)
    ensures Order(Renamed(a, b, p), ids)
  {
    var q := Renamed(a, b, p);
    forall i, j | 0 <= i < j < |q|
      ensures q[i] != q[j]
    {
      assert p[i] in Elements(p) && p[j] in Elements(p);
      assert a[IndexIn(a, p[i])] != a[IndexIn(a, p[j])];
    }
    DistinctSize(q);
    DistinctSize(b);
    assert Elements(q) <= Elements(b);
    SubsetOfSameSize(Elements(q), Elements(b));
  }

  lemma SubsetOfSameSize<T>(a: set<T>, b: set<T>)
    requires a <= b && |a| == |b|
    ensures a == b
  {
    assert b == a + (b - a);
  }

  /** If p and a have the same ids in front, so have the renamed p and b. */
  lemma RenamedFront(ids: seq<Id>, a: seq<Id>, b: seq<Id>, p: seq<Id>, k: nat)
    requires Order(a, ids) && Order(b, ids) && Order(p, ids) && k <= |ids|
    requires Elements(p[..k]) == Elements(a[..k])
    ensures Elements(Renamed(a, b, p)[..k]) == Elements(b[..k])
  {
    var q := Renamed(a, b, p);
    RenamedIsOrder(ids, a, b, p);
    forall y | y in q[..k]
      ensures y in Elements(b[..k])
    {
      var i :| 0 <= i < k && q[i] == y;
      assert p[i] in Elements(p) && p[i] == p[..k][i] && p[i] in Elements(p[..k]);
      var j :| 0 <= j < k && a[..k][j] == p[i];
      assert a[IndexIn(a, p[i])] == a[j];
      assert y == b[j] == b[..k][j];
    }
    DistinctFront(q, k);
    DistinctFront(b, k);
    SubsetOfSameSize(Elements(q[..k]), Elements(b[..k]));
  }

  // ---------------------------------------------------------------- counting

  lemma {:induction false} InjectionBound<A, B>(a: set<A>, b: set<B>, f: map<A, B>)
    requires forall x :: x in a ==> x in f && f[x] in b
    requires forall x, y :: x in a && y in a && f[x] == f[y] ==> x == y
    ensures |a| <= |b|
    decreases |a|
  {
    if a != {} {
      var x :| x in a;
      InjectionBound(a - {x}, b - {f[x]}, f);
    }
  }

  /** The draws that pick t instead, by renaming. */
  ghost function Transferred(ids: seq<Id>, a: seq<Id>, b: seq<Id>, c: seq<nat>): (d: seq<nat>)
    requires Distinct(ids) && Order(a, ids) && Order(b, ids) && Draws(c, |ids|)
    ensures Draws(d, |ids|)
  {
    ShuffledIsOrder(ids, c);
    RenamedIsOrder(ids, a, b, Shuffled(ids, c));
    SameElementsPermute(Renamed(a, b, Shuffled(ids, c)), ids);
    DrawsFor(ids, Renamed(a, b, Shuffled(ids, c)), |ids|)
  }

  lemma TransferredShuffle(ids: seq<Id>, a: seq<Id>, b: seq<Id>, c: seq<nat>)
    requires Distinct(ids) && Order(a, ids) && Order(b, ids) && Draws(c, |ids|)
    ensures Elements(Shuffled(ids, c)) == Elements(ids)
    ensures Shuffled(ids, Transferred(ids, a, b, c)) == Renamed(a, b, Shuffled(ids, c))
  {
    ShuffledIsOrder(ids, c);
    var q := Renamed(a, b, Shuffled(ids, c));
    RenamedIsOrder(ids, a, b, Shuffled(ids, c));
    SameElementsPermute(q, ids);
    DrawsForWork(ids, q, |ids|);
  }

  lemma NoLessLikely(ids: seq<Id>, n: int, s: set<Id>, t: set<Id>)
    requires Distinct(ids) && s <= Elements(ids) && t <= Elements(ids)
    requires |s| == |t| == SelectionSize(n, |ids|)
    ensures |DrawsPicking(ids, n, s)| <= |DrawsPicking(ids, n, t)|
  {
    hide DrawsFor, Renamed, Shuffled, Distinct, Elements;
    var k := |s|;
    var a := FrontedBy(ids, s);
    var b := FrontedBy(ids, t);
    var from, to := DrawsPicking(ids, n, s), DrawsPicking(ids, n, t);
    var f := map c | c in from :: Transferred(ids, a, b, c);
    forall c | c in from
      ensures f[c] in to
    {
      ShuffledIsOrder(ids, c);
      TransferredShuffle(ids, a, b, c);
      RenamedFront(ids, a, b, Shuffled(ids, c), k);
      AllDrawsAre(|ids|, f[c]);
    }
    forall c, d | c in from && d in from && f[c] == f[d]
      ensures c == d
    {
      TransferredShuffle(ids, a, b, c);
      TransferredShuffle(ids, a, b, d);
      RenamedIsInjective(a, b, Shuffled(ids, c), Shuffled(ids, d));
      SameDraws(ids, c, d);
    }
    InjectionBound(from, to, f);
  }

  lemma SameDraws(ids: seq<Id>, c: seq<nat>, d: seq<nat>)
    requires Distinct(ids) && Draws(c, |ids|) && Draws(d, |ids|) && Shuffled(ids, c) == Shuffled(ids, d)
    ensures c == d
  {
    DrawsDetermined(ids, c, d, |ids|);
  }

  /** Any two sets of the selection's size are picked by equally many draw sequences. */
  lemma EquallyLikely(ids: seq<Id>, n: int, s: set<Id>, t: set<Id>)
    requires Distinct(ids) && s <= Elements(ids) && t <= Elements(ids)
    requires |s| == |t| == SelectionSize(n, |ids|)
    ensures |DrawsPicking(ids, n, s)| == |DrawsPicking(ids, n, t)|
    ensures DrawsPicking(ids, n, s) != {}
  {
    NoLessLikely(ids, n, s, t);
    NoLessLikely(ids, n, t, s);
    var p := FrontedBy(ids, s);
    SameElementsPermute(p, ids);
    var c := DrawsFor(ids, p, |ids|);
    DrawsForWork(ids, p, |ids|);
    AllDrawsAre(|ids|, c);
    assert c in DrawsPicking(ids, n, s);
  }
}

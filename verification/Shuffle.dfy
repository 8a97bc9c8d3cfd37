/**
 * The random selection of frontend/components/gallery/student-photo-actions.tsx. A run of the loop is
 * determined by its draws: at position i it draws some j in 0..i. `Draws` are those sequences; the
 * generator that makes them equally likely is not part of this model.
 */
module Shuffle {
  type Id = string

  /** A draw for each position below n, none beyond its position. */
  predicate DrawsBelow(c: seq<nat>, n: nat) {
    n <= |c| && forall i :: 0 <= i < n ==> c[i] <= i
  }

  predicate Draws(c: seq<nat>, n: nat) {
    |c| == n && DrawsBelow(c, n)
  }

  function Swap(s: seq<Id>, i: nat, j: nat): (t: seq<Id>)
    requires i < |s| && j < |s|
    ensures |t| == |s| && t[i] == s[j] && t[j] == s[i]
    ensures forall k :: 0 <= k < |s| && k != i && k != j ==> t[k] == s[k]
  {
    s[i := s[j]][j := s[i]]
  }

  /** The two sequences agree from position n on. */
  ghost predicate SameFrom(p: seq<Id>, q: seq<Id>, n: nat) {
    |p| == |q| && forall k :: n <= k < |q| ==> p[k] == q[k]
  }

  /** The loop from position n - 1 down to 1. */
  function ShuffledBelow(ids: seq<Id>, c: seq<nat>, n: nat): (p: seq<Id>)
    requires n <= |ids| && DrawsBelow(c, n)
    ensures SameFrom(p, ids, n)
    decreases n
  {
    if n <= 1 then ids else ShuffledBelow(Swap(ids, n - 1, c[n - 1]), c, n - 1)
  }

  function Shuffled(ids: seq<Id>, c: seq<nat>): (p: seq<Id>)
    requires Draws(c, |ids|)
    ensures |p| == |ids|
  {
    ShuffledBelow(ids, c, |ids|)
  }

  function SelectionSize(n: int, count: nat): (k: nat)
    ensures k <= count
  {
    if n < 0 then 0 else if n < count then n else count
  }

  function Elements(ids: seq<Id>): set<Id> {
    set x | x in ids
  }

  function Picked(ids: seq<Id>, c: seq<nat>, n: int): set<Id>
    requires Draws(c, |ids|)
  {
    Elements(Shuffled(ids, c)[..SelectionSize(n, |ids|)])
  }

  method Exchange(ids: array<Id>, i: nat, j: nat)
    requires i < ids.Length && j < ids.Length
    modifies ids
    ensures ids[..] == Swap(old(ids[..]), i, j)
  {
    ids[i], ids[j] := ids[j], ids[i];
  }

  lemma ShuffleStep(ids: seq<Id>, c: seq<nat>, i: nat)
    requires i < |ids| && DrawsBelow(c, i + 1)
    ensures ShuffledBelow(ids, c, i + 1) == if i > 0 then ShuffledBelow(Swap(ids, i, c[i]), c, i) else ids
  {
  }

  lemma ShuffleEnd(ids: seq<Id>, c: seq<nat>, n: nat)
    requires n <= 1 && n <= |ids| && DrawsBelow(c, n)
    ensures ShuffledBelow(ids, c, n) == ids
  {
  }

  lemma FewerDraws(c: seq<nat>, n: nat, k: nat)
    requires DrawsBelow(c, n) || Draws(c, n)
    requires k <= n
    ensures n <= |c| && DrawsBelow(c, n) && DrawsBelow(c, k) && (n > 0 ==> c[n - 1] < n)
  {
  }

  lemma PickedIsFront(media: seq<Id>, c: seq<nat>, n: int)
    requires Draws(c, |media|)
    ensures DrawsBelow(c, |media|) && ShuffledBelow(media, c, |media|) == Shuffled(media, c)
    ensures Picked(media, c, n) == Elements(Shuffled(media, c)[..SelectionSize(n, |media|)])
  {
  }

  /** The selection as the source makes it: shuffle a copy in place, keep the front. */
  method PickRandomIds(media: seq<Id>, n: int, c: seq<nat>) returns (picked: set<Id>)
    requires Draws(c, |media|)
    ensures picked == Picked(media, c, n)
  {
    hide *;
    var ids := new Id[|media|](i requires 0 <= i < |media| => media[i]);
    assert ids[..] == media;
    PickedIsFront(media, c, n);
    FewerDraws(c, |media|, |media|);
    var i := ids.Length - 1;
    while i > 0
      invariant -1 <= i < ids.Length && (i == -1 ==> ids.Length == 0)
      invariant DrawsBelow(c, i + 1)
      invariant ShuffledBelow(ids[..], c, i + 1) == Shuffled(media, c)
    {
      ShuffleStep(ids[..], c, i);
      FewerDraws(c, i + 1, i);
      Exchange(ids, i, c[i]);
      i := i - 1;
    }
    ShuffleEnd(ids[..], c, i + 1);
    picked := Elements(ids[..][..SelectionSize(n, |media|)]);
  }

  // ---------------------------------------------------------------- draws and permutations correspond

  ghost predicate Distinct(ids: seq<Id>) {
    forall i, j :: 0 <= i < j < |ids| ==> ids[i] != ids[j]
  }

  ghost predicate Permutation(p: seq<Id>, ids: seq<Id>) {
    |p| == |ids| && multiset(p) == multiset(ids)
  }

  lemma SwapIsPermutation(s: seq<Id>, i: nat, j: nat)
    requires i < |s| && j < |s|
    ensures Permutation(Swap(s, i, j), s)
  {
  }

  lemma SwapKeepsDistinct(s: seq<Id>, i: nat, j: nat)
    requires i < |s| && j < |s| && Distinct(s)
    ensures Distinct(Swap(s, i, j))
  {
  }

  lemma {:induction false} ShuffleIsPermutation(ids: seq<Id>, c: seq<nat>, n: nat)
    requires n <= |ids| && DrawsBelow(c, n)
    ensures Permutation(ShuffledBelow(ids, c, n), ids)
    decreases n
  {
    hide Swap;
    if n > 1 {
      SwapIsPermutation(ids, n - 1, c[n - 1]);
      ShuffleIsPermutation(Swap(ids, n - 1, c[n - 1]), c, n - 1);
    }
  }

  /** Two runs from the same ids that agree in the end drew the same. */
  lemma {:induction false} DrawsDetermined(ids: seq<Id>, c: seq<nat>, d: seq<nat>, n: nat)
    requires Distinct(ids) && n <= |ids| && DrawsBelow(c, n) && DrawsBelow(d, n)
    requires ShuffledBelow(ids, c, n) == ShuffledBelow(ids, d, n)
    ensures forall i :: 0 <= i < n ==> c[i] == d[i]
    decreases n
  {
    hide Swap;
    if n > 1 {
      var k := n - 1;
      assert ShuffledBelow(ids, c, n)[k] == ids[c[k]] && ShuffledBelow(ids, d, n)[k] == ids[d[k]];
      assert c[k] == d[k];
      SwapKeepsDistinct(ids, k, c[k]);
      DrawsDetermined(Swap(ids, k, c[k]), c, d, k);
    }
  }

  /** The position of an element. */
  function IndexIn(ids: seq<Id>, x: Id): (i: nat)
    requires x in ids
    ensures i < |ids| && ids[i] == x
  {
    if ids[0] == x then 0 else 1 + IndexIn(ids[1..], x)
  }

  lemma LastIsBelow(ids: seq<Id>, p: seq<Id>, n: nat)
    requires 0 < n <= |ids| && Permutation(p, ids) && SameFrom(p, ids, n)
    ensures p[n - 1] in ids[..n]
  {
    assert ids == ids[..n] + ids[n..] && p == p[..n] + p[n..];
    assert p[n..] == ids[n..];
    assert multiset(ids[..n]) == multiset(ids) - multiset(ids[n..]);
    assert multiset(p[..n]) == multiset(p) - multiset(p[n..]);
    assert p[..n][n - 1] in multiset(p[..n]);
  }

  /** Drawing the position of p[n - 1] leaves only the positions below n - 1 to arrange. */
  lemma UndoOne(ids: seq<Id>, p: seq<Id>, n: nat)
    requires 0 < n <= |ids| && Permutation(p, ids) && SameFrom(p, ids, n)
    ensures p[n - 1] in ids[..n]
    ensures var s := Swap(ids, n - 1, IndexIn(ids[..n], p[n - 1])); Permutation(p, s) && SameFrom(p, s, n - 1)
  {
    hide Swap, IndexIn;
    LastIsBelow(ids, p, n);
    var j := IndexIn(ids[..n], p[n - 1]);
    assert ids[j] == ids[..n][j] == p[n - 1];
    SwapIsPermutation(ids, n - 1, j);
  }

  /** The draws that lead from `ids` to `p`. */
  function DrawsFor(ids: seq<Id>, p: seq<Id>, n: nat): (c: seq<nat>)
    requires n <= |ids| && Permutation(p, ids) && SameFrom(p, ids, n)
    ensures Draws(c, n)
    decreases n
  {
    if n == 0 then []
    else
      UndoOne(ids, p, n);
      var j := IndexIn(ids[..n], p[n - 1]);
      DrawsFor(Swap(ids, n - 1, j), p, n - 1) + [j]
  }

  /** Later draws are not looked at. */
  lemma {:induction false} LaterDrawsIgnored(ids: seq<Id>, c: seq<nat>, j: nat, n: nat)
    requires n <= |ids| && DrawsBelow(c, n)
    ensures ShuffledBelow(ids, c + [j], n) == ShuffledBelow(ids, c, n)
    decreases n
  {
    hide Swap;
    if n > 1 {
      LaterDrawsIgnored(Swap(ids, n - 1, c[n - 1]), c, j, n - 1);
    }
  }

  lemma {:induction false} DrawsForWork(ids: seq<Id>, p: seq<Id>, n: nat)
    requires n <= |ids| && Permutation(p, ids) && SameFrom(p, ids, n)
    ensures ShuffledBelow(ids, DrawsFor(ids, p, n), n) == p
    decreases n
  {
    hide Swap, IndexIn, Permutation, ShuffledBelow, DrawsBelow;
    if n == 0 {
      ShuffleEnd(ids, [], 0);
    } else {
      UndoOne(ids, p, n);
      var j := IndexIn(ids[..n], p[n - 1]);
      var s := Swap(ids, n - 1, j);
      DrawsForWork(s, p, n - 1);
      LaterDrawsIgnored(s, DrawsFor(s, p, n - 1), j, n - 1);
      ShuffleStep(ids, DrawsFor(ids, p, n), n - 1);
      if n == 1 {
        ShuffleEnd(s, [], 0);
        assert s == ids;
      }
    }
  }

  /** Every permutation of distinct ids is drawn by exactly one sequence of draws. */
  lemma ShuffleIsBijection(ids: seq<Id>, p: seq<Id>)
    requires Distinct(ids) && Permutation(p, ids)
    ensures exists c :: Draws(c, |ids|) && Shuffled(ids, c) == p
    ensures forall c, d :: Draws(c, |ids|) && Draws(d, |ids|) && Shuffled(ids, c) == p == Shuffled(ids, d) ==> c == d
  {
    DrawsForWork(ids, p, |ids|);
    assert Shuffled(ids, DrawsFor(ids, p, |ids|)) == p;
    forall c, d | Draws(c, |ids|) && Draws(d, |ids|) && Shuffled(ids, c) == p == Shuffled(ids, d)
      ensures c == d
    {
      DrawsDetermined(ids, c, d, |ids|);
    }
  }
}

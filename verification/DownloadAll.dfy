/**
 * "Download all" (frontend/lib/hooks/use-download-all.ts): a sequential stream to disk where the
 * browser can, otherwise a pool of four workers that buffers the archive in memory.
 *
 * What a fetch of each photo would bring is fixed and arbitrary; both ways of saving see the same.
 */
module DownloadAll {
  import opened Options
  import opened Decimal
  import opened WorkerPool

  const BUFFERED_CAP: nat := 500

  datatype Fetch<B> = Failed | Got(contentType: Option<string>, body: B)

  datatype Entry<B> = Entry(name: string, body: B)

  /** The caller's naming of entries, if it supplies one. */
  type Naming = Option<nat -> string>

  // ---------------------------------------------------------------- entry names

  function UpTo(s: string, ch: char): string {
    if s == "" || s[0] == ch then "" else [s[0]] + UpTo(s[1..], ch)
  }

  function After(s: string, ch: char): Option<string> {
    if s == "" then None else if s[0] == ch then Some(s[1..]) else After(s[1..], ch)
  }

  function Extension(contentType: Option<string>): string {
    match After(if contentType.Some? then contentType.value else "", '/')
    case None => "jpg"
    case Some(rest) =>
      var subtype := UpTo(UpTo(rest, '/'), ';');
      if subtype == "" || subtype == "octet-stream" then "jpg" else subtype
  }

  function Base(index: nat, naming: Naming): string {
    match naming
    case Some(name) => name(index)
    case None => "photo-" + PadStart(Digits(index + 1), 3)
  }

  function NameFor(index: nat, contentType: Option<string>, naming: Naming): string {
    Base(index, naming) + "." + Extension(contentType)
  }

  lemma {:induction false} UpToStops(s: string, ch: char, t: string)
    requires ch !in s
    ensures UpTo(s + [ch] + t, ch) == s && UpTo(s, ch) == s
    ensures After(s + [ch] + t, ch) == Some(t)
    decreases |s|
  {
    if s == "" {
      assert (s + [ch] + t)[1..] == t;
    } else {
      assert (s + [ch] + t)[1..] == s[1..] + [ch] + t;
      UpToStops(s[1..], ch, t);
    }
  }

  lemma {:induction false} UpToSkips(s: string, ch: char, t: string)
    requires ch !in s
    ensures UpTo(s + t, ch) == s + UpTo(t, ch)
    decreases |s|
  {
    if s == "" {
      assert s + t == t;
    } else {
      assert (s + t)[1..] == s[1..] + t;
      UpToSkips(s[1..], ch, t);
    }
  }

  /** The extension is the subtype of the content type, with any parameters or none, unless the subtype
      says nothing. */
  lemma ExtensionIsSubtype(media: string, subtype: string, parameters: string)
    requires '/' !in media && '/' !in subtype && ';' !in subtype
    ensures var ext := if subtype == "" || subtype == "octet-stream" then "jpg" else subtype;
            Extension(Some(media + "/" + subtype)) == Extension(Some(media + "/" + subtype + ";" + parameters)) == ext
  {
    hide UpTo, After;
    var more := subtype + ";" + parameters;
    UpToStops(media, '/', subtype);
    UpToStops(media, '/', more);
    assert media + "/" + subtype + ";" + parameters == media + "/" + more;
    UpToStops(subtype, '/', "");
    UpToSkips(subtype + ";", '/', parameters);
    assert subtype + ";" + parameters == more;
    UpToStops(subtype, ';', UpTo(parameters, '/'));
  }

  lemma {:induction false} UpToDot(s: string, t: string)
    requires '.' !in s
    ensures UpTo(s + "." + t, '.') == s
    decreases |s|
  {
    if s == "" {
      assert (s + "." + t)[0] == '.';
    } else {
      assert (s + "." + t)[1..] == s[1..] + "." + t;
      UpToDot(s[1..], t);
    }
  }

  lemma {:induction false} LeadingZero(s: string)
    requires AllDigits(s)
    ensures AllDigits("0" + s) && Value("0" + s) == Value(s)
    decreases |s|
  {
    if s == "" {
      assert ("0" + s)[..0] == "";
    } else {
      LeadingZero(s[..|s| - 1]);
      assert ("0" + s)[..|s|] == "0" + s[..|s| - 1];
    }
  }

  lemma {:induction false} ValueOfPadded(s: string, width: nat)
    requires AllDigits(s)
    ensures AllDigits(PadStart(s, width)) && Value(PadStart(s, width)) == Value(s)
    decreases width - |s|
  {
    if |s| < width {
      LeadingZero(s);
      ValueOfPadded("0" + s, width);
    }
  }

  /** Without a naming of the caller's, no two photos of an archive share an entry name. */
  lemma DefaultNamesDiffer(i: nat, j: nat, a: Option<string>, b: Option<string>)
    ensures NameFor(i, a, None) == NameFor(j, b, None) ==> i == j
  {
    hide Digits, PadStart, Value, Extension;
    var p, q := PadStart(Digits(i + 1), 3), PadStart(Digits(j + 1), 3);
    ValueOfPadded(Digits(i + 1), 3);
    ValueOfPadded(Digits(j + 1), 3);
    ValueOfDigits(i + 1);
    ValueOfDigits(j + 1);
    UpToDot("photo-" + p, Extension(a));
    UpToDot("photo-" + q, Extension(b));
    assert ("photo-" + p)[6..] == p && ("photo-" + q)[6..] == q;
  }

  /** The caller's naming is used where there is one; otherwise photos are numbered from one, with at
      least three digits. */
  lemma NamesAre(i: nat, contentType: Option<string>, naming: Naming)
    ensures naming.Some? ==> NameFor(i, contentType, naming) == naming.value(i) + "." + Extension(contentType)
    ensures naming == None ==>
              exists p :: AllDigits(p) && Value(p) == i + 1 && (|p| == 3 || (|p| > 3 && p == Digits(i + 1)))
                          && NameFor(i, contentType, naming) == "photo-" + p + "." + Extension(contentType)
  {
    hide Extension, Digits, Value;
    ValueOfPadded(Digits(i + 1), 3);
    ValueOfDigits(i + 1);
    PaddedIs(Digits(i + 1), 3);
    var p := PadStart(Digits(i + 1), 3);
    assert naming == None ==> NameFor(i, contentType, naming) == "photo-" + p + "." + Extension(contentType);
  }

  lemma PaddedIs(s: string, width: nat)
    ensures |s| >= width ==> PadStart(s, width) == s
  {
  }

  // ---------------------------------------------------------------- what an archive should hold

  function EntryOf<B>(fetches: seq<Fetch<B>>, naming: Naming, i: nat): Option<Entry<B>>
    requires i < |fetches|
  {
    match fetches[i]
    case Failed => None
    case Got(contentType, body) => Some(Entry(NameFor(i, contentType, naming), body))
  }

  /** The photos among the first n that could be fetched, in order. */
  function Collected<B>(fetches: seq<Fetch<B>>, naming: Naming, n: nat): (entries: seq<Entry<B>>)
    requires n <= |fetches|
    ensures |entries| <= n
  {
    if n == 0 then []
    else Collected(fetches, naming, n - 1) + match EntryOf(fetches, naming, n - 1) case None => [] case Some(e) => [e]
  }

  lemma {:induction false} CollectedEmpty<B>(fetches: seq<Fetch<B>>, naming: Naming, n: nat)
    requires n <= |fetches|
    ensures Collected(fetches, naming, n) == [] <==> forall i :: 0 <= i < n ==> fetches[i].Failed?
    decreases n
  {
    if n > 0 {
      CollectedEmpty(fetches, naming, n - 1);
    }
  }

  lemma {:induction false} CollectedLocal<B>(fetches: seq<Fetch<B>>, naming: Naming, n: nat, m: nat)
    requires n <= m <= |fetches|
    ensures Collected(fetches[..m], naming, n) == Collected(fetches, naming, n)
    decreases n
  {
    if n > 0 {
      CollectedLocal(fetches, naming, n - 1, m);
    }
  }

  lemma CollectedNext<B>(fetches: seq<Fetch<B>>, naming: Naming, n: nat)
    requires n < |fetches|
    ensures var a, b := Collected(fetches, naming, n), Collected(fetches, naming, n + 1);
            a <= b && |b| == |a| + if fetches[n].Failed? then 0 else 1
  {
  }

  lemma {:induction false} CollectedPrefix<B>(fetches: seq<Fetch<B>>, naming: Naming, n: nat, m: nat)
    requires n <= m <= |fetches|
    ensures var a, b := Collected(fetches, naming, n), Collected(fetches, naming, m);
            a <= b && (|a| == |b| <==> forall i :: n <= i < m ==> fetches[i].Failed?)
    decreases m
  {
    hide Collected;
    if n < m {
      CollectedNext(fetches, naming, m - 1);
      CollectedPrefix(fetches, naming, n, m - 1);
    }
  }

  /** How many of the first n photos could be fetched. */
  function Fetched<B>(fetches: seq<Fetch<B>>, n: nat): nat
    requires n <= |fetches|
  {
    if n == 0 then 0 else Fetched(fetches, n - 1) + if fetches[n - 1].Got? then 1 else 0
  }

  /** Each photo that could be fetched stands in the archive behind those before it, with its own bytes and
      under the name of its own place; and there is nothing else. */
  lemma {:induction false} ArchiveHolds<B>(fetches: seq<Fetch<B>>, naming: Naming, n: nat, i: nat)
    requires i < n <= |fetches|
    ensures |Collected(fetches, naming, n)| == Fetched(fetches, n)
    ensures fetches[i].Got? ==>
              && Fetched(fetches, i) < Fetched(fetches, n)
              && Collected(fetches, naming, n)[Fetched(fetches, i)]
                 == Entry(NameFor(i, fetches[i].contentType, naming), fetches[i].body)
    decreases n
  {
    hide NameFor;
    CollectedSize(fetches, naming, n - 1);
    if i < n - 1 {
      ArchiveHolds(fetches, naming, n - 1, i);
    }
  }

  lemma {:induction false} CollectedSize<B>(fetches: seq<Fetch<B>>, naming: Naming, n: nat)
    requires n <= |fetches|
    ensures |Collected(fetches, naming, n)| == Fetched(fetches, n)
    decreases n
  {
    hide NameFor;
    if n > 0 {
      CollectedSize(fetches, naming, n - 1);
    }
  }

  // ---------------------------------------------------------------- the sequential stream

  method StreamToDisk<B>(fetches: seq<Fetch<B>>, naming: Naming, dismissed: bool)
    returns (archive: seq<Entry<B>>, saved: nat, cancelled: bool, ticks: nat)
    ensures cancelled == dismissed
    ensures archive == if dismissed then [] else Collected(fetches, naming, |fetches|)
    ensures saved == |archive| && ticks == if dismissed then 0 else |fetches|
  {
    archive, saved, cancelled, ticks := [], 0, dismissed, 0;
    if dismissed {
      return;
    }
    for i := 0 to |fetches|
      invariant archive == Collected(fetches, naming, i) && saved == |archive| && ticks == i
    {
      var entry := EntryOf(fetches, naming, i);
      if entry.Some? {
        saved := saved + 1;
      }
      ticks := ticks + 1;
      if entry.Some? {
        archive := archive + [entry.value];
      }
    }
  }

  // ---------------------------------------------------------------- the buffered pool

  /** Items taken and given back have their result; the others have none yet. */
  ghost predicate Filled<B>(results: seq<Option<Entry<B>>>, fetches: seq<Fetch<B>>, naming: Naming, p: Pool) {
    && |results| == |fetches| == p.size && p.next <= p.size
    && forall i :: 0 <= i < |results| ==>
         results[i] == if i < p.next && i !in Held(p) then EntryOf(fetches, naming, i) else None
  }

  function Present<B>(results: seq<Option<Entry<B>>>): seq<Entry<B>> {
    if results == [] then []
    else Present(results[..|results| - 1]) + match results[|results| - 1] case None => [] case Some(e) => [e]
  }

  lemma {:induction false} PresentIsCollected<B>(results: seq<Option<Entry<B>>>, fetches: seq<Fetch<B>>,
                                                 naming: Naming, n: nat)
    requires n <= |results| == |fetches| && forall i :: 0 <= i < n ==> results[i] == EntryOf(fetches, naming, i)
    ensures Present(results[..n]) == Collected(fetches, naming, n)
    decreases n
  {
    hide EntryOf;
    if n > 0 {
      assert results[..n][..n - 1] == results[..n - 1];
      PresentIsCollected(results, fetches, naming, n - 1);
    }
  }

  lemma NothingFilled<B>(fetches: seq<Fetch<B>>, naming: Naming, results: seq<Option<Entry<B>>>)
    requires results == seq(|fetches|, _ => None)
    ensures Filled(results, fetches, naming, Start(|fetches|, 4))
    ensures Start(|fetches|, 4).next == 0
  {
  }

  lemma FilledAfterPull<B>(results: seq<Option<Entry<B>>>, fetches: seq<Fetch<B>>, naming: Naming, p: Pool, w: nat)
    requires Valid(p) && Filled(results, fetches, naming, p) && w < |p.workers| && p.workers[w] == Ready
    ensures Filled(results, fetches, naming, Pull(p, w))
    ensures Pull(p, w).next == (if p.next < p.size then p.next + 1 else p.next) && Pull(p, w).size == p.size
  {
    hide Held, EntryOf;
    PullKeeps(p, w);
  }

  lemma FilledAfterFinish<B>(results: seq<Option<Entry<B>>>, fetches: seq<Fetch<B>>, naming: Naming, p: Pool, w: nat)
    requires Valid(p) && Filled(results, fetches, naming, p) && w < |p.workers| && p.workers[w].Busy?
    ensures p.workers[w].item < |results| == |fetches|
    ensures var i := p.workers[w].item;
            Filled(results[i := EntryOf(fetches, naming, i)], fetches, naming, Finish(p, w))
    ensures Finish(p, w).next == p.next && Finish(p, w).size == p.size
  {
    hide Held, EntryOf;
    FinishKeeps(p, w);
  }

  lemma FilledIsCollected<B>(results: seq<Option<Entry<B>>>, fetches: seq<Fetch<B>>, naming: Naming, p: Pool)
    requires Filled(results, fetches, naming, p) && p.next == p.size && Held(p) == {}
    ensures Present(results) == Collected(fetches, naming, |fetches|) && p.size == |fetches|
  {
    hide Held, EntryOf;
    PresentIsCollected(results, fetches, naming, |fetches|);
    assert results[..|fetches|] == results;
  }

  /** At most four workers share the queue. At every turn any worker that has not left may go on: it
      takes the next item, finishes the one it holds, or leaves. Whatever the turns, the archive is
      the sequential one; `None` is the thrown error. */
  method BufferedSave<B>(fetches: seq<Fetch<B>>, naming: Naming) returns (archive: Option<seq<Entry<B>>>, ticks: nat)
    ensures var all := Collected(fetches, naming, |fetches|); archive == if all == [] then None else Some(all)
    ensures ticks == |fetches|
  {
    hide *;
    var results: seq<Option<Entry<B>>> := seq(|fetches|, _ => None);
    var p := Start(|fetches|, 4);
    StartIsValid(|fetches|, 4);
    NothingFilled(fetches, naming, results);
    ticks := 0;
    while !Drained(p)
      invariant Valid(p) && Filled(results, fetches, naming, p)
      invariant ticks + |Held(p)| == p.next
      decreases p.size - p.next, |Held(p)|, |Live(p)|
    {
      SomeoneIsLive(p);
      var w :| 0 <= w < |p.workers| && p.workers[w] != Exited;
      if p.workers[w].Ready? {
        PullKeeps(p, w);
        FilledAfterPull(results, fetches, naming, p, w);
        p := Pull(p, w);
      } else {
        var i := p.workers[w].item;
        FinishKeeps(p, w);
        FilledAfterFinish(results, fetches, naming, p, w);
        results := results[i := EntryOf(fetches, naming, i)];
        ticks := ticks + 1;
        p := Finish(p, w);
      }
    }
    DrainedIsDone(p);
    FilledIsCollected(results, fetches, naming, p);
    var entries := Present(results);
    archive := if entries == [] then None else Some(entries);
  }

  // ---------------------------------------------------------------- the hook

  datatype Picker = NoPicker | Dismissed | Chosen

  datatype Outcome<B> =
    | Thrown
    | Finished(archive: seq<Entry<B>>, saved: nat, capped: bool, cancelled: bool)

  /** A run covers all photos when streaming, and the first 500 when buffering. */
  method OnDownloadAll<B>(fetches: seq<Fetch<B>>, naming: Naming, picker: Picker, busy: bool)
    returns (out: Outcome<B>, done: nat)
    ensures busy || fetches == [] ==> out == Finished([], 0, false, false) && done == 0
    ensures !busy && fetches != [] && picker == Dismissed ==> out == Finished([], 0, false, true) && done == 0
    ensures !busy && fetches != [] && picker != Dismissed ==>
              var n := if picker == NoPicker && |fetches| > 500 then 500 else |fetches|;
              && done == n
              && (out.Thrown? <==> picker == NoPicker && forall i :: 0 <= i < n ==> fetches[i].Failed?)
              && (out.Finished? ==>
                    var archive := Collected(fetches, naming, n);
                    out == Finished(archive, |archive|, picker == NoPicker && |fetches| > 500, false))
  {
    done := 0;
    if busy || fetches == [] {
      return Finished([], 0, false, false), 0;
    }
    if picker != NoPicker {
      var archive, saved, cancelled, ticks := StreamToDisk(fetches, naming, picker == Dismissed);
      return Finished(archive, saved, false, cancelled), ticks;
    }
    var capped := |fetches| > BUFFERED_CAP;
    var n := if capped then BUFFERED_CAP else |fetches|;
    var archive, ticks := BufferedSave(fetches[..n], naming);
    CollectedLocal(fetches, naming, n, n);
    CollectedEmpty(fetches, naming, n);
    done := ticks;
    out := if archive == None then Thrown else Finished(archive.value, |archive.value|, capped, false);
  }

  /** Buffering saves a front part of what streaming saves, and the same unless it is capped. */
  lemma BufferedIsFrontOfStreamed<B>(fetches: seq<Fetch<B>>, naming: Naming)
    ensures var buffered := Collected(fetches, naming, if |fetches| > 500 then 500 else |fetches|);
            var streamed := Collected(fetches, naming, |fetches|);
            && buffered <= streamed
            && (|fetches| <= 500 ==> buffered == streamed)
            && (buffered == streamed <==> forall i :: 500 <= i < |fetches| ==> fetches[i].Failed?)
  {
    hide Collected;
    var n := if |fetches| > BUFFERED_CAP then BUFFERED_CAP else |fetches|;
    CollectedPrefix(fetches, naming, n, |fetches|);
  }
}

/**
 * The photo viewer (frontend/components/gallery/lightbox.tsx) while the list behind it only grows. A
 * key handler sees the values of the last effects, a button those of the last render, and either may
 * be out of date when it runs.
 */
module Lightbox {

  /** What the grid hands to the viewer besides the index. */
  datatype Props = Props(len: nat, hasMore: bool, loadingMore: bool)

  datatype View = View(index: nat, props: Props)

  /** `now`: the state the next render will see; `rendered`: the last render; `seen`: the last render
      whose effects have run; `wantNext`: "next" was pressed at the end of the loaded photos. */
  datatype Box = Box(now: View, rendered: View, seen: View, wantNext: bool)

  predicate CanPrev(v: View) {
    v.index > 0
  }

  predicate AtLastLoaded(v: View) {
    v.index >= v.props.len - 1
  }

  predicate CanNext(v: View) {
    !AtLastLoaded(v) || v.props.hasMore
  }

  datatype Source = Key | Button

  datatype Event =
    | Prev(via: Source)
    | Forward(via: Source)
    | Grows(props: Props)
    | Renders
    | Effects

  function Handler(b: Box, src: Source): View {
    if src == Key then b.seen else b.rendered
  }

  /** React runs the effects of one render before it renders again. */
  predicate Enabled(b: Box, e: Event) {
    match e
    case Prev(src) => CanPrev(Handler(b, src))
    case Forward(src) => CanNext(Handler(b, src))
    case Grows(props) => props.len >= b.now.props.len
    case Renders => b.rendered == b.seen
    case Effects => true
  }

  /** The pending "next" is consumed by these effects. */
  predicate Fires(b: Box) {
    && (b.rendered.index != b.seen.index || b.rendered.props.len != b.seen.props.len)
    && b.wantNext && b.rendered.index < b.rendered.props.len - 1
  }

  function Next(b: Box, e: Event): Box
    requires Enabled(b, e)
  {
    match e
    case Prev(src) => b.(now := b.now.(index := Handler(b, src).index - 1))
    case Forward(src) =>
      var v := Handler(b, src);
      if !AtLastLoaded(v) then b.(now := b.now.(index := v.index + 1))
      else b.(wantNext := true)
    case Grows(props) => b.(now := b.now.(props := props))
    case Renders => b.(rendered := b.now)
    case Effects =>
      if Fires(b) then b.(now := b.now.(index := b.rendered.index + 1), seen := b.rendered, wantNext := false)
      else b.(seen := b.rendered)
  }

  /** The press also asks the grid for a page. */
  predicate AsksForPage(b: Box, e: Event) {
    e.Forward? && var v := Handler(b, e.via); AtLastLoaded(v) && v.props.hasMore && !v.props.loadingMore
  }

  function Open(index: nat, props: Props): Box {
    Box(View(index, props), View(index, props), View(index, props), false)
  }

  /** The viewer's state, with the handlers and the effect that update it in place. */
  class Viewer {
    var index: nat
    var props: Props
    var rendered: View
    var seen: View
    var wantNext: bool

    function State(): Box
      reads this
    {
      Box(View(index, props), rendered, seen, wantNext)
    }

    constructor (i: nat, p: Props)
      ensures State() == Open(i, p)
    {
      index, props, wantNext := i, p, false;
      rendered, seen := View(i, p), View(i, p);
    }

    method GoPrev(src: Source)
      requires Enabled(State(), Prev(src))
      modifies this`index
      ensures State() == Next(old(State()), Prev(src))
    {
      var v := if src == Key then seen else rendered;
      index := v.index - 1;
    }

    method GoNext(src: Source) returns (loadMore: bool)
      requires Enabled(State(), Forward(src))
      modifies this`index, this`wantNext
      ensures State() == Next(old(State()), Forward(src))
      ensures loadMore <==> AsksForPage(old(State()), Forward(src))
    {
      var v := if src == Key then seen else rendered;
      loadMore := false;
      if v.index < v.props.len - 1 {
        index := v.index + 1;
      } else if v.props.hasMore {
        wantNext := true;
        loadMore := !v.props.loadingMore;
      }
    }

    method RunEffects()
      modifies this`index, this`seen, this`wantNext
      ensures State() == Next(old(State()), Effects)
    {
      if rendered.index != seen.index || rendered.props.len != seen.props.len {
        if wantNext && rendered.index < rendered.props.len - 1 {
          wantNext := false;
          index := rendered.index + 1;
        }
      }
      seen := rendered;
    }
  }

  // ---------------------------------------------------------------- every run stays in range

  ghost predicate BoxInv(b: Box) {
    && b.seen.index < b.seen.props.len
    && b.seen.props.len <= b.rendered.props.len <= b.now.props.len
    && b.rendered.index < b.seen.props.len
    && b.now.index < b.rendered.props.len
    && (b.wantNext ==> AtLastLoaded(b.seen) || AtLastLoaded(b.rendered))
  }

  predicate CanHappen(b: Box, events: seq<Event>)
    decreases |events|
  {
    events == [] || (Enabled(b, events[0]) && CanHappen(Next(b, events[0]), events[1..]))
  }

  function After(b: Box, events: seq<Event>): Box
    requires CanHappen(b, events)
    decreases |events|
  {
    if events == [] then b else After(Next(b, events[0]), events[1..])
  }

  lemma EventKeeps(b: Box, e: Event)
    requires BoxInv(b) && Enabled(b, e)
    ensures BoxInv(Next(b, e))
  {
  }

  lemma {:induction false} RunsKeep(b: Box, events: seq<Event>)
    requires BoxInv(b) && CanHappen(b, events)
    ensures BoxInv(After(b, events))
    decreases |events|
  {
    hide BoxInv, Enabled, Next;
    if events != [] {
      EventKeeps(b, events[0]);
      RunsKeep(Next(b, events[0]), events[1..]);
    }
  }

  /** Opened on a loaded photo, the viewer is on a loaded photo for ever, whatever the order of presses,
      page arrivals, renders and effects; and so is every render and every handler. */
  lemma AlwaysInRange(index: nat, props: Props, events: seq<Event>)
    requires index < props.len && CanHappen(Open(index, props), events)
    ensures var b := After(Open(index, props), events);
            && b.now.index < b.now.props.len
            && b.rendered.index < b.rendered.props.len
            && b.seen.index < b.seen.props.len
  {
    RunsKeep(Open(index, props), events);
  }

  // ---------------------------------------------------------------- the pending "next"

  function CountFired(b: Box, events: seq<Event>): nat
    requires CanHappen(b, events)
    decreases |events|
  {
    if events == [] then 0
    else (if events[0].Effects? && Fires(b) then 1 else 0) + CountFired(Next(b, events[0]), events[1..])
  }

  /** The presses of "next" at the end of what the handler knows to be loaded. */
  function CountAtEnd(b: Box, events: seq<Event>): nat
    requires CanHappen(b, events)
    decreases |events|
  {
    if events == [] then 0
    else (if events[0].Forward? && AtLastLoaded(Handler(b, events[0].via)) then 1 else 0)
         + CountAtEnd(Next(b, events[0]), events[1..])
  }

  function Pending(b: Box): nat {
    if b.wantNext then 1 else 0
  }

  /** Each press at the end is consumed at most once, and presses that wait together count as one. */
  lemma {:induction false} ConsumedAtMostOnce(b: Box, events: seq<Event>)
    requires CanHappen(b, events)
    ensures CountFired(b, events) + Pending(After(b, events)) <= CountAtEnd(b, events) + Pending(b)
    decreases |events|
  {
    if events != [] {
      ConsumedAtMostOnce(Next(b, events[0]), events[1..]);
    }
  }

  /** A pending "next" fires with the first effects whose render has a further photo. */
  lemma FiresWithRoom(index: nat, props: Props, events: seq<Event>)
    requires index < props.len && CanHappen(Open(index, props), events)
    ensures var b := After(Open(index, props), events);
            b.wantNext && !AtLastLoaded(b.rendered) ==> Fires(b)
  {
    RunsKeep(Open(index, props), events);
  }

  /** Nothing is left to render or to run. */
  predicate Settled(b: Box) {
    b.now == b.rendered == b.seen
  }

  lemma SettledPendingIsAtEnd(index: nat, props: Props, events: seq<Event>)
    requires index < props.len && CanHappen(Open(index, props), events)
    requires Settled(After(Open(index, props), events))
    ensures var b := After(Open(index, props), events); b.wantNext ==> b.now.index == b.now.props.len - 1
  {
    RunsKeep(Open(index, props), events);
  }

  /** A press at the last of `first` loaded photos is waiting, or has been stepped over by a newer button. */
  ghost predicate Waiting(b: Box, first: nat) {
    && first > 0 && b.wantNext
    && b.seen.index == first - 1 && b.seen.props.len == first
    && b.rendered.index == first - 1 && first <= b.rendered.props.len <= b.now.props.len
    && (b.now.index == first - 1 || (b.now.index == first < b.rendered.props.len))
  }

  predicate NoPrev(events: seq<Event>) {
    forall e :: e in events ==> !e.Prev?
  }

  lemma WaitingGoesOn(b: Box, first: nat, e: Event)
    requires Waiting(b, first) && Enabled(b, e) && !e.Prev?
    ensures e == Effects && Fires(b) ==> Next(b, e).now.index == first && !Next(b, e).wantNext
    ensures !(e == Effects && Fires(b)) ==> Waiting(Next(b, e), first)
  {
  }

  lemma {:induction false} WaitingOn(b: Box, first: nat, events: seq<Event>)
    requires Waiting(b, first) && CanHappen(b, events) && NoPrev(events) && CountFired(b, events) == 0
    ensures Waiting(After(b, events), first)
    decreases |events|
  {
    hide Waiting, Fires, Enabled, Next;
    if events != [] {
      WaitingGoesOn(b, first, events[0]);
      WaitingOn(Next(b, events[0]), first, events[1..]);
    }
  }

  /** Unless "previous" comes in between, the pending "next" steps exactly to the first photo that was
      not loaded when it was pressed. */
  lemma LandsOnFirstNew(index: nat, props: Props, before: seq<Event>, via: Source, between: seq<Event>)
    requires index < props.len && CanHappen(Open(index, props), before)
    requires var b := After(Open(index, props), before);
             && Settled(b) && AtLastLoaded(b.now) && b.now.props.hasMore
             && CanHappen(Next(b, Forward(via)), between) && NoPrev(between)
             && CountFired(Next(b, Forward(via)), between) == 0
             && Fires(After(Next(b, Forward(via)), between))
    ensures var b := After(Open(index, props), before);
            var c := Next(After(Next(b, Forward(via)), between), Effects);
            c.now.index == b.now.props.len && !c.wantNext
  {
    RunsKeep(Open(index, props), before);
    var b := After(Open(index, props), before);
    var first := b.now.props.len;
    WaitingOn(Next(b, Forward(via)), first, between);
    WaitingGoesOn(After(Next(b, Forward(via)), between), first, Effects);
  }

  /** Stepping back takes hold exactly when no "next" is pending: otherwise the effects of the very next
      render step forward again. */
  lemma PrevTakesHold(index: nat, props: Props, events: seq<Event>, via: Source)
    requires index < props.len && CanHappen(Open(index, props), events)
    requires var b := After(Open(index, props), events); Settled(b) && CanPrev(b.now)
    ensures var b := After(Open(index, props), events);
            var back := Next(Next(Next(b, Prev(via)), Renders), Effects);
            && (back.now.index == b.now.index - 1 <==> !b.wantNext)
            && (back.now.index == b.now.index <==> b.wantNext)
  {
    RunsKeep(Open(index, props), events);
  }

  /** What a press is about: a key acts on the view of the last effects, a button on that of the last render. */
  predicate ActsOn(via: Source, b: Box, v: View) {
    match via
    case Key => v == b.seen
    case Button => v == b.rendered
  }

  /** A press, and then everything runs: the effects that were due, a render, and its effects. */
  function Pressed(b: Box, press: Event): Box
    requires Enabled(b, press)
  {
    Next(Next(Next(Next(b, press), Effects), Renders), Effects)
  }

  /** In any order of renders and presses: "next" leads one on from the photo that the handler knew, unless
      a pending "next" is due, which leads one on from the photo last rendered, or comes due by it. */
  lemma NextLeads(index: nat, props: Props, events: seq<Event>, via: Source, v: View)
    requires index < props.len && CanHappen(Open(index, props), events)
    requires var b := After(Open(index, props), events);
             ActsOn(via, b, v) && v.index < v.props.len - 1
    ensures var b := After(Open(index, props), events);
            && Enabled(b, Forward(via))
            && Pressed(b, Forward(via)).now.index
               == if Fires(b) then b.rendered.index + 1
                  else if b.wantNext && v.index + 1 < b.now.props.len - 1 then v.index + 2
                  else v.index + 1
  {
    RunsKeep(Open(index, props), events);
  }

  /** Likewise "previous", which a pending "next" undoes. */
  lemma PrevLeads(index: nat, props: Props, events: seq<Event>, via: Source, v: View)
    requires index < props.len && CanHappen(Open(index, props), events)
    requires var b := After(Open(index, props), events);
             ActsOn(via, b, v) && v.index > 0
    ensures var b := After(Open(index, props), events);
            && Enabled(b, Prev(via))
            && Pressed(b, Prev(via)).now.index
               == if Fires(b) then b.rendered.index + 1 else if b.wantNext then v.index else v.index - 1
  {
    RunsKeep(Open(index, props), events);
  }

  /** From a viewer at rest with a further photo loaded, "next" leads exactly one on, and to rest again with
      nothing pending. */
  lemma NextTakesHold(index: nat, props: Props, events: seq<Event>, via: Source)
    requires index < props.len && CanHappen(Open(index, props), events)
    requires var b := After(Open(index, props), events); Settled(b) && b.now.index < b.now.props.len - 1
    ensures var b := After(Open(index, props), events);
            && Enabled(b, Forward(via))
            && Settled(Pressed(b, Forward(via))) && !Pressed(b, Forward(via)).wantNext
            && Pressed(b, Forward(via)).now == View(b.now.index + 1, b.now.props)
  {
    RunsKeep(Open(index, props), events);
  }

  /** At the last loaded photo "next" leaves the photo, and waits exactly when the list goes on; at the end of
      the list there is no "next". */
  lemma NextAtEnd(index: nat, props: Props, events: seq<Event>, via: Source)
    requires index < props.len && CanHappen(Open(index, props), events)
    requires var b := After(Open(index, props), events); Settled(b) && b.now.index == b.now.props.len - 1
    ensures var b := After(Open(index, props), events);
            && (Enabled(b, Forward(via)) <==> b.now.props.hasMore)
            && (Enabled(b, Forward(via)) ==>
                  && Settled(Pressed(b, Forward(via))) && Pressed(b, Forward(via)).wantNext
                  && Pressed(b, Forward(via)).now == b.now)
  {
    RunsKeep(Open(index, props), events);
  }

  /** A "next" at the last of two photos waits for a page; "previous" then leads back to the last one. */
  lemma PrevUndone()
    ensures var box := Open(1, Props(2, true, false));
            && CanHappen(box, [Forward(Key)])
            && After(box, [Forward(Key)]).wantNext && Settled(After(box, [Forward(Key)]))
            && CanPrev(After(box, [Forward(Key)]).now)
            && CanHappen(box, [Forward(Key), Prev(Key), Renders, Effects])
            && After(box, [Forward(Key), Prev(Key), Renders, Effects]).now.index == 1
  {
    var box := Open(1, Props(2, true, false));
    var b := Next(box, Forward(Key));
    assert b == box.(wantNext := true);
    assert [Forward(Key)][1..] == [];
    After4(box, Forward(Key), Prev(Key), Renders, Effects);
  }

  lemma After4(b: Box, e: Event, f: Event, g: Event, h: Event)
    requires Enabled(b, e) && Enabled(Next(b, e), f) && Enabled(Next(Next(b, e), f), g)
    requires Enabled(Next(Next(Next(b, e), f), g), h)
    ensures CanHappen(b, [e, f, g, h]) && After(b, [e, f, g, h]) == Next(Next(Next(Next(b, e), f), g), h)
  {
    hide Next, Enabled;
    assert [e, f, g, h][1..] == [f, g, h] && [f, g, h][1..] == [g, h] && [g, h][1..] == [h] && [h][1..] == [];
    var x, y := Next(b, e), Next(Next(b, e), f);
    var z := Next(y, g);
    assert CanHappen(z, [h]) && After(z, [h]) == After(Next(z, h), []);
    assert CanHappen(y, [g, h]) && After(y, [g, h]) == After(z, [h]);
    assert CanHappen(x, [f, g, h]) && After(x, [f, g, h]) == After(y, [g, h]);
  }
}

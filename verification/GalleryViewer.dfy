/**
 * The viewer opened over the paged gallery: frontend/components/gallery/photo-grid.tsx hands the
 * loaded photos, `hasMore` and `loadingMore` to frontend/components/gallery/lightbox.tsx, which asks
 * the list hook for the next page.
 */
module GalleryViewer {
  import G = PhotoGrid
  import L = Lightbox

  datatype State = State(grid: G.Grid, box: L.Box)

  datatype Event =
    | OfGrid(e: G.Event)     // a page arrives, the sentinel behind the viewer is hit, or a further page is asked for
    | OfViewer(v: L.Event)   // a press, a render or the effects

  function PropsOf(g: G.Grid): L.Props {
    L.Props(|G.Items(g)|, !G.ReachedEnd(g), G.IsLoadingMore(g))
  }

  predicate Enabled(s: State, e: Event) {
    match e
    case OfGrid(e) => G.Enabled(s.grid, e)
    case OfViewer(v) => !v.Grows? && L.Enabled(s.box, v)
  }

  /** The grid passes its new properties down whenever it changes. */
  function Passed(g: G.Grid, box: L.Box): State {
    State(g, box.(now := box.now.(props := PropsOf(g))))
  }

  function Next(s: State, list: seq<G.Id>, e: Event): State
    requires Enabled(s, e)
  {
    match e
    case OfGrid(e) => Passed(G.Next(s.grid, list, e), s.box)
    case OfViewer(v) =>
      Passed(if L.AsksForPage(s.box, v) then G.AskForMore(s.grid) else s.grid, L.Next(s.box, v))
  }

  predicate CanHappen(s: State, list: seq<G.Id>, events: seq<Event>)
    decreases |events|
  {
    events == [] || (Enabled(s, events[0]) && CanHappen(Next(s, list, events[0]), list, events[1..]))
  }

  function After(s: State, list: seq<G.Id>, events: seq<Event>): State
    requires CanHappen(s, list, events)
    decreases |events|
  {
    if events == [] then s else After(Next(s, list, events[0]), list, events[1..])
  }

  /** A tile of the grid is clicked. */
  function Open(g: G.Grid, tile: nat): State {
    State(g, L.Open(tile, PropsOf(g)))
  }

  /** Reached by some run of the gallery, a click on a tile, and some run with the viewer open. */
  ghost predicate Reachable(s: State, list: seq<G.Id>) {
    exists before, tile, events :: ReachedBy(s, list, before, tile, events)
  }

  ghost predicate ReachedBy(s: State, list: seq<G.Id>, before: seq<G.Event>, tile: nat, events: seq<Event>) {
    && G.CanHappen(G.OPENED, list, before)
    && var g := G.After(G.OPENED, list, before);
       && tile < |G.Shown(g)|
       && CanHappen(Open(g, tile), list, events)
       && s == After(Open(g, tile), list, events)
  }

  // ---------------------------------------------------------------- the invariant

  /** As long as nothing has arrived since, an old view is right about there being more. */
  ghost predicate NotOutdated(v: L.View, now: L.Props) {
    v.props.len == now.len ==> (v.props.hasMore ==> now.hasMore) && (v.props.loadingMore ==> now.loadingMore)
  }

  /** A pending "next" waits for a page that is on its way, or that has arrived since the press. */
  ghost predicate Backed(b: L.Box) {
    b.wantNext ==>
      || (b.now.props.hasMore && b.now.props.loadingMore)
      || (L.AtLastLoaded(b.seen) && b.now.props.len > b.seen.props.len)
      || (L.AtLastLoaded(b.rendered) && b.now.props.len > b.rendered.props.len)
  }

  ghost predicate Inv(s: State, list: seq<G.Id>) {
    && G.Consistent(s.grid, list) && s.grid.pages != []
    && L.BoxInv(s.box) && s.box.now.props == PropsOf(s.grid)
    && NotOutdated(s.box.seen, s.box.now.props) && NotOutdated(s.box.rendered, s.box.now.props)
    && Backed(s.box)
  }

  lemma OpenInv(list: seq<G.Id>, before: seq<G.Event>, tile: nat)
    requires G.CanHappen(G.OPENED, list, before)
    requires tile < |G.Shown(G.After(G.OPENED, list, before))|
    ensures Inv(Open(G.After(G.OPENED, list, before), tile), list)
  {
    hide G.CanHappen, G.After;
    G.RunsKeep(G.OPENED, list, before);
  }

  /** A page that arrives brings at least one photo. */
  lemma ArrivalAdds(g: G.Grid, list: seq<G.Id>)
    requires G.Consistent(g, list) && g.pages != [] && G.Awaited(g)
    ensures var h := G.Next(g, list, G.PageArrives);
            && G.Consistent(h, list) && h.pages != []
            && |G.Items(h)| > |G.Items(g)|
  {
    hide G.Flatten;
    G.ItemsAreFront(g, list);
    G.ArrivalKeeps(g, list);
    G.ItemsAreFront(G.Next(g, list, G.PageArrives), list);
  }

  lemma AwaitedIs(g: G.Grid, list: seq<G.Id>)
    requires G.Consistent(g, list)
    ensures G.Awaited(g) <==> !G.ReachedEnd(g) && G.IsLoadingMore(g)
  {
    G.ItemsAreFront(g, list);
  }

  lemma SentinelIs(g: G.Grid)
    ensures G.SentinelHit(g).pages == g.pages
    ensures PropsOf(G.SentinelHit(g)).len == PropsOf(g).len && PropsOf(G.SentinelHit(g)).hasMore == PropsOf(g).hasMore
    ensures PropsOf(g).loadingMore ==> PropsOf(G.SentinelHit(g)).loadingMore
  {
  }

  lemma GridEventKeeps(s: State, list: seq<G.Id>, e: G.Event)
    requires Inv(s, list) && Enabled(s, OfGrid(e))
    ensures Inv(Next(s, list, OfGrid(e)), list)
  {
    hide G.Consistent, G.Awaited, G.Items, G.ReachedEnd, G.SentinelHit, G.Receive;
    G.EventKeeps(s.grid, list, e);
    match e
    case PageArrives => ArrivalAdds(s.grid, list);
    case Sentinel => SentinelIs(s.grid);
    case LoadsMore => AskIs(s.grid, list);
  }

  lemma AskIs(g: G.Grid, list: seq<G.Id>)
    requires G.Consistent(g, list)
    ensures G.Consistent(G.AskForMore(g), list)
    ensures PropsOf(G.AskForMore(g)) == PropsOf(g).(loadingMore := true)
  {
  }

  lemma ViewerEventKeeps(s: State, list: seq<G.Id>, v: L.Event)
    requires Inv(s, list) && Enabled(s, OfViewer(v))
    ensures Inv(Next(s, list, OfViewer(v)), list)
  {
    hide G.Consistent, G.Items, G.ReachedEnd, G.AskForMore, G.IsLoadingMore;
    AskIs(s.grid, list);
    AskKeepsPages(s.grid);
  }

  lemma AskKeepsPages(g: G.Grid)
    ensures G.AskForMore(g).pages == g.pages
  {
  }

  lemma {:induction false} RunsKeep(s: State, list: seq<G.Id>, events: seq<Event>)
    requires Inv(s, list) && CanHappen(s, list, events)
    ensures Inv(After(s, list, events), list)
    decreases |events|
  {
    hide Inv, Enabled, Next;
    if events != [] {
      match events[0] {
        case OfGrid(e) => GridEventKeeps(s, list, e);
        case OfViewer(v) => ViewerEventKeeps(s, list, v);
      }
      RunsKeep(Next(s, list, events[0]), list, events[1..]);
    }
  }

  lemma ReachableInv(s: State, list: seq<G.Id>)
    requires Reachable(s, list)
    ensures Inv(s, list)
  {
    hide Inv, CanHappen, After, G.CanHappen, G.After;
    var before, tile, events :| ReachedBy(s, list, before, tile, events);
    OpenInv(list, before, tile);
    RunsKeep(Open(G.After(G.OPENED, list, before), tile), list, events);
  }

  // ---------------------------------------------------------------- what the viewer shows

  /** The viewer always shows the photo of the server's list that its index says. */
  lemma ShowsThePhotoOfItsIndex(s: State, list: seq<G.Id>)
    requires Reachable(s, list)
    ensures s.box.now.index < |G.Items(s.grid)| <= |list|
    ensures G.Items(s.grid)[s.box.now.index] == list[s.box.now.index]
  {
    ReachableInv(s, list);
    G.ItemsAreFront(s.grid, list);
  }

  /** The awaited page arrives, and all is rendered. */
  function Served(s: State, list: seq<G.Id>): State
    requires G.Awaited(s.grid) && L.Settled(s.box)
  {
    var arrived := Next(s, list, OfGrid(G.PageArrives));
    Next(Next(arrived, list, OfViewer(L.Renders)), list, OfViewer(L.Effects))
  }

  /** In s the viewer stands on the photo of the list that was the first not loaded in `before`. */
  predicate OnFirstNew(s: State, before: State, list: seq<G.Id>) {
    var first := |G.Items(before.grid)|;
    && first < |G.Items(s.grid)| <= |list|
    && s.box.now.index == first
    && G.Items(s.grid)[first] == list[first]
  }

  lemma FrontPhoto(g: G.Grid, list: seq<G.Id>, k: nat)
    requires G.Consistent(g, list) && k < |G.Items(g)|
    ensures |G.Items(g)| <= |list| && G.Items(g)[k] == list[k]
  {
    G.ItemsAreFront(g, list);
  }

  /** Once all is rendered, a pending "next" has a page on its way; and when that page arrives, the
      viewer steps to the first photo that had not been loaded. */
  lemma PendingIsServed(s: State, list: seq<G.Id>)
    requires Reachable(s, list) && L.Settled(s.box) && s.box.wantNext
    ensures G.Awaited(s.grid)
    ensures OnFirstNew(Served(s, list), s, list) && !Served(s, list).box.wantNext
  {
    hide G.Consistent, G.Items, G.ReachedEnd, G.Awaited, G.Receive;
    ReachableInv(s, list);
    AwaitedIs(s.grid, list);
    ArrivalAdds(s.grid, list);
    FrontPhoto(G.Next(s.grid, list, G.PageArrives), list, |G.Items(s.grid)|);
  }

  // ---------------------------------------------------------------- asking once

  /** Once all is rendered, "next" at the last loaded photo asks for a page exactly when none is on its
      way; but a second press before the next render asks for one more. */
  lemma AsksWhenNoneIsOnItsWay(s: State, list: seq<G.Id>, via: L.Source)
    requires Reachable(s, list) && L.Settled(s.box)
    requires L.AtLastLoaded(s.box.now) && L.Enabled(s.box, L.Forward(via))
    ensures L.AsksForPage(s.box, L.Forward(via)) <==> !G.Awaited(s.grid)
    ensures L.AsksForPage(Next(s, list, OfViewer(L.Forward(via))).box, L.Forward(via)) <==> !G.Awaited(s.grid)
  {
    hide G.Consistent, G.Items, G.ReachedEnd, G.Awaited;
    ReachableInv(s, list);
    AwaitedIs(s.grid, list);
  }

  /** One page has arrived and the window has grown over it. */
  lemma PageAndWindow(list: seq<G.Id>) returns (g: G.Grid)
    requires |list| > G.LIST_PAGE_SIZE
    ensures G.CanHappen(G.OPENED, list, [G.PageArrives, G.Sentinel])
    ensures g == G.After(G.OPENED, list, [G.PageArrives, G.Sentinel])
    ensures |g.pages| == g.size == 1 && !G.ReachedEnd(g)
    ensures |G.Items(g)| == |G.Shown(g)| == G.LIST_PAGE_SIZE
  {
    hide G.Flatten, G.Receive;
    G.ArrivalKeeps(G.OPENED, list);
    var one := G.Next(G.OPENED, list, G.PageArrives);
    G.ItemsAreFront(one, list);
    g := G.Next(one, list, G.Sentinel);
    SentinelIs(one);
    ArrivalKeepsSize(G.OPENED, list);
    assert [G.PageArrives, G.Sentinel][1..] == [G.Sentinel] && [G.Sentinel][1..] == [];
    assert G.CanHappen(one, list, [G.Sentinel]) && G.After(one, list, [G.Sentinel]) == g;
  }

  lemma ArrivalKeepsSize(g: G.Grid, list: seq<G.Id>)
    requires G.Enabled(g, G.PageArrives)
    ensures G.Next(g, list, G.PageArrives).size == g.size
  {
  }

  /** Over any list of more than one page the second request does happen: one page loaded, the window
      grown, the last tile opened, and "next" pressed twice at once. */
  lemma SecondPressAsksAgain(list: seq<G.Id>) returns (s: State)
    requires |list| > G.LIST_PAGE_SIZE
    ensures Reachable(s, list) && L.Settled(s.box)
    ensures L.AtLastLoaded(s.box.now) && L.Enabled(s.box, L.Forward(L.Key)) && !G.Awaited(s.grid)
    ensures var press := OfViewer(L.Forward(L.Key));
            && Enabled(Next(s, list, press), press)
            && Next(Next(s, list, press), list, press).grid.size == |s.grid.pages| + 2
  {
    hide G.Items, G.ReachedEnd, G.CanHappen, G.After;
    var g := PageAndWindow(list);
    s := Open(g, G.LIST_PAGE_SIZE - 1);
    assert ReachedBy(s, list, [G.PageArrives, G.Sentinel], G.LIST_PAGE_SIZE - 1, []);
  }

  // ---------------------------------------------------------------- walking through the list

  lemma {:induction false} RunConcat(s: State, list: seq<G.Id>, a: seq<Event>, b: seq<Event>)
    requires CanHappen(s, list, a) && CanHappen(After(s, list, a), list, b)
    ensures CanHappen(s, list, a + b) && After(s, list, a + b) == After(After(s, list, a), list, b)
    decreases |a|
  {
    hide Enabled, Next;
    if a == [] {
      assert a + b == b;
    } else {
      assert (a + b)[1..] == a[1..] + b;
      RunConcat(Next(s, list, a[0]), list, a[1..], b);
    }
  }

  lemma RunOne(s: State, list: seq<G.Id>, e: Event)
    requires Enabled(s, e)
    ensures CanHappen(s, list, [e]) && After(s, list, [e]) == Next(s, list, e)
  {
    assert [e][1..] == [];
  }

  const RENDERED: seq<Event> := [OfViewer(L.Renders), OfViewer(L.Effects)]

  /** "Next" is pressed; at the last loaded photo, the page it waits for arrives; and all is rendered. */
  function PressEvents(s: State, via: L.Source): seq<Event> {
    [OfViewer(L.Forward(via))]
    + (if L.AtLastLoaded(s.box.now) then [OfGrid(G.PageArrives)] else [])
    + (RENDERED + RENDERED)
  }

  /** Rendering and effects concern the viewer only. */
  lemma RenderedRun(s: State, list: seq<G.Id>)
    requires s.box.rendered == s.box.seen && s.box.now.props == PropsOf(s.grid)
    ensures CanHappen(s, list, RENDERED)
    ensures After(s, list, RENDERED) == State(s.grid, L.Next(L.Next(s.box, L.Renders), L.Effects))
  {
    hide PropsOf;
    var r := Next(s, list, OfViewer(L.Renders));
    assert r == State(s.grid, L.Next(s.box, L.Renders));
    assert Next(r, list, OfViewer(L.Effects)) == State(s.grid, L.Next(r.box, L.Effects));
    RunOne(s, list, OfViewer(L.Renders));
    RunOne(r, list, OfViewer(L.Effects));
    RunConcat(s, list, [OfViewer(L.Renders)], [OfViewer(L.Effects)]);
    assert RENDERED == [OfViewer(L.Renders)] + [OfViewer(L.Effects)];
  }

  lemma RenderedTwice(s: State, list: seq<G.Id>)
    requires s.box.rendered == s.box.seen && s.box.now.props == PropsOf(s.grid)
    ensures CanHappen(s, list, RENDERED + RENDERED)
    ensures After(s, list, RENDERED + RENDERED)
         == State(s.grid, L.Next(L.Next(L.Next(L.Next(s.box, L.Renders), L.Effects), L.Renders), L.Effects))
  {
    hide PropsOf, After, CanHappen, Next;
    RenderedRun(s, list);
    RenderedRun(After(s, list, RENDERED), list);
    RunConcat(s, list, RENDERED, RENDERED);
  }

  /** The view one photo on, at rest. */
  ghost predicate OneOn(s: State, t: State) {
    L.Settled(t.box) && !t.box.wantNext && t.box.now.index == s.box.now.index + 1
  }

  lemma PressWithin(s: State, list: seq<G.Id>, via: L.Source)
    requires Inv(s, list) && L.Settled(s.box) && !L.AtLastLoaded(s.box.now)
    ensures CanHappen(s, list, PressEvents(s, via)) && OneOn(s, After(s, list, PressEvents(s, via)))
  {
    hide G.Consistent, PropsOf, After, CanHappen;
    var press := OfViewer(L.Forward(via));
    var t := Next(s, list, press);
    RunOne(s, list, press);
    RenderedTwice(t, list);
    RunConcat(s, list, [press], RENDERED + RENDERED);
    assert PressEvents(s, via) == [press] + (RENDERED + RENDERED);
  }

  lemma PressAtEnd(s: State, list: seq<G.Id>, via: L.Source)
    requires Inv(s, list) && L.Settled(s.box) && L.AtLastLoaded(s.box.now) && s.box.now.index + 1 < |list|
    ensures CanHappen(s, list, PressEvents(s, via)) && OneOn(s, After(s, list, PressEvents(s, via)))
  {
    hide G.Consistent, G.Items, G.ReachedEnd, G.Awaited, G.Receive, After, CanHappen;
    var press, arrival := OfViewer(L.Forward(via)), OfGrid(G.PageArrives);
    EndOfList(s.grid, list);
    var t := Next(s, list, press);
    ViewerEventKeeps(s, list, L.Forward(via));
    AwaitedIs(t.grid, list);
    AskIs(s.grid, list);
    ArrivalAdds(t.grid, list);
    var u := Next(t, list, arrival);
    RunOne(s, list, press);
    RunOne(t, list, arrival);
    RunConcat(s, list, [press], [arrival]);
    RenderedTwice(u, list);
    RunConcat(s, list, [press] + [arrival], RENDERED + RENDERED);
  }

  lemma EndOfList(g: G.Grid, list: seq<G.Id>)
    requires G.Consistent(g, list) && g.pages != []
    ensures G.ReachedEnd(g) <==> |G.Items(g)| == |list|
    ensures |G.Items(g)| <= |list|
  {
    G.ItemsAreFront(g, list);
  }

  /** k presses, each followed by all it causes, can happen. */
  ghost predicate CanPress(s: State, list: seq<G.Id>, via: L.Source, k: nat)
    decreases k
  {
    k == 0 || (CanHappen(s, list, PressEvents(s, via))
               && CanPress(After(s, list, PressEvents(s, via)), list, via, k - 1))
  }

  ghost function AfterPresses(s: State, list: seq<G.Id>, via: L.Source, k: nat): State
    requires CanPress(s, list, via, k)
    decreases k
  {
    if k == 0 then s else AfterPresses(After(s, list, PressEvents(s, via)), list, via, k - 1)
  }

  lemma {:induction false} PressesKeep(s: State, list: seq<G.Id>, via: L.Source, k: nat)
    requires Inv(s, list) && L.Settled(s.box) && s.box.now.index + k < |list|
    ensures CanPress(s, list, via, k)
    ensures var t := AfterPresses(s, list, via, k);
            Inv(t, list) && L.Settled(t.box) && t.box.now.index == s.box.now.index + k
    decreases k
  {
    hide Inv, PressEvents, CanHappen, After;
    if k > 0 {
      if L.AtLastLoaded(s.box.now) {
        PressAtEnd(s, list, via);
      } else {
        PressWithin(s, list, via);
      }
      RunsKeep(s, list, PressEvents(s, via));
      PressesKeep(After(s, list, PressEvents(s, via)), list, via, k - 1);
    }
  }

  /** From any tile i, k presses of "next" show photo i + k of the server's list, as long as there is one,
      over any page boundaries on the way. */
  lemma WalkingShowsTheList(list: seq<G.Id>, before: seq<G.Event>, tile: nat, via: L.Source, k: nat)
    requires G.CanHappen(G.OPENED, list, before)
    requires tile < |G.Shown(G.After(G.OPENED, list, before))| && tile + k < |list|
    ensures var s := Open(G.After(G.OPENED, list, before), tile);
            && CanPress(s, list, via, k)
            && var t := AfterPresses(s, list, via, k);
               && t.box.now.index == tile + k < |G.Items(t.grid)|
               && G.Items(t.grid)[tile + k] == list[tile + k]
  {
    hide G.CanHappen, G.After, G.Consistent, G.Items, CanPress, AfterPresses, PressEvents;
    OpenInv(list, before, tile);
    var s := Open(G.After(G.OPENED, list, before), tile);
    PressesKeep(s, list, via, k);
    FrontPhoto(AfterPresses(s, list, via, k).grid, list, tile + k);
  }
}

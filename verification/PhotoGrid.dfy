/**
 * The event gallery: the paged list (frontend/lib/hooks/use-infinite-list.ts) and the windowed grid
 * over it (frontend/components/gallery/photo-grid.tsx). A photo is known by its id.
 */
module PhotoGrid {
  import opened Options
  import opened Paging

  type Id = string

  const LIST_PAGE_SIZE: nat := 50
  const INITIAL_WINDOW: nat := 48
  const WINDOW_STEP: nat := 48

  datatype ListPage = ListPage(items: seq<Id>, total: nat, offset: nat)

  /** `pages`: the answers so far; `size`: how many pages are asked for; `visible`: how many tiles may
      be mounted; `prevFirst`: the first id at the last render. */
  datatype Grid = Grid(pages: seq<ListPage>, size: nat, visible: nat, prevFirst: Option<Id>)

  const OPENED: Grid := Grid([], 1, INITIAL_WINDOW, None)

  // ---------------------------------------------------------------- the list hook

  function Flatten(pages: seq<ListPage>): seq<Id> {
    if pages == [] then [] else Flatten(pages[..|pages| - 1]) + pages[|pages| - 1].items
  }

  function Items(g: Grid): seq<Id> {
    Flatten(g.pages)
  }

  function Total(g: Grid): nat {
    if g.pages == [] then 0 else g.pages[0].total
  }

  predicate ReachedEnd(g: Grid) {
    g.pages != [] && |Items(g)| >= Total(g)
  }

  predicate IsLoadingMore(g: Grid) {
    |g.pages| < g.size
  }

  /** The offset of the request for a page, or none once the page before reached the end. */
  function GetKey(index: nat, prev: Option<ListPage>): Option<nat> {
    if prev.Some? && prev.value.offset + |prev.value.items| >= prev.value.total then None
    else Some(index * LIST_PAGE_SIZE)
  }

  function NextKey(g: Grid): Option<nat> {
    GetKey(|g.pages|, if g.pages == [] then None else Some(g.pages[|g.pages| - 1]))
  }

  /** A request for a further page is under way. */
  predicate Awaited(g: Grid) {
    |g.pages| < g.size && NextKey(g).Some?
  }

  // ---------------------------------------------------------------- the grid

  function FirstId(g: Grid): Option<Id> {
    if Items(g) == [] then None else Some(Items(g)[0])
  }

  function Shown(g: Grid): seq<Id> {
    if g.visible < |Items(g)| then Items(g)[..g.visible] else Items(g)
  }

  predicate CanGrow(g: Grid) {
    g.visible < |Items(g)|
  }

  predicate CanFetch(g: Grid) {
    !ReachedEnd(g) && !IsLoadingMore(g)
  }

  function AskForMore(g: Grid): Grid {
    g.(size := g.size + 1)
  }

  /** Rendering with another first id starts the window anew. */
  function Render(g: Grid): Grid {
    if FirstId(g) != g.prevFirst then g.(prevFirst := FirstId(g), visible := INITIAL_WINDOW) else g
  }

  function Receive(g: Grid, page: ListPage): Grid {
    Render(g.(pages := g.pages + [page]))
  }

  /** The sentinel scrolls into view. */
  function SentinelHit(g: Grid): Grid {
    if CanGrow(g) then g.(visible := g.visible + WINDOW_STEP)
    else if CanFetch(g) then AskForMore(g)
    else g
  }

  /** The hook's and the grid's state, and the handlers that update it in place. */
  class Gallery {
    var pages: seq<ListPage>
    var size: nat
    var visibleCount: nat
    var prevFirstId: Option<Id>

    function State(): Grid
      reads this
    {
      Grid(pages, size, visibleCount, prevFirstId)
    }

    constructor ()
      ensures State() == OPENED
    {
      pages, size, visibleCount, prevFirstId := [], 1, INITIAL_WINDOW, None;
    }

    /** The flattening, page by page. */
    method FlatMap() returns (items: seq<Id>)
      ensures items == Items(State())
    {
      items := [];
      for k := 0 to |pages|
        invariant items == Flatten(pages[..k])
      {
        assert pages[..k + 1][..k] == pages[..k];
        items := items + pages[k].items;
      }
      assert pages[..|pages|] == pages;
    }

    method LoadMore()
      modifies this`size
      ensures State() == AskForMore(old(State()))
    {
      size := size + 1;
    }

    method RenderGrid()
      modifies this`visibleCount, this`prevFirstId
      ensures State() == Render(old(State()))
    {
      var items := FlatMap();
      var firstId := if |items| == 0 then None else Some(items[0]);
      if firstId != prevFirstId {
        prevFirstId := firstId;
        visibleCount := INITIAL_WINDOW;
      }
    }

    method PageArrives(page: ListPage)
      requires Awaited(State())
      modifies this
      ensures State() == Receive(old(State()), page)
    {
      pages := pages + [page];
      RenderGrid();
    }

    method OnIntersect()
      modifies this`size, this`visibleCount
      ensures State() == SentinelHit(old(State()))
    {
      var items := FlatMap();
      var total := if |pages| == 0 then 0 else pages[0].total;
      var reachedEnd := |pages| > 0 && |items| >= total;
      var canGrow := visibleCount < |items|;
      var canFetch := !reachedEnd && !(|pages| < size);
      if canGrow {
        visibleCount := visibleCount + WINDOW_STEP;
      } else if canFetch {
        LoadMore();
      }
    }
  }

  // ---------------------------------------------------------------- over a list that does not change

  /** The server's answer to the request at an offset. */
  function Answer(list: seq<Id>, offset: nat): ListPage {
    ListPage(list[Min(offset, |list|)..Min(offset + LIST_PAGE_SIZE, |list|)], |list|, offset)
  }

  /** `LoadsMore` comes from the lightbox or from a handler of an earlier render: it is not guarded. */
  datatype Event = PageArrives | Sentinel | LoadsMore

  predicate Enabled(g: Grid, e: Event) {
    e.PageArrives? ==> Awaited(g)
  }

  function Next(g: Grid, list: seq<Id>, e: Event): Grid
    requires Enabled(g, e)
  {
    match e
    case PageArrives => Receive(g, Answer(list, NextKey(g).value))
    case Sentinel => SentinelHit(g)
    case LoadsMore => AskForMore(g)
  }

  predicate CanHappen(g: Grid, list: seq<Id>, events: seq<Event>)
    decreases |events|
  {
    events == [] || (Enabled(g, events[0]) && CanHappen(Next(g, list, events[0]), list, events[1..]))
  }

  function After(g: Grid, list: seq<Id>, events: seq<Event>): Grid
    requires CanHappen(g, list, events)
    decreases |events|
  {
    if events == [] then g else After(Next(g, list, events[0]), list, events[1..])
  }

  /** The number of pages the list has; the first is always asked for. */
  function PagesOf(n: nat): nat {
    if n == 0 then 1 else (n + LIST_PAGE_SIZE - 1) / LIST_PAGE_SIZE
  }

  /** What every run keeps: page k holds rows 50k to 50k + 49, and no page past the end was asked for. */
  ghost predicate Consistent(g: Grid, list: seq<Id>) {
    && |g.pages| <= g.size && |g.pages| <= PagesOf(|list|) && g.size > 0
    && (forall k :: 0 <= k < |g.pages| ==> g.pages[k] == Answer(list, k * LIST_PAGE_SIZE))
    && g.prevFirst == (if g.pages == [] || list == [] then None else Some(list[0]))
    && (g.pages == [] ==> g.visible == INITIAL_WINDOW)
    && INITIAL_WINDOW <= g.visible
  }

  lemma {:induction false} FlattenIsFront(pages: seq<ListPage>, list: seq<Id>)
    requires forall k :: 0 <= k < |pages| ==> pages[k] == Answer(list, k * LIST_PAGE_SIZE)
    ensures Flatten(pages) == list[..Min(LIST_PAGE_SIZE * |pages|, |list|)]
    decreases |pages|
  {
    if pages != [] {
      var n := |pages| - 1;
      FlattenIsFront(pages[..n], list);
      assert pages[n] == Answer(list, n * LIST_PAGE_SIZE);
      FrontGrows(list, Min(LIST_PAGE_SIZE * n, |list|), Min(LIST_PAGE_SIZE * (n + 1), |list|));
    }
  }

  lemma ItemsAreFront(g: Grid, list: seq<Id>)
    requires Consistent(g, list)
    ensures Items(g) == list[..Min(LIST_PAGE_SIZE * |g.pages|, |list|)]
    ensures g.pages != [] ==> Total(g) == |list|
    ensures ReachedEnd(g) <==> |g.pages| == PagesOf(|list|)
    ensures NextKey(g) == if |g.pages| < PagesOf(|list|) then Some(|g.pages| * LIST_PAGE_SIZE) else None
  {
    FlattenIsFront(g.pages, list);
    if g.pages != [] {
      var n := |g.pages| - 1;
      assert g.pages[n] == Answer(list, n * LIST_PAGE_SIZE) && g.pages[0] == Answer(list, 0);
    }
  }

  lemma ArrivalKeeps(g: Grid, list: seq<Id>)
    requires Consistent(g, list) && Awaited(g)
    ensures Consistent(Next(g, list, PageArrives), list)
    ensures Next(g, list, PageArrives).pages == g.pages + [Answer(list, |g.pages| * LIST_PAGE_SIZE)]
    ensures Next(g, list, PageArrives).visible == g.visible
  {
    hide Flatten;
    ItemsAreFront(g, list);
    var page := Answer(list, |g.pages| * LIST_PAGE_SIZE);
    var h := g.(pages := g.pages + [page]);
    FlattenIsFront(h.pages, list);
    assert FirstId(h) == if list == [] then None else Some(list[0]);
  }

  /** Every event keeps the state consistent with the list. */
  lemma EventKeeps(g: Grid, list: seq<Id>, e: Event)
    requires Consistent(g, list) && Enabled(g, e)
    ensures Consistent(Next(g, list, e), list)
  {
    hide Flatten, Awaited, Answer;
    match e
    case PageArrives => ArrivalKeeps(g, list);
    case Sentinel => ItemsAreFront(g, list);
    case LoadsMore =>
  }

  lemma {:induction false} RunsKeep(g: Grid, list: seq<Id>, events: seq<Event>)
    requires Consistent(g, list) && CanHappen(g, list, events)
    ensures Consistent(After(g, list, events), list)
    decreases |events|
  {
    hide Consistent, Next, Enabled;
    if events != [] {
      EventKeeps(g, list, events[0]);
      RunsKeep(Next(g, list, events[0]), list, events[1..]);
    }
  }

  /** In every run the tiles are a front part of the list, in order, so nothing is missing or repeated;
      and the next request, if any, is for rows that exist. */
  lemma AlwaysAFront(list: seq<Id>, events: seq<Event>)
    requires CanHappen(OPENED, list, events)
    ensures var g := After(OPENED, list, events);
            && Items(g) == list[..Min(50 * |g.pages|, |list|)]
            && Shown(g) == list[..Min(g.visible, |Items(g)|)]
            && (ReachedEnd(g) <==> g.pages != [] && Items(g) == list)
            && (Awaited(g) ==> NextKey(g).value == 0 || NextKey(g).value < |list|)
  {
    hide Flatten, After, CanHappen;
    RunsKeep(OPENED, list, events);
    ItemsAreFront(After(OPENED, list, events), list);
  }

  /** Sentinel hits that mount further tiles. */
  function CountGrows(g: Grid, list: seq<Id>, events: seq<Event>): nat
    requires CanHappen(g, list, events)
    decreases |events|
  {
    if events == [] then 0
    else (if events[0].Sentinel? && CanGrow(g) then 1 else 0) + CountGrows(Next(g, list, events[0]), list, events[1..])
  }

  lemma {:induction false} GrowsCounted(g: Grid, list: seq<Id>, events: seq<Event>)
    requires Consistent(g, list) && CanHappen(g, list, events)
    ensures After(g, list, events).visible == g.visible + 48 * CountGrows(g, list, events)
    decreases |events|
  {
    hide Consistent, Flatten, Answer;
    if events != [] {
      EventKeeps(g, list, events[0]);
      if events[0].PageArrives? {
        ArrivalKeeps(g, list);
      }
      GrowsCounted(Next(g, list, events[0]), list, events[1..]);
    }
  }

  /** The grid mounts 48 tiles, and 48 more for each hit of the sentinel with loaded tiles unmounted. */
  lemma WindowIs(list: seq<Id>, events: seq<Event>)
    requires CanHappen(OPENED, list, events)
    ensures var g := After(OPENED, list, events);
            Shown(g) == Items(g)[..Min(48 + 48 * CountGrows(OPENED, list, events), |Items(g)|)]
  {
    hide Flatten, After, CountGrows;
    GrowsCounted(OPENED, list, events);
  }

  /** The sentinel asks for a page exactly when all that is loaded is shown, the list goes on, and no page
      has been asked for yet; the window grows exactly when something loaded is not shown. */
  lemma SentinelAsks(list: seq<Id>, events: seq<Event>)
    requires CanHappen(OPENED, list, events)
    ensures var g := After(OPENED, list, events);
            && (SentinelHit(g).size == g.size + 1 <==> Shown(g) == Items(g) && !ReachedEnd(g) && !Awaited(g))
            && (SentinelHit(g).size == g.size <==> SentinelHit(g).size != g.size + 1)
            && (SentinelHit(g).visible == g.visible + 48 <==> Shown(g) != Items(g))
            && (SentinelHit(g).visible == g.visible <==> Shown(g) == Items(g))
            && SentinelHit(g).pages == g.pages
  {
    hide Flatten, After, CanHappen;
    RunsKeep(OPENED, list, events);
    ItemsAreFront(After(OPENED, list, events), list);
  }

  /** A list with another first photo is shown from its start again; otherwise the window stays. */
  lemma RenderShows(g: Grid)
    ensures Items(Render(g)) == Items(g)
    ensures FirstId(g) != g.prevFirst ==> Shown(Render(g)) == Items(g)[..Min(48, |Items(g)|)]
    ensures FirstId(g) == g.prevFirst ==> Shown(Render(g)) == Shown(g)
    ensures Render(Render(g)) == Render(g)
  {
    hide Flatten;
  }

  // ---------------------------------------------------------------- scrolling reaches the end

  /** The event moves the gallery on: a page arrives, or the sentinel has an effect. */
  predicate Moves(g: Grid, e: Event) {
    e.PageArrives? || (e.Sentinel? && SentinelHit(g) != g)
  }

  /** Windows still to be mounted until the whole list is. */
  function HiddenSteps(n: nat, visible: nat): nat {
    if visible >= n then 0 else (n - visible + WINDOW_STEP - 1) / WINDOW_STEP
  }

  /** Two moves for each page to come, less the request already made, and one for each window. */
  function Remaining(g: Grid, list: seq<Id>): int {
    2 * (PagesOf(|list|) - |g.pages|) - (if Awaited(g) then 1 else 0) + HiddenSteps(|list|, g.visible)
  }

  lemma WindowStep(n: nat, visible: nat)
    requires visible < n
    ensures HiddenSteps(n, visible + WINDOW_STEP) == HiddenSteps(n, visible) - 1
  {
  }

  lemma MoveBringsOn(g: Grid, list: seq<Id>, e: Event)
    requires Consistent(g, list) && Enabled(g, e)
    ensures Remaining(Next(g, list, e), list) <= Remaining(g, list) - (if Moves(g, e) then 1 else 0)
  {
    hide Flatten, Answer, HiddenSteps;
    ItemsAreFront(g, list);
    EventKeeps(g, list, e);
    ItemsAreFront(Next(g, list, e), list);
    match e
    case PageArrives => ArrivalKeeps(g, list);
    case Sentinel =>
      if CanGrow(g) {
        WindowStep(|list|, g.visible);
      }
    case LoadsMore =>
  }

  function CountMoves(g: Grid, list: seq<Id>, events: seq<Event>): nat
    requires CanHappen(g, list, events)
    decreases |events|
  {
    if events == [] then 0
    else (if Moves(g, events[0]) then 1 else 0) + CountMoves(Next(g, list, events[0]), list, events[1..])
  }

  lemma {:induction false} MovesAreBounded(g: Grid, list: seq<Id>, events: seq<Event>)
    requires Consistent(g, list) && CanHappen(g, list, events)
    ensures CountMoves(g, list, events) + Remaining(After(g, list, events), list) <= Remaining(g, list)
    decreases |events|
  {
    hide Consistent, Next, Enabled, Remaining, Moves;
    if events != [] {
      EventKeeps(g, list, events[0]);
      MoveBringsOn(g, list, events[0]);
      MovesAreBounded(Next(g, list, events[0]), list, events[1..]);
    }
  }

  /** No run moves more often than this, whatever else happens in between. */
  lemma ScrollingEnds(list: seq<Id>, events: seq<Event>)
    requires CanHappen(OPENED, list, events)
    ensures CountMoves(OPENED, list, events) <= 2 * PagesOf(|list|) - 1 + HiddenSteps(|list|, INITIAL_WINDOW)
  {
    hide After, CanHappen, CountMoves, HiddenSteps;
    RunsKeep(OPENED, list, events);
    MovesAreBounded(OPENED, list, events);
    var g := After(OPENED, list, events);
    assert Awaited(g) ==> |g.pages| < PagesOf(|list|) by {
      ItemsAreFront(g, list);
    }
  }

  /** And a gallery that can move no further shows the whole list: it is never stuck before. */
  lemma StuckShowsAll(list: seq<Id>, events: seq<Event>)
    requires CanHappen(OPENED, list, events)
    ensures var g := After(OPENED, list, events);
            (forall e :: Enabled(g, e) ==> !Moves(g, e)) <==> g.pages != [] && Shown(g) == list
  {
    hide Flatten, After, CanHappen, NextKey;
    RunsKeep(OPENED, list, events);
    var g := After(OPENED, list, events);
    ItemsAreFront(g, list);
    if forall e :: Enabled(g, e) ==> !Moves(g, e) {
      assert Enabled(g, Sentinel) && !Moves(g, Sentinel) && !Enabled(g, PageArrives);
    }
  }
}

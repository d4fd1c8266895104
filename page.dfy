/** The page controller of JS/script.js: the card elements, the shared
    state of the `DOMContentLoaded` handler (`globalZIndex`,
    `activeFilters`), the layout pass that writes card positions, the
    filter-button click handler and the per-card drag handlers. */
module Page {
  import opened Wrappers
  import opened Geometry
  import opened Layout
  import opened Filters

  /** A `.card` element. `left`/`top` are its absolute position (what
      `style.left`/`style.top` set and `offsetLeft`/`offsetTop` report while
      it is displayed); the rendered size is fixed by its content. */
  class Card {
    var classes: set<string>
    var left: real
    var top: real
    const renderedWidth: nat
    const renderedHeight: nat
    var displayed: bool
    var rotation: real
    var zIndex: int

    constructor (classes: set<string>, left: real, top: real, renderedWidth: nat, renderedHeight: nat)
      ensures this.classes == classes && this.left == left && this.top == top
      ensures this.renderedWidth == renderedWidth && this.renderedHeight == renderedHeight
      ensures displayed && rotation == 0.0 && zIndex == 0
    {
      this.classes := classes;
      this.left := left;
      this.top := top;
      this.renderedWidth := renderedWidth;
      this.renderedHeight := renderedHeight;
      displayed := true;
      rotation := 0.0;
      zIndex := 0;
    }

    /** `offsetLeft`, `offsetTop`, `offsetWidth`, `offsetHeight`: a card with
        `display: none` has no layout box and reports 0. */
    function OffsetLeft(): real
      reads this`displayed, this`left
    {
      if displayed then left else 0.0
    }

    function OffsetTop(): real
      reads this`displayed, this`top
    {
      if displayed then top else 0.0
    }

    function OffsetWidth(): real
      reads this`displayed
    {
      if displayed then renderedWidth as real else 0.0
    }

    function OffsetHeight(): real
      reads this`displayed
    {
      if displayed then renderedHeight as real else 0.0
    }
  }

  /** The obstacle record of a fixed card, as measured. */
  function FixedBox(c: Card): Box
    reads c`displayed, c`left, c`top
  {
    Box(c.OffsetLeft(), c.OffsetTop(), c.OffsetWidth(), c.OffsetHeight(), c.OffsetWidth() * c.OffsetHeight())
  }

  /** The boxes of the fixed cards, in document order. */
  function FixedBoxes(cards: seq<Card>): (bs: seq<Box>)
    reads cards
    ensures |bs| == |cards|
    ensures forall i :: 0 <= i < |cards| ==> bs[i] == FixedBox(cards[i])
    decreases |cards|
  {
    if cards == [] then [] else FixedBoxes(cards[..|cards| - 1]) + [FixedBox(cards[|cards| - 1])]
  }

  /** The box size a random card is placed with. */
  function MeasuredSize(c: Card): Size
    reads c`displayed
  {
    CardSize(c.OffsetWidth(), c.OffsetHeight())
  }

  /** The sizes of the random cards, in document order. */
  function Sizes(cards: seq<Card>): (ss: seq<Size>)
    reads cards
    ensures |ss| == |cards|
    ensures forall i :: 0 <= i < |cards| ==> ss[i] == MeasuredSize(cards[i])
    decreases |cards|
  {
    if cards == [] then [] else Sizes(cards[..|cards| - 1]) + [MeasuredSize(cards[|cards| - 1])]
  }

  /** The card stands where the placement puts it, turned by the
      placement's rotation draw. */
  predicate CardAt(c: Card, p: Placement, draws: nat -> real)
    reads c
  {
    c.left == p.left && c.top == p.top && c.rotation == Rotation(draws(RotationDraw(p)))
  }

  /** The card stands where the placement puts it and is displayed by the
      filter rule for `active`. */
  predicate Laid(c: Card, p: Placement, draws: nat -> real, active: set<string>)
    reads c
  {
    CardAt(c, p, draws) && c.displayed == Visible(active, c.classes)
  }

  /** The card's classes and stacking order are as before. */
  twostate predicate SameTagsAndStack(c: Card)
    reads c
  {
    c.classes == old(c.classes) && c.zIndex == old(c.zIndex)
  }

  /** The first loop of the layout pass: one obstacle record per fixed
      card, in document order. */
  method SeedObstacles(fixedCards: seq<Card>) returns (placed: seq<Box>)
    ensures placed == FixedBoxes(fixedCards)
  {
    placed := [];
    for i := 0 to |fixedCards|
      invariant placed == FixedBoxes(fixedCards[..i])
    {
      var card := fixedCards[i];
      assert fixedCards[..i + 1][..i] == fixedCards[..i];
      assert FixedBoxes(fixedCards[..i + 1]) == FixedBoxes(fixedCards[..i]) + [FixedBox(card)];
      placed := placed + [FixedBox(card)];
    }
    assert fixedCards[..|fixedCards|] == fixedCards;
  }

  /** A filter button (`.card-filter button`) with its `data-filter` tag;
      `active` is whether it carries the `active` class. */
  class FilterButton {
    const filter: string
    var active: bool

    constructor (filter: string)
      ensures this.filter == filter && !active
    {
      this.filter := filter;
      active := false;
    }
  }

  datatype Point = Point(x: real, y: real)

  /** A mouse event, or a touch event with its list of touch points. */
  datatype PointerEvent = Mouse(clientX: real, clientY: real) | Touch(touches: seq<Point>)

  /** `e.touches ? e.touches[0] : e`: the point a handler reads; `None` when
      a touch list is empty, where reading `clientX` throws. */
  function PointOf(e: PointerEvent): Option<Point> {
    match e
    case Mouse(x, y) => Some(Point(x, y))
    case Touch(ts) => if |ts| > 0 then Some(ts[0]) else None
  }

  /** The state of the `DOMContentLoaded` handler shared by all handlers. */
  class PageState {
    var globalZIndex: int
    var activeFilters: set<string>

    constructor ()
      ensures globalZIndex == 100 && activeFilters == {}
    {
      globalZIndex := 100;
      activeFilters := {};
    }

    /** `layoutCards()`: the fixed cards' boxes seed the obstacle list, then
        every random card in document order is placed by the retry loop,
        gets a rotation, the visibility of the current filter and its box
        appended to the obstacle list. The draws start at `k`; `next` is
        the first draw left unread and `placed` the final obstacle list. */
    method LayoutCards(v: Viewport, fixedCards: seq<Card>, randomCards: seq<Card>, draws: nat -> real, k: nat)
      returns (placed: seq<Box>, next: nat)
      requires forall i, j :: 0 <= i < j < |randomCards| ==> randomCards[i] != randomCards[j]
      modifies randomCards
      ensures var r := PlaceAll(v, old(FixedBoxes(fixedCards)), old(Sizes(randomCards)), draws, k);
        placed == r.obstacles && next == r.cursor &&
        forall i :: 0 <= i < |randomCards| ==>
          randomCards[i].left == r.placements[i].left && randomCards[i].top == r.placements[i].top &&
          randomCards[i].rotation == Rotation(draws(RotationDraw(r.placements[i]))) &&
          randomCards[i].displayed == Visible(activeFilters, randomCards[i].classes)
      ensures forall c :: c in randomCards ==> c.classes == old(c.classes) && c.zIndex == old(c.zIndex)
    {
      placed := SeedObstacles(fixedCards);
      placed, next := PlaceRandomCards(v, placed, randomCards, draws, k);
    }

    /** The second loop of the layout pass: the random cards in document
        order, each placed by the retry loop against `obstacles` and the
        cards placed before it. */
    method PlaceRandomCards(v: Viewport, obstacles: seq<Box>, randomCards: seq<Card>, draws: nat -> real, k: nat)
      returns (placed: seq<Box>, next: nat)
      requires forall i, j :: 0 <= i < j < |randomCards| ==> randomCards[i] != randomCards[j]
      modifies randomCards
      ensures var r := PlaceAll(v, obstacles, old(Sizes(randomCards)), draws, k);
        placed == r.obstacles && next == r.cursor &&
        forall i :: 0 <= i < |randomCards| ==> Laid(randomCards[i], r.placements[i], draws, activeFilters)
      ensures forall c :: c in randomCards ==> SameTagsAndStack(c)
    {
      ghost var sizes := Sizes(randomCards);
      placed := obstacles;
      next := k;
      ghost var done: seq<Placement> := [];
      for i := 0 to |randomCards|
        invariant PlaceAll(v, obstacles, sizes[..i], draws, k) == Pass(done, placed, next)
        invariant |done| == i
        invariant forall j :: 0 <= j < |randomCards| ==>
          SameTagsAndStack(randomCards[j]) &&
          if j < i then Laid(randomCards[j], done[j], draws, activeFilters)
          else randomCards[j].displayed == old(randomCards[j].displayed)
      {
        var card := randomCards[i];
        assert MeasuredSize(card) == sizes[i];
        assert forall j :: 0 <= j < |randomCards| && j != i ==> randomCards[j] != card;
        var box, attempts, p := PlaceCard(v, card, placed, draws, next);
        PlaceAllStep(v, obstacles, sizes, draws, k, i, done, placed, next, p);
        placed := placed + [box];
        done := done + [p];
        next := next + 2 * attempts + 1;
      }
      assert sizes[..|randomCards|] == sizes;
    }

    /** The body of the placement loop for one random card: measure it, find
        its position by the retry loop, write its position, visibility and
        rotation, and return the box to append, the number of attempts the
        retry loop made and the card's placement. */
    method PlaceCard(v: Viewport, card: Card, placed: seq<Box>, draws: nat -> real, k: nat)
      returns (box: Box, attempts: nat, ghost p: Placement)
      modifies card
      ensures p == Placement(card.left, card.top, attempts, k, old(MeasuredSize(card)))
      ensures FirstFit(v, p.size, placed, draws, k, Choice(p.left, p.top, p.attempts))
      ensures attempts == p.attempts && box == PlacedBox(p)
      ensures Laid(card, p, draws, activeFilters)
      ensures SameTagsAndStack(card)
    {
      var size := CardSize(card.OffsetWidth(), card.OffsetHeight());
      var x, y;
      x, y, attempts := FindPosition(v, size, placed, draws, k);
      card.left := x;
      card.top := y;
      if |activeFilters| == 0 {
        card.displayed := true;
      } else {
        var matches := exists f :: f in activeFilters && f in card.classes;
        card.displayed := matches;
      }
      var rotate := draws(k + 2 * attempts) * 30.0 - 15.0;
      card.rotation := rotate;
      box := Box(x, y, size.width, size.height, size.width * size.height);
      p := Placement(x, y, attempts, k, size);
    }

    /** Everything of a card but its visibility is as before. */
    twostate predicate Untouched(c: Card)
      reads c
    {
      c.classes == old(c.classes) && c.left == old(c.left) && c.top == old(c.top) &&
      c.rotation == old(c.rotation) && c.zIndex == old(c.zIndex)
    }

    /** The click handler of a filter button: toggle its tag in the active
        set and its `active` class, then show or hide every card by the
        visibility rule. */
    method ClickFilter(btn: FilterButton, cards: seq<Card>)
      modifies this`activeFilters, btn`active, cards
      ensures activeFilters == Toggle(old(activeFilters), btn.filter)
      ensures btn.active <==> btn.filter in activeFilters
      ensures forall c :: c in cards ==> c.displayed == Visible(activeFilters, c.classes)
      ensures forall c :: c in cards ==> Untouched(c)
    {
      var filter := btn.filter;
      if filter in activeFilters {
        activeFilters := activeFilters - {filter};
        btn.active := false;
      } else {
        activeFilters := activeFilters + {filter};
        btn.active := true;
      }
      if |activeFilters| == 0 {
        for i := 0 to |cards|
          invariant forall j :: 0 <= j < i ==> cards[j].displayed
          invariant forall c :: c in cards ==> Untouched(c)
          modifies cards
        {
          cards[i].displayed := true;
        }
        return;
      }
      for i := 0 to |cards|
        invariant forall j :: 0 <= j < i ==> cards[j].displayed == Visible(activeFilters, cards[j].classes)
        invariant forall c :: c in cards ==> Untouched(c)
        modifies cards
      {
        var card := cards[i];
        var matches := exists f :: f in activeFilters && f in card.classes;
        card.displayed := matches;
      }
    }
  }

  /** The closure state `attachDragEvents` keeps for one card. */
  class DragSession {
    const card: Card
    var offsetX: real
    var offsetY: real
    var isDown: bool
    var isDragging: bool

    constructor (card: Card)
      ensures this.card == card && offsetX == 0.0 && offsetY == 0.0 && !isDown && !isDragging
    {
      this.card := card;
      offsetX, offsetY := 0.0, 0.0;
      isDown, isDragging := false, false;
    }

    /** `start` (mousedown, touchstart on the card): press, raise the card
        above every card raised before, mark it `dragging` and record the
        pointer's offset from the card's corner. An empty touch list throws
        when the offset is read, after the card was raised. */
    method Start(page: PageState, e: PointerEvent)
      modifies this, card`zIndex, card`classes, page`globalZIndex
      ensures isDown && !isDragging
      ensures page.globalZIndex == old(page.globalZIndex) + 1 && card.zIndex == page.globalZIndex
      ensures card.classes == old(card.classes) + {"dragging"}
      ensures PointOf(e).Some? ==>
        offsetX == PointOf(e).value.x - card.OffsetLeft() && offsetY == PointOf(e).value.y - card.OffsetTop()
      ensures PointOf(e).None? ==> offsetX == old(offsetX) && offsetY == old(offsetY)
    {
      isDragging := false;
      isDown := true;
      page.globalZIndex := page.globalZIndex + 1;
      card.zIndex := page.globalZIndex;
      card.classes := card.classes + {"dragging"};
      var evt := PointOf(e);
      if evt.None? {
        return;
      }
      offsetX := evt.value.x - card.OffsetLeft();
      offsetY := evt.value.y - card.OffsetTop();
    }

    /** `move` (mousemove, touchmove on the document): nothing unless the
        card is pressed; otherwise the card follows the pointer at the
        recorded offset. */
    method Move(e: PointerEvent)
      modifies this`isDragging, card`left, card`top
      ensures !old(isDown) ==> isDragging == old(isDragging) && card.left == old(card.left) && card.top == old(card.top)
      ensures old(isDown) ==> isDragging
      ensures old(isDown) && PointOf(e).Some? ==>
        card.left == PointOf(e).value.x - offsetX && card.top == PointOf(e).value.y - offsetY
      ensures PointOf(e).None? ==> card.left == old(card.left) && card.top == old(card.top)
    {
      if !isDown {
        return;
      }
      isDragging := true;
      var evt := PointOf(e);
      if evt.None? {
        return;
      }
      card.left := evt.value.x - offsetX;
      card.top := evt.value.y - offsetY;
    }

    /** `end` (mouseup, touchend on the document): release a pressed card
        and drop its `dragging` class; on a card not pressed it does
        nothing. */
    method End()
      modifies this`isDown, this`isDragging, card`classes
      ensures !isDown
      ensures old(isDown) ==> !isDragging && card.classes == old(card.classes) - {"dragging"}
      ensures !old(isDown) ==> isDragging == old(isDragging) && card.classes == old(card.classes)
    {
      if isDown {
        isDown := false;
        isDragging := false;
        card.classes := card.classes - {"dragging"};
      }
    }
  }

  /** The drag law, for mouse and touch alike: pressing with `e1` at point
      P on a displayed card at (L, T) and moving with `e2` to point P' puts
      the card at (L + P'.x - P.x, T + P'.y - P.y). */
  method DragLaw(page: PageState, session: DragSession, e1: PointerEvent, e2: PointerEvent)
    requires session.card.displayed
    requires PointOf(e1).Some? && PointOf(e2).Some?
    modifies session, session.card`zIndex, session.card`classes, session.card`left, session.card`top, page`globalZIndex
    ensures session.card.left == old(session.card.left) + (PointOf(e2).value.x - PointOf(e1).value.x)
    ensures session.card.top == old(session.card.top) + (PointOf(e2).value.y - PointOf(e1).value.y)
  {
    session.Start(page, e1);
    session.Move(e2);
  }

  /** No card is stacked above the shared counter. */
  predicate StackedBelow(page: PageState, cards: seq<Card>)
    reads page, cards
  {
    forall c :: c in cards ==> c.zIndex <= page.globalZIndex
  }

  /** Pressing a card keeps every card at or below the counter and puts the
      pressed card strictly above all the others. */
  method PressRaises(page: PageState, session: DragSession, cards: seq<Card>, e: PointerEvent)
    requires StackedBelow(page, cards)
    modifies session, session.card`zIndex, session.card`classes, page`globalZIndex
    ensures StackedBelow(page, cards)
    ensures forall c :: c in cards && c != session.card ==> c.zIndex < session.card.zIndex
  {
    session.Start(page, e);
  }

  /** Clicking the same filter button twice restores the filter set, the
      button's state, and shows exactly the cards the restored set shows. */
  method ClickTwice(page: PageState, btn: FilterButton, cards: seq<Card>)
    modifies page`activeFilters, btn`active, cards
    ensures page.activeFilters == old(page.activeFilters)
    ensures btn.active <==> btn.filter in old(page.activeFilters)
    ensures forall c :: c in cards ==> c.displayed == Visible(old(page.activeFilters), c.classes)
  {
    page.ClickFilter(btn, cards);
    page.ClickFilter(btn, cards);
    ToggleTwice(old(page.activeFilters), btn.filter);
  }
}

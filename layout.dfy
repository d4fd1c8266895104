/** The placement engine of layoutCards (JS/script.js): reserved bands,
    candidate coordinates drawn from the random source, the 45 % overlap
    test against the obstacle list and the 40-attempt rejection loop.
    `Math.random()` is the stream `draws`; the pass reads it from a cursor,
    two draws per attempt (x, then y) and one for the rotation. */
module Layout {
  import opened Wrappers
  import opened Geometry

  const MaxAttempts: nat := 40
  const OverlapRatio: real := 0.45
  const DefaultWidth: real := 250.0
  const DefaultHeight: real := 200.0
  const SideMargin: real := 20.0
  const BottomMargin: real := 100.0

  /** The window size and the measured heights of the header, the footer and
      the filter bar; `None` when the element is not in the page. */
  datatype Viewport = Viewport(
    innerWidth: real, innerHeight: real,
    header: Option<real>, footer: Option<real>, filterBar: Option<real>)

  datatype Size = Size(width: real, height: real)

  /** `el ? el.offsetHeight : 0`. */
  function BandHeight(band: Option<real>): real {
    match band
    case None => 0.0
    case Some(h) => h
  }

  /** Where candidates start vertically: below the header and the filter bar. */
  function TopBand(v: Viewport): real {
    BandHeight(v.header) + BandHeight(v.filterBar)
  }

  function UsableWidth(v: Viewport, s: Size): real {
    v.innerWidth - s.width - SideMargin
  }

  function UsableHeight(v: Viewport, s: Size): real {
    v.innerHeight - BandHeight(v.header) - BandHeight(v.footer) - BandHeight(v.filterBar) - s.height - BottomMargin
  }

  /** A page without header, footer or filter bar reserves no band: the
      candidates start at the top and only the box and the bottom margin
      are taken off the window height. */
  lemma MissingBandsReserveNothing(v: Viewport, s: Size)
    requires v.header.None? && v.footer.None? && v.filterBar.None?
    ensures TopBand(v) == 0.0
    ensures UsableHeight(v, s) == v.innerHeight - s.height - BottomMargin
  {
  }

  /** `card.offsetWidth || 250`, `card.offsetHeight || 200`: an unmeasured
      (zero) side takes its default, so a card never has an empty box. */
  function CardSize(offsetWidth: real, offsetHeight: real): (s: Size)
    ensures offsetWidth >= 0.0 && offsetHeight >= 0.0 ==> s.width > 0.0 && s.height > 0.0
    ensures s.width == offsetWidth || (offsetWidth == 0.0 && s.width == DefaultWidth)
    ensures s.height == offsetHeight || (offsetHeight == 0.0 && s.height == DefaultHeight)
  {
    Size(if offsetWidth != 0.0 then offsetWidth else DefaultWidth,
         if offsetHeight != 0.0 then offsetHeight else DefaultHeight)
  }

  /** The candidate box for the two draws `rx` (x) and `ry` (y). */
  function Candidate(v: Viewport, s: Size, rx: real, ry: real): Rect {
    Rect(CandidateLeft(v, s, rx), CandidateTop(v, s, ry), s.width, s.height)
  }

  /** `x = Math.random() * usableWidth`. */
  function CandidateLeft(v: Viewport, s: Size, r: real): real {
    r * UsableWidth(v, s)
  }

  /** `y = headerHeight + filterHeight + Math.random() * usableHeight`. */
  function CandidateTop(v: Viewport, s: Size, r: real): real {
    TopBand(v) + r * UsableHeight(v, s)
  }

  /** A draw in [0, 1) scaled by a range `u` lands in [0, u) when `u` is
      positive and in (u, 0] when it is negative. */
  lemma ScaledDraw(r: real, u: real)
    requires 0.0 <= r < 1.0
    ensures u >= 0.0 ==> 0.0 <= r * u <= u && (u > 0.0 ==> r * u < u)
    ensures u < 0.0 ==> u < r * u <= 0.0
  {
    if u > 0.0 {
      assert r * u < 1.0 * u;
    } else if u < 0.0 {
      assert r * u > 1.0 * u;
    }
  }

  /** Horizontally, with a draw in [0, 1), a candidate starts in
      [0, usableWidth) when that range is non-negative, and between the
      negative range and 0 otherwise. */
  lemma CandidateLeftBounds(v: Viewport, s: Size, rx: real)
    requires 0.0 <= rx < 1.0
    ensures UsableWidth(v, s) >= 0.0 ==> 0.0 <= CandidateLeft(v, s, rx) <= UsableWidth(v, s)
    ensures UsableWidth(v, s) > 0.0 ==> CandidateLeft(v, s, rx) < UsableWidth(v, s)
    ensures UsableWidth(v, s) < 0.0 ==> UsableWidth(v, s) < CandidateLeft(v, s, rx) <= 0.0
  {
    var uw := UsableWidth(v, s);
    var x := CandidateLeft(v, s, rx);
    assert x == rx * uw;
    ScaledDraw(rx, uw);
    if uw >= 0.0 {
      assert 0.0 <= x <= uw && (uw > 0.0 ==> x < uw);
    } else {
      assert uw < x <= 0.0;
    }
  }

  /** Vertically, with a draw in [0, 1), a candidate starts in
      [top band, top band + usableHeight) when that range is non-negative,
      and between top band + usableHeight and the top band otherwise. */
  lemma CandidateTopBounds(v: Viewport, s: Size, ry: real)
    requires 0.0 <= ry < 1.0
    ensures var y, uh, top := CandidateTop(v, s, ry), UsableHeight(v, s), TopBand(v);
      (uh >= 0.0 ==> top <= y <= top + uh && (uh > 0.0 ==> y < top + uh)) &&
      (uh < 0.0 ==> top + uh < y <= top)
  {
    var uh := UsableHeight(v, s);
    var top := TopBand(v);
    var y := CandidateTop(v, s, ry);
    assert y == top + ry * uh;
    ScaledDraw(ry, uh);
  }

  /** A box that starts within the usable ranges ends left of the side
      margin and above the footer band and the bottom margin. */
  lemma WithinUsableFits(v: Viewport, s: Size, x: real, y: real)
    requires x <= UsableWidth(v, s) && y <= TopBand(v) + UsableHeight(v, s)
    ensures x + s.width <= v.innerWidth - SideMargin
    ensures y + s.height <= v.innerHeight - BandHeight(v.footer) - BottomMargin
  {
  }

  /** The rejection rule: the overlap with one placed box exceeds 45 % of
      the candidate's own area. */
  predicate TooMuchOverlap(c: Rect, placed: Box) {
    Intersects(c, RectOf(placed)) && OverlapArea(c, RectOf(placed)) > OverlapRatio * Area(c)
  }

  /** A candidate passes when no placed box overlaps it too much. */
  predicate Acceptable(c: Rect, placed: seq<Box>) {
    forall i :: 0 <= i < |placed| ==> !TooMuchOverlap(c, placed[i])
  }

  /** The candidate of attempt `n` (from 1) when the card's draws start at `k`. */
  function AttemptAt(v: Viewport, s: Size, draws: nat -> real, k: nat, n: nat): Rect
    requires n >= 1
  {
    Candidate(v, s, draws(k + 2 * (n - 1)), draws(k + 2 * (n - 1) + 1))
  }

  /** The kept position and the number of attempts it took. */
  datatype Choice = Choice(x: real, y: real, attempts: nat)

  /** The retry loop as a bounded search: between 1 and 40 attempts, every
      earlier candidate rejected, the kept one the candidate of the last
      attempt, which passed or was the 40th. */
  predicate FirstFit(v: Viewport, s: Size, placed: seq<Box>, draws: nat -> real, k: nat, ch: Choice) {
    1 <= ch.attempts <= MaxAttempts &&
    ch.x == AttemptAt(v, s, draws, k, ch.attempts).left &&
    ch.y == AttemptAt(v, s, draws, k, ch.attempts).top &&
    (forall n :: 1 <= n < ch.attempts ==> !Acceptable(AttemptAt(v, s, draws, k, n), placed)) &&
    (Acceptable(AttemptAt(v, s, draws, k, ch.attempts), placed) || ch.attempts == MaxAttempts)
  }

  /** Reference definition of the retry loop, from attempt `n` on. */
  function Search(v: Viewport, s: Size, placed: seq<Box>, draws: nat -> real, k: nat, n: nat): Choice
    requires 1 <= n <= MaxAttempts
    decreases MaxAttempts - n
  {
    var c := AttemptAt(v, s, draws, k, n);
    if Acceptable(c, placed) || n == MaxAttempts then Choice(c.left, c.top, n)
    else Search(v, s, placed, draws, k, n + 1)
  }

  /** The reference search is the bounded first-fit search. */
  lemma {:induction false} SearchIsFirstFit(v: Viewport, s: Size, placed: seq<Box>, draws: nat -> real, k: nat, n: nat)
    requires 1 <= n <= MaxAttempts
    requires forall m :: 1 <= m < n ==> !Acceptable(AttemptAt(v, s, draws, k, m), placed)
    ensures FirstFit(v, s, placed, draws, k, Search(v, s, placed, draws, k, n))
    ensures Search(v, s, placed, draws, k, n).attempts >= n
    decreases MaxAttempts - n
  {
    var c := AttemptAt(v, s, draws, k, n);
    if !(Acceptable(c, placed) || n == MaxAttempts) {
      SearchIsFirstFit(v, s, placed, draws, k, n + 1);
    }
  }

  /** The bounded first-fit search has only one outcome. */
  lemma FirstFitUnique(v: Viewport, s: Size, placed: seq<Box>, draws: nat -> real, k: nat, a: Choice, b: Choice)
    requires FirstFit(v, s, placed, draws, k, a) && FirstFit(v, s, placed, draws, k, b)
    ensures a == b
  {
    assert !(a.attempts < b.attempts);
    assert !(b.attempts < a.attempts);
  }

  /** Any outcome of the bounded first-fit search is the reference search's. */
  lemma FirstFitIsSearch(v: Viewport, s: Size, placed: seq<Box>, draws: nat -> real, k: nat, ch: Choice)
    requires FirstFit(v, s, placed, draws, k, ch)
    ensures ch == Search(v, s, placed, draws, k, 1)
  {
    SearchIsFirstFit(v, s, placed, draws, k, 1);
    FirstFitUnique(v, s, placed, draws, k, ch, Search(v, s, placed, draws, k, 1));
  }

  /** The test of the inner loop's body on the computed overlap width and
      height is the rejection rule for that placed box. */
  lemma OverlapTest(c: Rect, p: Box, overlapWidth: real, overlapHeight: real)
    requires overlapWidth == SharedLength(c.left, c.width, p.left, p.width)
    requires overlapHeight == SharedLength(c.top, c.height, p.top, p.height)
    ensures TooMuchOverlap(c, p) <==>
      overlapWidth > 0.0 && overlapHeight > 0.0 && overlapHeight * overlapWidth > OverlapRatio * (c.width * c.height)
  {
    var q := RectOf(p);
    assert overlapWidth > 0.0 && overlapHeight > 0.0 <==> Intersects(c, q);
    if overlapWidth > 0.0 && overlapHeight > 0.0 {
      assert OverlapArea(c, q) == overlapHeight * overlapWidth;
    }
  }

  /** The inner `for (const placed of placedElements)` loop: true as soon as
      one placed box overlaps the candidate by more than 45 % of its area. */
  method ExceedsOverlap(c: Rect, placed: seq<Box>) returns (tooMuch: bool)
    ensures tooMuch <==> !Acceptable(c, placed)
  {
    var myArea := c.width * c.height;
    tooMuch := false;
    for i := 0 to |placed|
      invariant forall j :: 0 <= j < i ==> !TooMuchOverlap(c, placed[j])
    {
      var p := placed[i];
      var startX := Max(c.left, p.left);
      var endX := Min(c.left + c.width, p.left + p.width);
      var startY := Max(c.top, p.top);
      var endY := Min(c.top + c.height, p.top + p.height);
      var overlapWidth := endX - startX;
      var overlapHeight := endY - startY;
      OverlapTest(c, p, overlapWidth, overlapHeight);
      if overlapWidth > 0.0 && overlapHeight > 0.0 {
        var overlapArea := overlapHeight * overlapWidth;
        if overlapArea > OverlapRatio * myArea {
          tooMuch := true;
          break;
        }
      }
    }
  }

  /** The candidate computed from the loop's precomputed ranges. */
  lemma CandidateFromRanges(v: Viewport, s: Size, rx: real, ry: real, usableWidth: real, usableHeight: real, top: real)
    requires usableWidth == UsableWidth(v, s) && usableHeight == UsableHeight(v, s) && top == TopBand(v)
    ensures Candidate(v, s, rx, ry) == Rect(rx * usableWidth, top + ry * usableHeight, s.width, s.height)
  {
  }

  /** The `while (isTooMuchOverlap && attempts < maxAttempts)` loop for one
      card whose draws start at `k`. */
  method FindPosition(v: Viewport, s: Size, placed: seq<Box>, draws: nat -> real, k: nat)
    returns (x: real, y: real, attempts: nat)
    ensures FirstFit(v, s, placed, draws, k, Choice(x, y, attempts))
  {
    var headerHeight, footerHeight, filterHeight := BandHeight(v.header), BandHeight(v.footer), BandHeight(v.filterBar);
    var usableWidth := v.innerWidth - s.width - SideMargin;
    var usableHeight := v.innerHeight - headerHeight - footerHeight - filterHeight - s.height - BottomMargin;
    assert usableWidth == UsableWidth(v, s) && usableHeight == UsableHeight(v, s);
    assert headerHeight + filterHeight == TopBand(v);
    x, y := 0.0, 0.0;
    var isTooMuchOverlap := true;
    attempts := 0;
    while isTooMuchOverlap && attempts < MaxAttempts
      invariant attempts <= MaxAttempts
      invariant attempts == 0 ==> isTooMuchOverlap
      invariant attempts > 0 ==> Rect(x, y, s.width, s.height) == AttemptAt(v, s, draws, k, attempts)
      invariant attempts > 0 ==> (isTooMuchOverlap <==> !Acceptable(AttemptAt(v, s, draws, k, attempts), placed))
      invariant forall n :: 1 <= n < attempts ==> !Acceptable(AttemptAt(v, s, draws, k, n), placed)
    {
      isTooMuchOverlap := false;
      attempts := attempts + 1;
      var rx, ry := draws(k + 2 * (attempts - 1)), draws(k + 2 * (attempts - 1) + 1);
      x := rx * usableWidth;
      y := headerHeight + filterHeight + ry * usableHeight;
      CandidateFromRanges(v, s, rx, ry, usableWidth, usableHeight, headerHeight + filterHeight);
      isTooMuchOverlap := ExceedsOverlap(Rect(x, y, s.width, s.height), placed);
    }
  }

  /** `(Math.random() * 30) - 15`, in degrees. */
  function Rotation(r: real): (deg: real)
    ensures 0.0 <= r < 1.0 ==> -15.0 <= deg < 15.0
  {
    r * 30.0 - 15.0
  }

  /** What one random card receives in a pass: position, the attempts its
      search took, where its draws started, and its size. */
  datatype Placement = Placement(left: real, top: real, attempts: nat, firstDraw: nat, size: Size)

  /** The draw the card's rotation is taken from: the one right after the
      two draws of its last attempt. */
  function RotationDraw(p: Placement): nat {
    p.firstDraw + 2 * p.attempts
  }

  /** The obstacle record pushed for a placed random card. */
  function PlacedBox(p: Placement): Box {
    Box(p.left, p.top, p.size.width, p.size.height, p.size.width * p.size.height)
  }

  /** The outcome of a pass: one placement per random card, the final
      obstacle list and the next unread draw. */
  datatype Pass = Pass(placements: seq<Placement>, obstacles: seq<Box>, cursor: nat)

  /** The random-card loop of a pass, for a given way `choose` of picking
      one card's position from its size, the obstacles so far and the
      cursor. */
  function PlaceEach(choose: (Size, seq<Box>, nat) -> Choice,
                     obstacles: seq<Box>, sizes: seq<Size>, k: nat): (r: Pass)
    ensures |r.placements| == |sizes| && |r.obstacles| == |obstacles| + |sizes|
    decreases |sizes|
  {
    if sizes == [] then Pass([], obstacles, k)
    else
      var ch := choose(sizes[0], obstacles, k);
      var p := Placement(ch.x, ch.y, ch.attempts, k, sizes[0]);
      var rest := PlaceEach(choose, obstacles + [PlacedBox(p)], sizes[1..], k + 2 * ch.attempts + 1);
      Pass([p] + rest.placements, rest.obstacles, rest.cursor)
  }

  /** The retry loop of the source as a chooser. */
  function Searcher(v: Viewport, draws: nat -> real): (Size, seq<Box>, nat) -> Choice {
    (s: Size, placed: seq<Box>, k: nat) => Search(v, s, placed, draws, k, 1)
  }

  /** Reference definition of the random-card loop of a pass, from the
      obstacles placed so far and the cards' sizes in processing order. */
  function PlaceAll(v: Viewport, obstacles: seq<Box>, sizes: seq<Size>, draws: nat -> real, k: nat): Pass {
    PlaceEach(Searcher(v, draws), obstacles, sizes, k)
  }

  /** Each card's draws start where the previous card's rotation draw ended,
      and the pass ends after the last card's rotation draw. */
  predicate Chained(ps: seq<Placement>, k: nat, cursor: nat) {
    (|ps| == 0 ==> cursor == k) &&
    (|ps| > 0 ==> ps[0].firstDraw == k && cursor == ps[|ps| - 1].firstDraw + 2 * ps[|ps| - 1].attempts + 1) &&
    (forall i :: 0 <= i < |ps| - 1 ==> ps[i + 1].firstDraw == ps[i].firstDraw + 2 * ps[i].attempts + 1)
  }

  /** The obstacle list after the loop is the initial obstacles followed by
      one box per card, in processing order, each with the card's size and
      its area stored as width times height. */
  lemma {:induction false} PlaceEachObstacles(choose: (Size, seq<Box>, nat) -> Choice,
                                              obstacles: seq<Box>, sizes: seq<Size>, k: nat)
    ensures var r := PlaceEach(choose, obstacles, sizes, k);
      |r.placements| == |sizes| &&
      |r.obstacles| == |obstacles| + |sizes| &&
      r.obstacles[..|obstacles|] == obstacles &&
      (forall i :: 0 <= i < |sizes| ==>
         r.placements[i].size == sizes[i] &&
         r.obstacles[|obstacles| + i] == PlacedBox(r.placements[i]) &&
         AreaConsistent(r.obstacles[|obstacles| + i]))
    decreases |sizes|
  {
    if sizes != [] {
      var r := PlaceEach(choose, obstacles, sizes, k);
      var ch := choose(sizes[0], obstacles, k);
      var p := Placement(ch.x, ch.y, ch.attempts, k, sizes[0]);
      var obs' := obstacles + [PlacedBox(p)];
      var k' := k + 2 * ch.attempts + 1;
      var rest := PlaceEach(choose, obs', sizes[1..], k');
      assert r.obstacles == rest.obstacles && r.placements == [p] + rest.placements;
      PlaceEachObstacles(choose, obs', sizes[1..], k');
      assert r.obstacles[..|obstacles|] == rest.obstacles[..|obs'|][..|obstacles|];
      forall i | 0 <= i < |sizes|
        ensures r.placements[i].size == sizes[i]
        ensures r.obstacles[|obstacles| + i] == PlacedBox(r.placements[i])
        ensures AreaConsistent(r.obstacles[|obstacles| + i])
      {
        if i == 0 {
          assert r.obstacles[|obstacles|] == rest.obstacles[..|obs'|][|obstacles|];
        } else {
          assert r.placements[i] == rest.placements[i - 1];
          assert sizes[1..][i - 1] == sizes[i];
          assert r.obstacles[|obstacles| + i] == rest.obstacles[|obs'| + (i - 1)];
        }
      }
    }
  }

  /** Every card of the loop is placed by `choose` against the obstacle
      list as it stood at the card's turn: whatever `good` holds of every
      choice of `choose` holds of every placement of the loop. */
  lemma {:induction false} PlaceEachChosen(choose: (Size, seq<Box>, nat) -> Choice, good: (Size, seq<Box>, nat, Choice) -> bool,
                                           obstacles: seq<Box>, sizes: seq<Size>, k: nat)
    requires forall s, placed, j :: good(s, placed, j, choose(s, placed, j))
    ensures var r := PlaceEach(choose, obstacles, sizes, k);
      forall i :: 0 <= i < |sizes| ==>
        good(sizes[i], r.obstacles[..|obstacles| + i], r.placements[i].firstDraw,
             Choice(r.placements[i].left, r.placements[i].top, r.placements[i].attempts))
    decreases |sizes|
  {
    if sizes != [] {
      var r := PlaceEach(choose, obstacles, sizes, k);
      var ch := choose(sizes[0], obstacles, k);
      var p := Placement(ch.x, ch.y, ch.attempts, k, sizes[0]);
      var obs' := obstacles + [PlacedBox(p)];
      var k' := k + 2 * ch.attempts + 1;
      var rest := PlaceEach(choose, obs', sizes[1..], k');
      assert r.placements == [p] + rest.placements && r.obstacles == rest.obstacles;
      PlaceEachChosen(choose, good, obs', sizes[1..], k');
      PlaceEachObstacles(choose, obstacles, sizes, k);
      forall i | 0 <= i < |sizes|
        ensures good(sizes[i], r.obstacles[..|obstacles| + i], r.placements[i].firstDraw,
                     Choice(r.placements[i].left, r.placements[i].top, r.placements[i].attempts))
      {
        if i == 0 {
          assert r.placements[0] == p;
          assert r.obstacles[..|obstacles|] == obstacles;
        } else {
          assert r.obstacles[..|obstacles| + i] == rest.obstacles[..|obs'| + (i - 1)];
          assert sizes[1..][i - 1] == sizes[i];
          assert r.placements[i] == rest.placements[i - 1];
        }
      }
    }
  }

  /** The loop reads the stream in order: each card's draws start where the
      previous card's rotation draw ended. */
  lemma {:induction false} PlaceEachChained(choose: (Size, seq<Box>, nat) -> Choice,
                                            obstacles: seq<Box>, sizes: seq<Size>, k: nat)
    ensures var r := PlaceEach(choose, obstacles, sizes, k);
      Chained(r.placements, k, r.cursor)
    decreases |sizes|
  {
    if sizes != [] {
      var r := PlaceEach(choose, obstacles, sizes, k);
      var ch := choose(sizes[0], obstacles, k);
      var p := Placement(ch.x, ch.y, ch.attempts, k, sizes[0]);
      var obs' := obstacles + [PlacedBox(p)];
      var k' := k + 2 * ch.attempts + 1;
      var rest := PlaceEach(choose, obs', sizes[1..], k');
      assert r.placements == [p] + rest.placements && r.cursor == rest.cursor;
      PlaceEachChained(choose, obs', sizes[1..], k');
      if rest.placements == [] {
        assert r.placements == [p];
      } else {
        assert r.placements[|r.placements| - 1] == rest.placements[|rest.placements| - 1];
        forall i | 0 <= i < |r.placements| - 1
          ensures r.placements[i + 1].firstDraw == r.placements[i].firstDraw + 2 * r.placements[i].attempts + 1
        {
          assert r.placements[i + 1] == rest.placements[i];
          if i > 0 {
            assert r.placements[i] == rest.placements[i - 1];
          }
        }
      }
    }
  }

  /** The source's retry loop is a bounded first-fit chooser. */
  lemma SearcherIsFirstFit(v: Viewport, draws: nat -> real)
    ensures forall s, placed, j :: FirstFit(v, s, placed, draws, j, Searcher(v, draws)(s, placed, j))
  {
    forall s, placed, j ensures FirstFit(v, s, placed, draws, j, Searcher(v, draws)(s, placed, j)) {
      SearchIsFirstFit(v, s, placed, draws, j, 1);
    }
  }

  /** After a layout pass the obstacle list is the initial obstacles (the
      fixed cards' boxes) followed by exactly one box per random card, in
      processing order, each with that card's size, position and area. */
  lemma PlaceAllObstacles(v: Viewport, obstacles: seq<Box>, sizes: seq<Size>, draws: nat -> real, k: nat)
    ensures var r := PlaceAll(v, obstacles, sizes, draws, k);
      |r.placements| == |sizes| &&
      |r.obstacles| == |obstacles| + |sizes| &&
      r.obstacles[..|obstacles|] == obstacles &&
      (forall i :: 0 <= i < |sizes| ==>
         r.placements[i].size == sizes[i] &&
         r.obstacles[|obstacles| + i] == PlacedBox(r.placements[i]) &&
         AreaConsistent(r.obstacles[|obstacles| + i]))
  {
    assert PlaceAll(v, obstacles, sizes, draws, k) == PlaceEach(Searcher(v, draws), obstacles, sizes, k);
    PlaceEachObstacles(Searcher(v, draws), obstacles, sizes, k);
  }

  /** Each random card of a pass is placed by the bounded first-fit search
      against the obstacles before it, and the pass reads the stream in
      order. */
  lemma PlaceAllFirstFit(v: Viewport, obstacles: seq<Box>, sizes: seq<Size>, draws: nat -> real, k: nat)
    ensures var r := PlaceAll(v, obstacles, sizes, draws, k);
      Chained(r.placements, k, r.cursor) &&
      (forall i :: 0 <= i < |sizes| ==>
         var p := r.placements[i];
         FirstFit(v, sizes[i], r.obstacles[..|obstacles| + i], draws, p.firstDraw, Choice(p.left, p.top, p.attempts)))
  {
    SearcherIsFirstFit(v, draws);
    var choose := Searcher(v, draws);
    var good := (s: Size, placed: seq<Box>, j: nat, ch: Choice) => FirstFit(v, s, placed, draws, j, ch);
    assert forall s, placed, j :: good(s, placed, j, choose(s, placed, j));
    PlaceEachChosen(choose, good, obstacles, sizes, k);
    PlaceEachChained(choose, obstacles, sizes, k);
  }

  /** A card placed with every draw 0.5 lands at the centre of its usable
      ranges: in a 1024 x 768 window with an 80 px header, a 60 px footer,
      no filter bar and one fixed 200 x 100 card at (10, 10), a 250 x 200
      card is placed at (377, 244) on the first attempt. */
  lemma CenteredPlacementExample()
    ensures Search(Viewport(1024.0, 768.0, Some(80.0), Some(60.0), None), Size(250.0, 200.0),
                   [Box(10.0, 10.0, 200.0, 100.0, 20000.0)], (i: nat) => 0.5, 0, 1)
            == Choice(377.0, 244.0, 1)
  {
    var v := Viewport(1024.0, 768.0, Some(80.0), Some(60.0), None);
    var c := AttemptAt(v, Size(250.0, 200.0), (i: nat) => 0.5, 0, 1);
    assert c == Rect(377.0, 244.0, 250.0, 200.0);
    assert OverlapArea(c, RectOf(Box(10.0, 10.0, 200.0, 100.0, 20000.0))) == 0.0;
  }

  /** Extending the cards of the loop by one more card extends the pass by
      that card's placement, placed against the obstacles and from the
      cursor where the shorter pass ended. */
  lemma {:induction false} PlaceEachSnoc(choose: (Size, seq<Box>, nat) -> Choice,
                                         obstacles: seq<Box>, sizes: seq<Size>, s: Size, k: nat)
    ensures var r := PlaceEach(choose, obstacles, sizes, k);
      var ch := choose(s, r.obstacles, r.cursor);
      var p := Placement(ch.x, ch.y, ch.attempts, r.cursor, s);
      PlaceEach(choose, obstacles, sizes + [s], k)
        == Pass(r.placements + [p], r.obstacles + [PlacedBox(p)], r.cursor + 2 * ch.attempts + 1)
    decreases |sizes|
  {
    if sizes == [] {
      assert sizes + [s] == [s];
    } else {
      var ch0 := choose(sizes[0], obstacles, k);
      var p0 := Placement(ch0.x, ch0.y, ch0.attempts, k, sizes[0]);
      var obs' := obstacles + [PlacedBox(p0)];
      var k' := k + 2 * ch0.attempts + 1;
      var r' := PlaceEach(choose, obs', sizes[1..], k');
      assert PlaceEach(choose, obstacles, sizes, k) == Pass([p0] + r'.placements, r'.obstacles, r'.cursor);
      assert (sizes + [s])[0] == sizes[0] && (sizes + [s])[1..] == sizes[1..] + [s];
      var longer := PlaceEach(choose, obs', sizes[1..] + [s], k');
      assert PlaceEach(choose, obstacles, sizes + [s], k) == Pass([p0] + longer.placements, longer.obstacles, longer.cursor);
      PlaceEachSnoc(choose, obs', sizes[1..], s, k');
      var ch := choose(s, r'.obstacles, r'.cursor);
      var p := Placement(ch.x, ch.y, ch.attempts, r'.cursor, s);
      assert longer == Pass(r'.placements + [p], r'.obstacles + [PlacedBox(p)], r'.cursor + 2 * ch.attempts + 1);
      var r := PlaceEach(choose, obstacles, sizes, k);
      assert r.placements + [p] == [p0] + longer.placements;
      assert PlaceEach(choose, obstacles, sizes + [s], k)
        == Pass(r.placements + [p], r.obstacles + [PlacedBox(p)], r.cursor + 2 * ch.attempts + 1);
    }
  }

  /** One turn of the random-card loop: a pass over the first `i` cards
      followed by the placement of card `i` is the pass over the first
      `i + 1` cards. */
  lemma PlaceEachStep(choose: (Size, seq<Box>, nat) -> Choice, obstacles: seq<Box>, sizes: seq<Size>, k: nat,
                      i: nat, done: seq<Placement>, placed: seq<Box>, next: nat)
    requires i < |sizes|
    requires PlaceEach(choose, obstacles, sizes[..i], k) == Pass(done, placed, next)
    ensures var ch := choose(sizes[i], placed, next);
      var p := Placement(ch.x, ch.y, ch.attempts, next, sizes[i]);
      PlaceEach(choose, obstacles, sizes[..i + 1], k) == Pass(done + [p], placed + [PlacedBox(p)], next + 2 * ch.attempts + 1)
  {
    PlaceEachSnoc(choose, obstacles, sizes[..i], sizes[i], k);
    assert sizes[..i + 1] == sizes[..i] + [sizes[i]];
  }

  /** One turn of the random-card loop of a pass: a card placed by the
      bounded first-fit search after the first `i` cards extends the pass
      over them to the pass over the first `i + 1` cards. */
  lemma PlaceAllStep(v: Viewport, obstacles: seq<Box>, sizes: seq<Size>, draws: nat -> real, k: nat,
                     i: nat, done: seq<Placement>, placed: seq<Box>, next: nat, p: Placement)
    requires i < |sizes|
    requires PlaceAll(v, obstacles, sizes[..i], draws, k) == Pass(done, placed, next)
    requires p.firstDraw == next && p.size == sizes[i]
    requires FirstFit(v, sizes[i], placed, draws, next, Choice(p.left, p.top, p.attempts))
    ensures PlaceAll(v, obstacles, sizes[..i + 1], draws, k)
      == Pass(done + [p], placed + [PlacedBox(p)], next + 2 * p.attempts + 1)
  {
    FirstFitIsSearch(v, sizes[i], placed, draws, next, Choice(p.left, p.top, p.attempts));
    PlaceEachStep(Searcher(v, draws), obstacles, sizes, k, i, done, placed, next);
  }
}

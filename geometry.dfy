/** Rectangle geometry of the layout pass: placed-box records and the
    intersection area used by the overlap test (JS/script.js, layoutCards). */
module Geometry {

  /** An axis-aligned rectangle: top-left corner and size, in pixels. */
  datatype Rect = Rect(left: real, top: real, width: real, height: real)

  /** An entry of the obstacle list `placedElements`: a box with its area
      stored beside it. */
  datatype Box = Box(left: real, top: real, width: real, height: real, area: real)

  function Area(r: Rect): real {
    r.width * r.height
  }

  function RectOf(b: Box): Rect {
    Rect(b.left, b.top, b.width, b.height)
  }

  /** A box record whose stored area is its width times its height. */
  predicate AreaConsistent(b: Box) {
    b.area == b.width * b.height
  }

  function Max(a: real, b: real): real {
    if a >= b then a else b
  }

  function Min(a: real, b: real): real {
    if a <= b then a else b
  }

  /** `Math.min(a + la, b + lb) - Math.max(a, b)`: the signed length shared by
      the intervals [a, a + la) and [b, b + lb). */
  function SharedLength(a: real, la: real, b: real, lb: real): (r: real)
    ensures r > 0.0 <==> 0.0 < la && 0.0 < lb && a < b + lb && b < a + la
    ensures r <= la && r <= lb
  {
    Min(a + la, b + lb) - Max(a, b)
  }

  /** Two rectangles share interior points: each has a positive extent and
      their open spans meet on both axes. */
  predicate Intersects(p: Rect, q: Rect) {
    0.0 < p.width && 0.0 < q.width && p.left < q.left + q.width && q.left < p.left + p.width &&
    0.0 < p.height && 0.0 < q.height && p.top < q.top + q.height && q.top < p.top + p.height
  }

  lemma ProductBelow(x: real, y: real, xMax: real, yMax: real)
    requires 0.0 < x <= xMax && 0.0 < y <= yMax
    ensures 0.0 < y * x <= xMax * yMax
  {
    assert y * x <= yMax * x;
    assert yMax * x <= yMax * xMax;
    assert yMax * xMax == xMax * yMax;
  }

  /** The overlap area of the source: counted only when both the overlap
      width and the overlap height are positive, 0 otherwise. */
  function OverlapArea(p: Rect, q: Rect): (r: real)
    ensures r >= 0.0
    ensures r > 0.0 <==> Intersects(p, q)
    ensures r > 0.0 ==> r <= Area(p) && r <= Area(q)
  {
    var w := SharedLength(p.left, p.width, q.left, q.width);
    var h := SharedLength(p.top, p.height, q.top, q.height);
    if w > 0.0 && h > 0.0 then
      ProductBelow(w, h, p.width, p.height);
      ProductBelow(w, h, q.width, q.height);
      h * w
    else 0.0
  }

  lemma SharedLengthSymmetric(a: real, la: real, b: real, lb: real)
    ensures SharedLength(a, la, b, lb) == SharedLength(b, lb, a, la)
  {
  }

  /** The overlap area does not depend on which rectangle is the candidate. */
  lemma OverlapSymmetric(p: Rect, q: Rect)
    ensures OverlapArea(p, q) == OverlapArea(q, p)
  {
    SharedLengthSymmetric(p.left, p.width, q.left, q.width);
    SharedLengthSymmetric(p.top, p.height, q.top, q.height);
  }

  /** For rectangles of non-negative size the overlap never exceeds either
      area. */
  lemma OverlapWithinAreas(p: Rect, q: Rect)
    requires p.width >= 0.0 && p.height >= 0.0 && q.width >= 0.0 && q.height >= 0.0
    ensures OverlapArea(p, q) <= Area(p) && OverlapArea(p, q) <= Area(q)
  {
    if OverlapArea(p, q) == 0.0 {
      assert Area(p) >= 0.0 && Area(q) >= 0.0;
    }
  }
}

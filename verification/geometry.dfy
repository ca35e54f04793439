/** Points and axis-aligned rectangles: the map extents and the sample polygon's ring. */
module Geometry {
  datatype Point = Point(x: real, y: real)

  /** A rectangle given by its bounds, as QgsRectangle(xmin, ymin, xmax, ymax). */
  datatype Rect = Rect(xmin: real, ymin: real, xmax: real, ymax: real)

  predicate Contains(outer: Rect, inner: Rect) {
    outer.xmin <= inner.xmin && inner.xmax <= outer.xmax &&
    outer.ymin <= inner.ymin && inner.ymax <= outer.ymax
  }

  /** A rectangle with no area (zero width or height, or inverted bounds). */
  predicate Degenerate(r: Rect) {
    r.xmax <= r.xmin || r.ymax <= r.ymin
  }

  function Min(a: real, b: real): real { if a <= b then a else b }
  function Max(a: real, b: real): real { if a <= b then b else a }

  /** The union of two extents (combineExtentWith): the smallest rectangle covering both. */
  function Combine(a: Rect, b: Rect): (r: Rect)
    ensures Contains(r, a) && Contains(r, b)
    ensures forall c :: Contains(c, a) && Contains(c, b) ==> Contains(c, r)
    ensures !Degenerate(a) ==> !Degenerate(r)
  {
    Rect(Min(a.xmin, b.xmin), Min(a.ymin, b.ymin), Max(a.xmax, b.xmax), Max(a.ymax, b.ymax))
  }

  predicate IsCorner(p: Point, r: Rect) {
    (p.x == r.xmin || p.x == r.xmax) && (p.y == r.ymin || p.y == r.ymax)
  }

  /** Twice the signed area of a closed ring (shoelace formula); positive for counter-clockwise rings. */
  function TwiceSignedArea(ring: seq<Point>): real
    decreases |ring|
  {
    if |ring| < 2 then 0.0
    else ring[0].x * ring[1].y - ring[1].x * ring[0].y + TwiceSignedArea(ring[1..])
  }

  /**
   * The exterior ring of `r`: bottom-left, bottom-right, top-right, top-left,
   * and bottom-left again to close it.
   */
  function Ring(r: Rect): (ring: seq<Point>)
    ensures |ring| == 5 && ring[0] == ring[4]
    ensures ring[0] == Point(r.xmin, r.ymin)
    ensures forall i :: 0 <= i < 5 ==> IsCorner(ring[i], r)
    ensures forall i :: 0 <= i < 4 ==> ring[i].x == ring[i + 1].x || ring[i].y == ring[i + 1].y
  {
    [Point(r.xmin, r.ymin), Point(r.xmax, r.ymin), Point(r.xmax, r.ymax), Point(r.xmin, r.ymax),
     Point(r.xmin, r.ymin)]
  }

  /**
   * For a rectangle with area, the ring visits four distinct corners and runs
   * counter-clockwise, enclosing twice the rectangle's area.
   */
  lemma RingIsCounterClockwise(r: Rect)
    requires !Degenerate(r)
    ensures forall i, j :: 0 <= i < j < 4 ==> Ring(r)[i] != Ring(r)[j]
    ensures TwiceSignedArea(Ring(r)) == 2.0 * (r.xmax - r.xmin) * (r.ymax - r.ymin) > 0.0
  {
    var ring := Ring(r);
    var (x0, y0, x1, y1) := (r.xmin, r.ymin, r.xmax, r.ymax);
    assert TwiceSignedArea(ring[4..]) == 0.0;
    assert TwiceSignedArea(ring[3..]) == x0 * y0 - x0 * y1 by { assert ring[3..][1..] == ring[4..]; }
    assert TwiceSignedArea(ring[2..]) == x1 * y1 - x0 * y1 + TwiceSignedArea(ring[3..]) by { assert ring[2..][1..] == ring[3..]; }
    assert TwiceSignedArea(ring[1..]) == x1 * y1 - x1 * y0 + TwiceSignedArea(ring[2..]) by { assert ring[1..][1..] == ring[2..]; }
    assert TwiceSignedArea(ring) == x0 * y0 - x1 * y0 + TwiceSignedArea(ring[1..]);
    assert TwiceSignedArea(ring) == 2.0 * (x1 - x0) * (y1 - y0);
    assert (x1 - x0) * (y1 - y0) > 0.0;
  }
}

/**
 * Axis-aligned rectangles of src/quadtree/bounds.cpp.  The y axis grows
 * downwards: `topLeft` has the smallest coordinates.  A rectangle contains
 * its left and top edges and excludes its right and bottom edges, and it
 * splits at its midpoint into four quadrants.  Coordinates are exact reals.
 */
module Quadtree {

  datatype Point = Point(x: real, y: real)

  datatype Bounds = Bounds(topLeft: Point, bottomRight: Point)

  /** What the `Bounds` constructor asserts of its corners. */
  predicate WellFormed(b: Bounds)
  {
    b.topLeft.x <= b.bottomRight.x && b.topLeft.y <= b.bottomRight.y
  }

  /** The `Bounds(topLeft, bottomRight)` constructor. */
  function MakeBounds(topLeft: Point, bottomRight: Point): (b: Bounds)
    requires topLeft.x <= bottomRight.x && topLeft.y <= bottomRight.y
    ensures WellFormed(b) && b.topLeft == topLeft && b.bottomRight == bottomRight
  {
    Bounds(topLeft, bottomRight)
  }

  /** `contain`: the half-open rectangle [left, right) x [top, bottom). */
  predicate Contain(b: Bounds, p: Point)
  {
    b.topLeft.x <= p.x && p.x < b.bottomRight.x &&
    b.topLeft.y <= p.y && p.y < b.bottomRight.y
  }

  function Midpoint(b: Bounds): Point
  {
    Point((b.topLeft.x + b.bottomRight.x) / 2.0, (b.topLeft.y + b.bottomRight.y) / 2.0)
  }

  /** Every point of `inner` is a point of `outer`. */
  ghost predicate Inside(inner: Bounds, outer: Bounds)
  {
    forall p :: Contain(inner, p) ==> Contain(outer, p)
  }

  function TopLeftQuadrant(b: Bounds): (q: Bounds)
    requires WellFormed(b)
    ensures WellFormed(q) && Inside(q, b)
    ensures q.topLeft == b.topLeft && q.bottomRight == Midpoint(b)
  {
    var tl, br := b.topLeft, b.bottomRight;
    MakeBounds(tl, Point((tl.x + br.x) / 2.0, (tl.y + br.y) / 2.0))
  }

  function TopRightQuadrant(b: Bounds): (q: Bounds)
    requires WellFormed(b)
    ensures WellFormed(q) && Inside(q, b)
    ensures q.topLeft == Point(Midpoint(b).x, b.topLeft.y)
    ensures q.bottomRight == Point(b.bottomRight.x, Midpoint(b).y)
  {
    var tl, br := b.topLeft, b.bottomRight;
    MakeBounds(Point((tl.x + br.x) / 2.0, tl.y), Point(br.x, (tl.y + br.y) / 2.0))
  }

  function BottomRightQuadrant(b: Bounds): (q: Bounds)
    requires WellFormed(b)
    ensures WellFormed(q) && Inside(q, b)
    ensures q.topLeft == Midpoint(b) && q.bottomRight == b.bottomRight
  {
    var tl, br := b.topLeft, b.bottomRight;
    MakeBounds(Point((tl.x + br.x) / 2.0, (tl.y + br.y) / 2.0), br)
  }

  function BottomLeftQuadrant(b: Bounds): (q: Bounds)
    requires WellFormed(b)
    ensures WellFormed(q) && Inside(q, b)
    ensures q.topLeft == Point(b.topLeft.x, Midpoint(b).y)
    ensures q.bottomRight == Point(Midpoint(b).x, b.bottomRight.y)
  {
    var tl, br := b.topLeft, b.bottomRight;
    MakeBounds(Point(tl.x, (tl.y + br.y) / 2.0), Point((tl.x + br.x) / 2.0, br.y))
  }

  function Indicator(c: bool): nat
  {
    if c then 1 else 0
  }

  /** How many of the four quadrants of `b` contain `p`. */
  function QuadrantsContaining(b: Bounds, p: Point): nat
    requires WellFormed(b)
  {
    Indicator(Contain(TopLeftQuadrant(b), p)) + Indicator(Contain(TopRightQuadrant(b), p)) +
    Indicator(Contain(BottomRightQuadrant(b), p)) + Indicator(Contain(BottomLeftQuadrant(b), p))
  }

  /** The quadrants partition their parent: one quadrant for a point inside, none for one outside. */
  lemma QuadrantsPartition(b: Bounds, p: Point)
    requires WellFormed(b)
    ensures QuadrantsContaining(b, p) == if Contain(b, p) then 1 else 0
  {
    var m := Midpoint(b);
    if Contain(b, p) {
      if p.x < m.x && p.y < m.y {
        assert Contain(TopLeftQuadrant(b), p);
      } else if p.y < m.y {
        assert Contain(TopRightQuadrant(b), p);
      } else if p.x >= m.x {
        assert Contain(BottomRightQuadrant(b), p);
      } else {
        assert Contain(BottomLeftQuadrant(b), p);
      }
    } else {
      assert !Contain(TopLeftQuadrant(b), p);
    }
  }

  /** A rectangle whose corners coincide contains no point. */
  lemma DegenerateContainsNothing(b: Bounds, p: Point)
    requires b.topLeft == b.bottomRight
    ensures !Contain(b, p)
  {
  }

  /**
   * The edges: for any `ex` strictly left of the right edge and `ey` strictly
   * above the bottom edge, the top-left corner and the points (left, ey) and
   * (ex, top) are inside; the other three corners and the points (right, ey)
   * and (ex, bottom) are outside.
   */
  lemma HalfOpenEdges(b: Bounds, ex: real, ey: real)
    requires b.topLeft.x <= ex < b.bottomRight.x && b.topLeft.y <= ey < b.bottomRight.y
    ensures var tl, br := b.topLeft, b.bottomRight;
      Contain(b, tl) && Contain(b, Point(tl.x, ey)) && Contain(b, Point(ex, tl.y)) &&
      !Contain(b, br) && !Contain(b, Point(br.x, tl.y)) && !Contain(b, Point(tl.x, br.y)) &&
      !Contain(b, Point(br.x, ey)) && !Contain(b, Point(ex, br.y))
  {
  }
}

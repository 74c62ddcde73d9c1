// Two-dimensional points and axis-aligned rectangles (Rectangle.cpp).
// Coordinates are the game's float vectors, abstracted as exact reals.

module Geometry {

  /** A 2D vector of world coordinates (sf::Vector2f). */
  datatype Vec2 = Vec2(x: real, y: real)
  {
    function Plus(o: Vec2): (r: Vec2)
      ensures r.x == x + o.x && r.y == y + o.y
    {
      Vec2(x + o.x, y + o.y)
    }

    function Scale(k: real): (r: Vec2)
      ensures r.x == k * x && r.y == k * y
    {
      Vec2(k * x, k * y)
    }

    /** Component-wise product, as the source scales a texture size by a scale vector. */
    function Times(o: Vec2): (r: Vec2)
      ensures r.x == x * o.x && r.y == y * o.y
    {
      Vec2(x * o.x, y * o.y)
    }
  }

  const Origin: Vec2 := Vec2(0.0, 0.0)

  /** An axis-aligned rectangle given by its top-left and bottom-right corners. */
  datatype Rect = Rect(topLeft: Vec2, bottomRight: Vec2)

  /** The default-constructed rectangle: both corners at the origin. */
  const DefaultRect: Rect := Rect(Origin, Origin)

  /** The rectangle spanning from `pos` to `pos + size`. */
  function SpanFrom(pos: Vec2, size: Vec2): (r: Rect)
    ensures r.topLeft == pos
    ensures r.bottomRight.x == pos.x + size.x && r.bottomRight.y == pos.y + size.y
  {
    Rect(pos, pos.Plus(size))
  }

  predicate WellFormed(r: Rect)
  {
    r.topLeft.x <= r.bottomRight.x && r.topLeft.y <= r.bottomRight.y
  }

  /** Point containment with the boundary included on every side. */
  predicate Inside(r: Rect, px: real, py: real)
  {
    r.topLeft.x <= px <= r.bottomRight.x && r.topLeft.y <= py <= r.bottomRight.y
  }

  /** The strict "lies entirely beside" relations whose absence is overlap. */
  predicate StrictlyLeftOf(a: Rect, b: Rect) { a.bottomRight.x < b.topLeft.x }
  predicate StrictlyAbove(a: Rect, b: Rect) { a.bottomRight.y < b.topLeft.y }

  /** Overlap test: the rectangles intersect unless one lies strictly to one side of the other. */
  predicate Intersects(a: Rect, b: Rect)
  {
    !(a.bottomRight.x < b.topLeft.x || a.topLeft.x > b.bottomRight.x ||
      a.bottomRight.y < b.topLeft.y || a.topLeft.y > b.bottomRight.y)
  }

  lemma IntersectsIffNotSeparated(a: Rect, b: Rect)
    ensures Intersects(a, b) <==>
      !(StrictlyLeftOf(a, b) || StrictlyLeftOf(b, a) || StrictlyAbove(a, b) || StrictlyAbove(b, a))
  {
  }

  lemma IntersectsSymmetric(a: Rect, b: Rect)
    ensures Intersects(a, b) == Intersects(b, a)
  {
  }

  /** Rectangles sharing only an edge (or only a corner) still count as intersecting. */
  lemma TouchingCounts(a: Rect, b: Rect)
    requires WellFormed(a) && WellFormed(b)
    requires a.bottomRight.x == b.topLeft.x
    requires a.topLeft.y <= b.bottomRight.y && b.topLeft.y <= a.bottomRight.y
    ensures Intersects(a, b)
  {
  }

  lemma CornerTouchCounts(a: Rect, b: Rect)
    requires WellFormed(a) && WellFormed(b)
    requires a.bottomRight == b.topLeft
    ensures Intersects(a, b)
  {
  }

  lemma SelfIntersects(r: Rect)
    requires WellFormed(r)
    ensures Intersects(r, r)
  {
  }

  lemma CommonPointIntersects(a: Rect, b: Rect, px: real, py: real)
    requires Inside(a, px, py) && Inside(b, px, py)
    ensures Intersects(a, b)
  {
  }

  function MaxReal(a: real, b: real): real { if a < b then b else a }

  /**
   * For well-formed rectangles the overlap test is exact: they intersect
   * iff some point lies inside both. The witness is the larger of the two
   * top-left corners.
   */
  lemma IntersectsIffCommonPoint(a: Rect, b: Rect)
    requires WellFormed(a) && WellFormed(b)
    ensures Intersects(a, b) <==> exists px: real, py: real :: Inside(a, px, py) && Inside(b, px, py)
  {
    if Intersects(a, b) {
      var px := MaxReal(a.topLeft.x, b.topLeft.x);
      var py := MaxReal(a.topLeft.y, b.topLeft.y);
      assert Inside(a, px, py) && Inside(b, px, py);
    }
  }
}

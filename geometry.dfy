/** Axis-aligned rectangles on the canvas (y grows downward) and the overlap
    test used for crash detection. */
module Geometry {

  /** A rectangle given by its top-left corner and its extent. */
  datatype Rect = Rect(x: real, y: real, width: real, height: real)

  /** A rectangle with non-negative extent. */
  predicate WellFormed(r: Rect) {
    r.width >= 0.0 && r.height >= 0.0
  }

  /** The rectangle covers the point (px, py), its edges included. */
  predicate Covers(r: Rect, px: real, py: real) {
    r.x <= px <= r.x + r.width && r.y <= py <= r.y + r.height
  }

  /** The overlap test: neither rectangle lies strictly to one side of the
      other, on either axis. */
  predicate RectsIntersect(a: Rect, b: Rect) {
    !(a.x > b.x + b.width || a.x + a.width < b.x || a.y > b.y + b.height || a.y + a.height < b.y)
  }

  /** The test does not depend on the order of its arguments. */
  lemma IntersectSymmetric(a: Rect, b: Rect)
    ensures RectsIntersect(a, b) == RectsIntersect(b, a)
  {
  }

  /** The rectangles touch: they meet along a vertical or a horizontal edge,
      the shared stretch possibly shrunk to a single corner. */
  predicate Touching(a: Rect, b: Rect) {
    || ((a.x + a.width == b.x || b.x + b.width == a.x)
        && a.y <= b.y + b.height && b.y <= a.y + a.height)
    || ((a.y + a.height == b.y || b.y + b.height == a.y)
        && a.x <= b.x + b.width && b.x <= a.x + a.width)
  }

  /** Because the comparisons are strict, rectangles that only touch along an
      edge or at a corner count as intersecting. */
  lemma TouchingRectsIntersect(a: Rect, b: Rect)
    requires WellFormed(a) && WellFormed(b)
    requires Touching(a, b)
    ensures RectsIntersect(a, b)
  {
  }

  /** Side-by-side rectangles sharing a whole edge, and rectangles meeting
      only at a corner, both touch. */
  lemma EdgeAndCornerContactTouch(a: Rect, b: Rect)
    requires WellFormed(a) && WellFormed(b)
    requires a.x + a.width == b.x || b.x + b.width == a.x
    requires a.y + a.height == b.y || b.y + b.height == a.y || a.y == b.y
    ensures Touching(a, b)
  {
  }

  /** Every well-formed rectangle intersects itself. */
  lemma IntersectReflexive(a: Rect)
    requires WellFormed(a)
    ensures RectsIntersect(a, a)
  {
  }

  /** Reference meaning of the test: two well-formed rectangles intersect
      exactly when some point is covered by both. */
  lemma IntersectIffCommonPoint(a: Rect, b: Rect)
    requires WellFormed(a) && WellFormed(b)
    ensures RectsIntersect(a, b) <==> exists px, py :: Covers(a, px, py) && Covers(b, px, py)
  {
    if RectsIntersect(a, b) {
      var px := if a.x >= b.x then a.x else b.x;
      var py := if a.y >= b.y then a.y else b.y;
      assert Covers(a, px, py) && Covers(b, px, py);
    }
  }
}

/** Axis-aligned rectangles and the overlap test used for every collision
    (GameCanvas.tsx, rectsOverlap). */
module Geometry {

  /** A rectangle given by its top-left corner, width and height (y grows downwards). */
  datatype Rect = Rect(x: real, y: real, w: real, h: real)

  /** The source's test: on both axes each rectangle's near edge lies strictly
      before the other's far edge. Touching edges do not overlap. */
  predicate Overlaps(a: Rect, b: Rect)
  {
    a.x < b.x + b.w && a.x + a.w > b.x && a.y < b.y + b.h && a.y + a.h > b.y
  }

  /** A point strictly inside a rectangle. */
  predicate Inside(px: real, py: real, r: Rect)
  {
    r.x < px < r.x + r.w && r.y < py < r.y + r.h
  }

  /** The test does not depend on the order of its arguments. */
  lemma OverlapSymmetric(a: Rect, b: Rect)
    ensures Overlaps(a, b) <==> Overlaps(b, a)
  {
  }

  /** The inequalities are strict: rectangles that only share an edge do not overlap. */
  lemma SharedEdgeIsNoOverlap(a: Rect, b: Rect)
    requires a.x + a.w == b.x || a.y + a.h == b.y
    ensures !Overlaps(a, b)
  {
  }

  /** For rectangles of positive size the test is exactly "they share an
      interior point", the geometric meaning of a collision. */
  lemma OverlapIffSharedPoint(a: Rect, b: Rect)
    requires a.w > 0.0 && a.h > 0.0 && b.w > 0.0 && b.h > 0.0
    ensures Overlaps(a, b) <==> exists px, py :: Inside(px, py, a) && Inside(px, py, b)
  {
    if Overlaps(a, b) {
      var lx := if a.x >= b.x then a.x else b.x;
      var hx := if a.x + a.w <= b.x + b.w then a.x + a.w else b.x + b.w;
      var ly := if a.y >= b.y then a.y else b.y;
      var hy := if a.y + a.h <= b.y + b.h then a.y + a.h else b.y + b.h;
      var px := (lx + hx) / 2.0;
      var py := (ly + hy) / 2.0;
      assert Inside(px, py, a) && Inside(px, py, b);
    }
  }
}

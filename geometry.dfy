/** Pixel geometry of the level: grid cells, SDL-style rectangles and the
    rectangle-overlap test that every collision in the game goes through. */
module Geometry {

  /** Edge length, in pixels, of one cell of the level grid. */
  const CellSize: int := 64

  /** An immutable (column, row) cell of the level grid. */
  datatype Position = Position(x: int, y: int)

  /** An axis-aligned rectangle in pixel space: top-left corner and size. */
  datatype Rect = Rect(x: int, y: int, w: int, h: int)

  /** Pixel coordinate of the top-left corner of a grid column or row. */
  function ToPixel(cell: int): int { cell * CellSize }

  predicate IsEmpty(r: Rect) { r.w <= 0 || r.h <= 0 }

  function Max(a: int, b: int): int { if a < b then b else a }
  function Min(a: int, b: int): int { if a < b then a else b }

  /** SDL_HasIntersection: false as soon as either rectangle is empty;
      otherwise the two open intervals overlap on both axes, so rectangles
      that only share an edge do not intersect. */
  predicate Intersects(a: Rect, b: Rect) {
    && !IsEmpty(a) && !IsEmpty(b)
    && Max(a.x, b.x) < Min(a.x + a.w, b.x + b.w)
    && Max(a.y, b.y) < Min(a.y + a.h, b.y + b.h)
  }

  /** The pixel (px, py) lies inside the rectangle. */
  predicate Covers(r: Rect, px: int, py: int) {
    r.x <= px < r.x + r.w && r.y <= py < r.y + r.h
  }

  /** Overlap means exactly that some pixel lies inside both rectangles. */
  lemma IntersectsIffCommonPixel(a: Rect, b: Rect)
    ensures Intersects(a, b) <==> exists px, py :: Covers(a, px, py) && Covers(b, px, py)
  {
    if Intersects(a, b) {
      var px, py := Max(a.x, b.x), Max(a.y, b.y);
      assert Covers(a, px, py) && Covers(b, px, py);
    }
  }
}

/** Integer rectangles as pygame's Rect represents them, with its overlap test. */
module Geometry {

  function Min(a: int, b: int): int { if a <= b then a else b }

  function Max(a: int, b: int): int { if a <= b then b else a }

  function Abs(a: int): int { if a < 0 then -a else a }

  /** A Rect: top-left corner (x, y), width w and height h, all in pixels. */
  datatype Rect = Rect(x: int, y: int, w: int, h: int) {

    function Left(): int { x }

    function Right(): int { x + w }

    function Top(): int { y }

    function Bottom(): int { y + h }

    /** pygame's `centerx` and `centery` (x + w / 2, rounded down for the sizes used here). */
    function CenterX(): int { x + w / 2 }

    function CenterY(): int { y + h / 2 }

    /** `rect.y += d`: a vertical move that keeps the horizontal position and the size. */
    function MoveY(d: int): (r: Rect)
      ensures r.x == x && r.w == w && r.h == h
      ensures r.Top() - Top() == d && r.Bottom() - Bottom() == d
    {
      Rect(x, y + d, w, h)
    }

    /** `rect.center = (cx, cy)`: the size is kept and the centre then reads back as (cx, cy). */
    function WithCenter(cx: int, cy: int): (r: Rect)
      ensures r.w == w && r.h == h
      ensures r.CenterX() == cx && r.CenterY() == cy
    {
      Rect(cx - w / 2, cy - h / 2, w, h)
    }

    /** The pixel (px, py) lies inside the rectangle. */
    predicate Contains(px: int, py: int) {
      x <= px < x + w && y <= py < y + h
    }
  }

  /**
   * `a.colliderect(b)` of pygame: rectangles with a zero width or height collide with
   * nothing; otherwise the (normalised) boxes must overlap with strict inequalities, so
   * rectangles that only share an edge do not collide.
   */
  predicate Colliderect(a: Rect, b: Rect) {
    a.w != 0 && a.h != 0 && b.w != 0 && b.h != 0 &&
    Min(a.x, a.x + a.w) < Max(b.x, b.x + b.w) &&
    Min(a.y, a.y + a.h) < Max(b.y, b.y + b.h) &&
    Max(a.x, a.x + a.w) > Min(b.x, b.x + b.w) &&
    Max(a.y, a.y + a.h) > Min(b.y, b.y + b.h)
  }

  /** Overlap does not depend on which rectangle asks. */
  lemma CollideSymmetric(a: Rect, b: Rect)
    ensures Colliderect(a, b) == Colliderect(b, a)
  {
  }

  /** For rectangles of positive size, colliding means sharing at least one pixel. */
  lemma CollideIffCommonPixel(a: Rect, b: Rect)
    requires a.w > 0 && a.h > 0 && b.w > 0 && b.h > 0
    ensures Colliderect(a, b) <==> exists px, py :: a.Contains(px, py) && b.Contains(px, py)
  {
    if Colliderect(a, b) {
      var px, py := Max(a.x, b.x), Max(a.y, b.y);
      assert a.Contains(px, py) && b.Contains(px, py);
    }
  }
}

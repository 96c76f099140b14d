/**
 * Axis-aligned rectangles and the open-interval overlap test that the game
 * uses for every collision (player/platform, enemy/platform, player/enemy,
 * player/coin). The source repeats the same test in three places; it is
 * defined once here.
 */
module Geometry {

  /** A rectangle given by its top-left corner and its extents (y grows downwards). */
  datatype Rect = Rect(x: real, y: real, width: real, height: real)
  {
    function Right(): real { x + width }
    function Bottom(): real { y + height }
  }

  /** The rectangle of size `w` by `h` whose centre is `(cx, cy)`. */
  predicate CentredOn(r: Rect, cx: real, cy: real, w: real, h: real)
  {
    r.width == w && r.height == h && r.x + w / 2.0 == cx && r.y + h / 2.0 == cy
  }

  /**
   * The collision test: both extents overlap as OPEN intervals, so boxes that
   * only share an edge do not collide.
   */
  predicate Intersects(a: Rect, b: Rect)
  {
    a.x < b.x + b.width &&
    a.x + a.width > b.x &&
    a.y < b.y + b.height &&
    a.y + a.height > b.y
  }

  /** The test does not depend on the order of its arguments. */
  lemma IntersectsSymmetric(a: Rect, b: Rect)
    ensures Intersects(a, b) <==> Intersects(b, a)
  {
  }

  /** Boxes that meet along a vertical or a horizontal edge do not collide. */
  lemma TouchingEdgesDoNotCollide(a: Rect, b: Rect)
    requires a.x + a.width == b.x || b.x + b.width == a.x || a.y + a.height == b.y || b.y + b.height == a.y
    ensures !Intersects(a, b) && !Intersects(b, a)
  {
  }

  /** A box with positive extents collides with itself. */
  lemma SelfIntersects(a: Rect)
    requires a.width > 0.0 && a.height > 0.0
    ensures Intersects(a, a)
  {
  }

  /**
   * The test is NOT "zero-area boxes never collide": a zero-width box that lies
   * strictly inside another box's horizontal range passes it.
   */
  lemma ZeroWidthBoxCanCollide()
    ensures Intersects(Rect(5.0, 0.0, 0.0, 10.0), Rect(0.0, 0.0, 10.0, 10.0))
  {
  }

  /**
   * The four penetration depths of `a` into `b`: how far `a` must move left,
   * right, up or down to stop overlapping `b`.
   */
  datatype Overlaps = Overlaps(left: real, right: real, top: real, bottom: real)

  function Penetration(a: Rect, b: Rect): Overlaps
  {
    Overlaps(a.x + a.width - b.x, b.x + b.width - a.x, a.y + a.height - b.y, b.y + b.height - a.y)
  }

  /** Two boxes collide exactly when all four penetration depths are strictly positive. */
  lemma IntersectsIffPositivePenetration(a: Rect, b: Rect)
    ensures var o := Penetration(a, b);
            Intersects(a, b) <==> (o.left > 0.0 && o.right > 0.0 && o.top > 0.0 && o.bottom > 0.0)
  {
  }

  function Min(a: real, b: real): real { if a <= b then a else b }

  /** `Math.min` of the four depths. */
  function MinOf(o: Overlaps): (m: real)
    ensures m <= o.left && m <= o.right && m <= o.top && m <= o.bottom
    ensures m == o.left || m == o.right || m == o.top || m == o.bottom
  {
    Min(Min(Min(o.left, o.right), o.top), o.bottom)
  }
}

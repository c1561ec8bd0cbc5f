/** Optional values, standing in for JavaScript's `null` / `undefined`. */
module Wrappers {
  datatype Option<+T> = None | Some(value: T)
}

/** The drawing surface and the axis-aligned boxes that collisions compare. */
module Geometry {
  /** The game fixes the canvas at 400 × 600 logical units. */
  const CanvasWidth: real := 400.0
  const CanvasHeight: real := 600.0

  /** A box by its top-left corner and its size; `top` grows downwards. */
  datatype Box = Box(left: real, top: real, width: real, height: real)

  /** Strict axis-aligned overlap: boxes that only share an edge do not overlap. */
  predicate Overlap(a: Box, b: Box)
  {
    a.left < b.left + b.width && a.left + a.width > b.left &&
    a.top < b.top + b.height && a.top + a.height > b.top
  }

  lemma OverlapSymmetric(a: Box, b: Box)
    ensures Overlap(a, b) <==> Overlap(b, a)
  {
  }

  /** Two boxes that touch along a vertical or a horizontal edge do not collide. */
  lemma EdgeContactIsNoOverlap(a: Box, b: Box)
    requires a.left + a.width == b.left || b.left + b.width == a.left ||
             a.top + a.height == b.top || b.top + b.height == a.top
    ensures !Overlap(a, b)
  {
  }

  lemma ProductNonnegative(x: real, y: real)
    requires x >= 0.0 && y >= 0.0
    ensures x * y >= 0.0
  {
  }

  /** A draw in [0, 1) scales a non-negative length to at most that length. */
  lemma ScaledBelow(x: real, w: real)
    requires 0.0 <= x < 1.0 && w >= 0.0
    ensures 0.0 <= x * w <= w
  {
    ProductNonnegative(x, w);
    assert w - x * w == (1.0 - x) * w;
    ProductNonnegative(1.0 - x, w);
  }
}

/**
 * Boxes and the canvas-relative sizes the icon generators derive from `size`.
 */
module Geometry {
  import opened Gradient

  /** A Pillow bounding box `[(x0, y0), (x1, y1)]`; coordinates may be fractional. */
  datatype Box = Box(x0: real, y0: real, x1: real, y1: real)

  function IntBox(x0: int, y0: int, x1: int, y1: int): Box {
    Box(x0 as real, y0 as real, x1 as real, y1 as real)
  }

  /** The box `[(cx - r, cy - r), (cx + r, cy + r)]` of a circle. */
  function CircleBox(cx: int, cy: int, r: int): (b: Box)
    ensures b.x0 + b.x1 == 2.0 * cx as real && b.y0 + b.y1 == 2.0 * cy as real
    ensures b.x1 - b.x0 == 2.0 * r as real && b.y1 - b.y0 == 2.0 * r as real
  {
    IntBox(cx - r, cy - r, cx + r, cy + r)
  }

  /** A filled dot `[(x - radius, y - radius), (x + radius, y + radius)]`. */
  datatype Dot = Dot(x: int, y: int, radius: int)

  function DotBox(d: Dot): Box {
    CircleBox(d.x, d.y, d.radius)
  }

  function Width(b: Box): real { b.x1 - b.x0 }

  function Height(b: Box): real { b.y1 - b.y0 }

  /** The box is well formed and lies within a `size` x `size` canvas. */
  predicate Inside(b: Box, size: real) {
    0.0 <= b.x0 <= b.x1 <= size && 0.0 <= b.y0 <= b.y1 <= size
  }

  /** No point lies strictly inside both boxes. */
  predicate Disjoint(a: Box, b: Box) {
    a.x1 <= b.x0 || b.x1 <= a.x0 || a.y1 <= b.y0 || b.y1 <= a.y0
  }

  /**
   * `int(size * f)` for a proportion `f` written with three decimals, given as
   * `permille = 1000 * f`.
   */
  function Scale(size: nat, permille: nat): (n: nat)
    // the largest whole number of pixels not exceeding `size * permille / 1000`
    ensures n * 1000 <= size * permille < (n + 1) * 1000
  {
    (size * permille) / 1000
  }

  /** `Scale` is Python's `int` of the exact product `size * permille / 1000`. */
  lemma ScaleMatchesPython(size: nat, permille: nat)
    ensures Scale(size, permille) == PyInt(size as real * (permille as real / 1000.0))
    ensures Scale(size, permille) as real <= size as real * (permille as real / 1000.0) < Scale(size, permille) as real + 1.0
  {
    assert size as real * (permille as real / 1000.0) == (size * permille) as real / 1000.0;
    FloorOfQuotient(size * permille, 1000);
  }
}

/**
 * Colours and the per-row linear gradient shared by the three icon generators.
 *
 * Each generator paints row `y` of a `size`-row canvas with the channel value
 * `int(start + (end - start) * y / size)`. Python's `int` truncates toward zero;
 * the value is never negative here, so it is the floor of the exact quotient,
 * which is what `Channel` computes with integer division.
 */
module Gradient {

  datatype Rgb = Rgb(r: int, g: int, b: int)

  datatype Rgba = Rgba(r: int, g: int, b: int, a: int)

  /** The brand colours of the monogram icons' gradient, and a fully transparent pixel. */
  const Indigo: Rgb := Rgb(99, 102, 241)   // #6366F1
  const Purple: Rgb := Rgb(139, 92, 246)   // #8B5CF6
  const Transparent: Rgba := Rgba(0, 0, 0, 0)

  function WithAlpha(c: Rgb, a: int): Rgba {
    Rgba(c.r, c.g, c.b, a)
  }

  /** Python's `int(x)`: truncation toward zero. */
  function PyInt(x: real): (n: int)
    ensures 0.0 <= x ==> n as real <= x < n as real + 1.0
    ensures x < 0.0 ==> n as real - 1.0 < x <= n as real
  {
    if x >= 0.0 then x.Floor else -((-x).Floor)
  }

  /** `int(start + (end - start) * y / size)`, in integer arithmetic. */
  function Channel(start: int, end: int, y: int, size: int): (c: int)
    requires size > 0
    // the gradient runs exactly from `start` at row 0 to `end` at row `size`
    ensures y == 0 ==> c == start
    ensures y == size ==> c == end
  {
    DivCancel(start, size);
    DivCancel(end, size);
    assert y == size ==> start * size + (end - start) * y == end * size;
    (start * size + (end - start) * y) / size
  }

  function Min(a: int, b: int): int { if a <= b then a else b }

  function Max(a: int, b: int): int { if a <= b then b else a }

  // ---- arithmetic helpers ----

  lemma MulMono(a: int, x: int, y: int)
    requires 0 <= a && x <= y
    ensures a * x <= a * y
  {
    assert a * y - a * x == a * (y - x);
  }

  lemma DivMono(x: int, z: int, n: int)
    requires 0 < n && x <= z
    ensures x / n <= z / n
  {
    var qx, qz := x / n, z / n;
    assert qx * n <= x;
    assert z < (qz + 1) * n;
    if qz + 1 <= qx {
      MulMono(n, qz + 1, qx);
      assert false;
    }
  }

  lemma DivCancel(a: int, n: int)
    requires 0 < n
    ensures (a * n) / n == a
  {
    var q := (a * n) / n;
    var r := (a * n) % n;
    assert a * n == q * n + r && 0 <= r < n;
    assert (a - q) * n == r;
    if a - q >= 1 {
      MulMono(n, 1, a - q);
      assert false;
    } else if a - q <= -1 {
      MulMono(n, a - q, -1);
      assert false;
    }
  }

  // ---- properties of one channel ----

  /** Every row from 0 to `size` lies between the two endpoint values. */
  lemma ChannelWithin(start: int, end: int, y: int, size: int)
    requires 0 < size && 0 <= y <= size
    ensures Min(start, end) <= Channel(start, end, y, size) <= Max(start, end)
  {
    var num := start * size + (end - start) * y;
    var lo, hi := Min(start, end), Max(start, end);
    NumeratorBetween(start, end, y, size);
    DivCancel(lo, size);
    DivCancel(hi, size);
    DivMono(lo * size, num, size);
    DivMono(num, hi * size, size);
  }

  lemma NumeratorBetween(start: int, end: int, y: int, size: int)
    requires 0 < size && 0 <= y <= size
    ensures Min(start, end) * size <= start * size + (end - start) * y <= Max(start, end) * size
  {
    if start <= end {
      MulMono(end - start, 0, y);
      MulMono(end - start, y, size);
    } else {
      MulMono(start - end, 0, y);
      MulMono(start - end, y, size);
    }
  }

  /** A channel moves monotonically from its start value toward its end value. */
  lemma ChannelMonotone(start: int, end: int, y1: int, y2: int, size: int)
    requires 0 < size && y1 <= y2
    ensures start <= end ==> Channel(start, end, y1, size) <= Channel(start, end, y2, size)
    ensures end <= start ==> Channel(start, end, y2, size) <= Channel(start, end, y1, size)
  {
    var n1 := start * size + (end - start) * y1;
    var n2 := start * size + (end - start) * y2;
    if start <= end {
      MulMono(end - start, y1, y2);
      DivMono(n1, n2, size);
    } else {
      MulMono(start - end, y1, y2);
      DivMono(n2, n1, size);
    }
  }

  /** When the two endpoints differ by at most `size`, the last row is within 1 of the end value. */
  lemma ChannelLastRow(start: int, end: int, size: int)
    requires 0 < size
    requires -size <= end - start <= size
    ensures end - 1 <= Channel(start, end, size - 1, size) <= end + 1
  {
    var d := end - start;
    var num := start * size + d * (size - 1);
    assert num == end * size - d;
    DivCancel(end - 1, size);
    DivCancel(end + 1, size);
    assert (end - 1) * size <= num <= (end + 1) * size;
    DivMono((end - 1) * size, num, size);
    DivMono(num, (end + 1) * size, size);
  }

  /**
   * The integer formula agrees with Python's `int` applied to the exact value of
   * `start + (end - start) * y / size` (and of the equivalent spelling
   * `start - (start - end) * y / size` used by the logo generator).
   */
  lemma ChannelMatchesPython(start: int, end: int, y: int, size: int)
    requires 0 < size && 0 <= y <= size && 0 <= start && 0 <= end
    ensures Channel(start, end, y, size) == PyInt(start as real + ((end - start) * y) as real / size as real)
    ensures Channel(start, end, y, size) == PyInt(start as real - ((start - end) * y) as real / size as real)
  {
    var num := start * size + (end - start) * y;
    var v := start as real + ((end - start) * y) as real / size as real;
    SumOverDivisor(start, (end - start) * y, size);
    assert v == num as real / size as real;
    ChannelWithin(start, end, y, size);
    FloorOfQuotient(num, size);
    assert start as real - ((start - end) * y) as real / size as real == v;
  }

  /** `a + m / s == (a * s + m) / s` over the reals. */
  lemma SumOverDivisor(a: int, m: int, size: int)
    requires 0 < size
    ensures a as real + m as real / size as real == (a * size + m) as real / size as real
  {
    var s := size as real;
    assert (a * size) as real == a as real * s;
    assert (a as real * s) / s == a as real;
  }

  /** For a non-negative numerator, the floor of the real quotient is the integer quotient. */
  lemma FloorOfQuotient(num: int, size: int)
    requires 0 < size && 0 <= num
    ensures (num as real / size as real).Floor == num / size
    ensures 0.0 <= num as real / size as real
  {
    var s := size as real;
    var x := num as real / s;
    var q := num / size;
    var rem := num % size;
    assert num == q * size + rem && 0 <= rem < size;
    assert x * s == num as real;
    assert (q * size) as real == q as real * s;
    assert (x - q as real) * s == rem as real;
    RealDivBounds(x - q as real, s, rem as real);
  }

  /** If `x * s` equals a remainder in `[0, s)`, then `x` lies in `[0, 1)`. */
  lemma RealDivBounds(x: real, s: real, rem: real)
    requires 0.0 < s && x * s == rem && 0.0 <= rem < s
    ensures 0.0 <= x < 1.0
  {
  }

  // ---- whole-row colours ----

  /** The colour of row `y` in a top-to-bottom gradient over `size` rows. */
  function RowColor(top: Rgb, bottom: Rgb, y: int, size: int): Rgb
    requires 0 < size
  {
    Rgb(Channel(top.r, bottom.r, y, size), Channel(top.g, bottom.g, y, size), Channel(top.b, bottom.b, y, size))
  }

  /** Each channel of `c` lies between the corresponding channels of `top` and `bottom`. */
  predicate Within(c: Rgb, top: Rgb, bottom: Rgb) {
    && Min(top.r, bottom.r) <= c.r <= Max(top.r, bottom.r)
    && Min(top.g, bottom.g) <= c.g <= Max(top.g, bottom.g)
    && Min(top.b, bottom.b) <= c.b <= Max(top.b, bottom.b)
  }

  /** Going from `c1` to `c2`, every channel moves in the direction it moves from `top` to `bottom`. */
  predicate Toward(c1: Rgb, c2: Rgb, top: Rgb, bottom: Rgb) {
    && (top.r <= bottom.r ==> c1.r <= c2.r) && (bottom.r <= top.r ==> c2.r <= c1.r)
    && (top.g <= bottom.g ==> c1.g <= c2.g) && (bottom.g <= top.g ==> c2.g <= c1.g)
    && (top.b <= bottom.b ==> c1.b <= c2.b) && (bottom.b <= top.b ==> c2.b <= c1.b)
  }

  /** Python's row colour: `int` of each exact channel value. */
  function PyRowColor(top: Rgb, bottom: Rgb, y: int, size: int): Rgb
    requires 0 < size
  {
    Rgb(PyInt(top.r as real + ((bottom.r - top.r) * y) as real / size as real),
        PyInt(top.g as real + ((bottom.g - top.g) * y) as real / size as real),
        PyInt(top.b as real + ((bottom.b - top.b) * y) as real / size as real))
  }

  predicate NonNegative(c: Rgb) {
    0 <= c.r && 0 <= c.g && 0 <= c.b
  }

  /**
   * The colours of the `for y in range(size)` loop, one per row. Row 0 is the
   * top colour, every row lies between the endpoints, and every channel moves
   * monotonically toward the bottom colour.
   */
  function Rows(top: Rgb, bottom: Rgb, size: nat): (rows: seq<Rgb>)
    ensures |rows| == size
    ensures 0 < size ==> rows[0] == top
    ensures forall y :: 0 <= y < size ==> Within(rows[y], top, bottom)
    ensures forall y1, y2 :: 0 <= y1 <= y2 < size ==> Toward(rows[y1], rows[y2], top, bottom)
  {
    if size == 0 then []
    else
      RowsFacts(top, bottom, size);
      seq(size, y requires 0 <= y < size => RowColor(top, bottom, y, size))
  }

  lemma RowsFacts(top: Rgb, bottom: Rgb, size: nat)
    requires 0 < size
    ensures RowColor(top, bottom, 0, size) == top
    ensures forall y :: 0 <= y < size ==> Within(RowColor(top, bottom, y, size), top, bottom)
    ensures forall y1, y2 :: 0 <= y1 <= y2 < size ==>
              Toward(RowColor(top, bottom, y1, size), RowColor(top, bottom, y2, size), top, bottom)
  {
    forall y | 0 <= y < size
      ensures Within(RowColor(top, bottom, y, size), top, bottom)
    {
      ChannelWithin(top.r, bottom.r, y, size);
      ChannelWithin(top.g, bottom.g, y, size);
      ChannelWithin(top.b, bottom.b, y, size);
    }
    forall y1, y2 | 0 <= y1 <= y2 < size
      ensures Toward(RowColor(top, bottom, y1, size), RowColor(top, bottom, y2, size), top, bottom)
    {
      ChannelMonotone(top.r, bottom.r, y1, y2, size);
      ChannelMonotone(top.g, bottom.g, y1, y2, size);
      ChannelMonotone(top.b, bottom.b, y1, y2, size);
    }
  }

  /** The integer row colours are exactly what Python's `int` produces. */
  lemma RowsMatchPython(top: Rgb, bottom: Rgb, size: nat)
    requires NonNegative(top) && NonNegative(bottom)
    ensures forall y :: 0 <= y < size ==> Rows(top, bottom, size)[y] == PyRowColor(top, bottom, y, size)
  {
    forall y | 0 <= y < size
      ensures Rows(top, bottom, size)[y] == PyRowColor(top, bottom, y, size)
    {
      ChannelMatchesPython(top.r, bottom.r, y, size);
      ChannelMatchesPython(top.g, bottom.g, y, size);
      ChannelMatchesPython(top.b, bottom.b, y, size);
    }
  }

  /** When no channel changes by more than `size`, the last row is within 1 of the bottom colour. */
  lemma RowsLastRow(top: Rgb, bottom: Rgb, size: nat)
    requires 0 < size
    requires -(size as int) <= bottom.r - top.r <= size
    requires -(size as int) <= bottom.g - top.g <= size
    requires -(size as int) <= bottom.b - top.b <= size
    ensures var last := Rows(top, bottom, size)[size - 1];
            && bottom.r - 1 <= last.r <= bottom.r + 1
            && bottom.g - 1 <= last.g <= bottom.g + 1
            && bottom.b - 1 <= last.b <= bottom.b + 1
  {
    ChannelLastRow(top.r, bottom.r, size);
    ChannelLastRow(top.g, bottom.g, size);
    ChannelLastRow(top.b, bottom.b, size);
  }
}

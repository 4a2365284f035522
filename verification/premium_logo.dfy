/**
 * The geometry and colour arithmetic of faith_connect/generate_new_logo.py:
 * the light background gradient, the outer glow, the ring-by-ring radial
 * shading, the infinity mark, the star, the sparkle dots, and the app icon
 * that pastes a shrunken logo onto a violet gradient. The script fixes
 * `size = 1024`; the layout functions take `size` as the script's formulas do.
 */
module PremiumLogo {
  import opened Gradient
  import opened Geometry

  const LogoSize: nat := 1024

  /** `cx, cy = size // 2, size // 2`. */
  function Center(size: nat): int {
    size / 2
  }

  // ---- background (create_premium_logo) ----

  const LavenderTop: Rgb := Rgb(245, 243, 255)     // #F5F3FF
  const LavenderBottom: Rgb := Rgb(237, 233, 254)  // #EDE9FE

  function BackgroundRows(size: nat): seq<Rgb> {
    Rows(LavenderTop, LavenderBottom, size)
  }

  /** The 1024-row background starts at #F5F3FF and darkens, never leaving its endpoint range. */
  lemma BackgroundGradient(y1: int, y2: int)
    requires 0 <= y1 <= y2 < LogoSize
    ensures BackgroundRows(LogoSize)[0] == Rgb(245, 243, 255)
    ensures var rows := BackgroundRows(LogoSize);
            && 237 <= rows[y2].r <= rows[y1].r <= 245
            && 233 <= rows[y2].g <= rows[y1].g <= 243
            && 254 <= rows[y2].b <= rows[y1].b <= 255
  {
    var rows := BackgroundRows(LogoSize);
    assert Within(rows[y1], LavenderTop, LavenderBottom) && Within(rows[y2], LavenderTop, LavenderBottom);
    assert Toward(rows[y1], rows[y2], LavenderTop, LavenderBottom);
  }

  // ---- rings ----

  /** An ellipse outline `[(cx - radius, cy - radius), (cx + radius, cy + radius)]` drawn about the centre. */
  datatype Ring = Ring(radius: int, color: Rgba, width: int)

  const Violet: Rgb := Rgb(157, 139, 245)      // #9D8BF5
  const DeepViolet: Rgb := Rgb(123, 111, 232)  // #7B6FE8

  /**
   * The outer glow: `for i in range(3)` draws radius `int(0.45 * size) + 10 * i`
   * with alpha `20 - 5 * i`, so the glow fades as it widens.
   */
  function GlowRings(size: nat): (rings: seq<Ring>)
    ensures |rings| == 3
    ensures rings[0].radius == Scale(size, 450) && rings[0].color.a == 20
    ensures forall i :: 0 <= i < 2 ==>
              rings[i + 1].radius == rings[i].radius + 10 && rings[i + 1].color.a < rings[i].color.a
    ensures forall i :: 0 <= i < 3 ==> 0 < rings[i].color.a
    // ring i is #9D8BF5 at alpha 20, 15, 10, drawn 2 pixels wide
    ensures forall i :: 0 <= i < 3 ==> rings[i].color == WithAlpha(Violet, 20 - 5 * i) && rings[i].width == 2
  {
    seq(3, i requires 0 <= i < 3 => Ring(Scale(size, 450) + i * 10, WithAlpha(Violet, 20 - i * 5), 2))
  }

  /** From 390 pixels up, every glow ring fits on the canvas. */
  lemma GlowInsideCanvas(size: nat)
    requires 390 <= size
    ensures forall i :: 0 <= i < 3 ==>
              Inside(CircleBox(Center(size), Center(size), GlowRings(size)[i].radius), size as real)
  {
    GlowBound(size, Scale(size, 450), Center(size));
  }

  /** The outermost glow radius `q + 20`, with `q <= 0.45 * size`, fits between the centre and each edge once `size >= 390`. */
  lemma GlowBound(size: nat, q: nat, c: int)
    requires 390 <= size && q * 1000 <= size * 450
    requires 2 * c <= size <= 2 * c + 1
    ensures q + 20 <= c && c + q + 20 <= size
  {
  }

  /** The bound is tight: at 389 pixels the outermost glow ring (radius 195 about centre 194) leaves the canvas. */
  lemma GlowLeavesCanvasAt389()
    ensures GlowRings(389)[2].radius == 195 && Center(389) == 194
    ensures !Inside(CircleBox(Center(389), Center(389), GlowRings(389)[2].radius), 389 as real)
  {
  }

  /** `range(top, 0, -2)`: `top, top - 2, ...` while positive. */
  function RingRadii(top: int): (radii: seq<int>)
    ensures |radii| == if top <= 0 then 0 else (top + 1) / 2
    ensures forall k :: 0 <= k < |radii| ==> radii[k] == top - 2 * k && 0 < radii[k]
    decreases top
  {
    if top <= 0 then [] else [top] + RingRadii(top - 2)
  }

  /**
   * The colour of the ring of radius `i`, `int(157 - (157 - 123) * (1 - i / R))`
   * per channel: the gradient from #9D8BF5 to #7B6FE8 taken at step `R - i` of `R`.
   */
  function RingColor(i: int, mainRadius: int): Rgb
    requires 0 < mainRadius
  {
    RowColor(Violet, DeepViolet, mainRadius - i, mainRadius)
  }

  /** Python's value of one channel: `int(a - (a - b) * (1 - ratio))`. */
  function PyShade(a: int, b: int, ratio: real): int {
    PyInt(a as real - (a - b) as real * (1.0 - ratio))
  }

  /** Python's colour for the ring of radius `i`, with `ratio = i / R`. */
  function PyRingColor(i: int, mainRadius: int): Rgb
    requires 0 < mainRadius
  {
    var ratio := i as real / mainRadius as real;
    Rgb(PyShade(157, 123, ratio), PyShade(139, 111, ratio), PyShade(245, 232, ratio))
  }

  lemma RingColorMatchesPython(i: int, mainRadius: int)
    requires 0 <= i <= mainRadius && 0 < mainRadius
    ensures RingColor(i, mainRadius) == PyRingColor(i, mainRadius)
  {
    RingChannelMatchesPython(157, 123, i, mainRadius);
    RingChannelMatchesPython(139, 111, i, mainRadius);
    RingChannelMatchesPython(245, 232, i, mainRadius);
  }

  /** One channel: `int(a - (a - b) * (1 - i / R))` is the gradient value at step `R - i`. */
  lemma RingChannelMatchesPython(a: nat, b: nat, i: int, mainRadius: int)
    requires 0 <= i <= mainRadius && 0 < mainRadius
    ensures Channel(a, b, mainRadius - i, mainRadius) == PyShade(a, b, i as real / mainRadius as real)
  {
    var y := mainRadius - i;
    var e := a as real - ((a - b) * y) as real / mainRadius as real;
    ComplementScaled(a - b, i, mainRadius);
    assert a as real - (a - b) as real * (1.0 - i as real / mainRadius as real) == e;
    assert PyShade(a, b, i as real / mainRadius as real) == PyInt(e);
    ChannelMatchesPython(a, b, y, mainRadius);
  }

  /** `d * (1 - i / R) == d * (R - i) / R` over the reals. */
  lemma ComplementScaled(d: int, i: int, R: int)
    requires 0 < R
    ensures d as real * (1.0 - i as real / R as real) == (d * (R - i)) as real / R as real
  {
    var dr, ir, rr := d as real, i as real, R as real;
    var q := ir / rr;
    var lhs := dr * (1.0 - q);
    var rhs := (d * (R - i)) as real / rr;
    assert q * rr == ir;
    assert lhs * rr == dr * rr - dr * (q * rr);
    assert (d * (R - i)) as real == dr * rr - dr * ir;
    assert rhs * rr == (d * (R - i)) as real;
    MulCancel(lhs, rhs, rr);
  }

  lemma MulCancel(x: real, y: real, R: real)
    requires R != 0.0 && x * R == y * R
    ensures x == y
  {
    assert (x - y) * R == 0.0;
  }

  /**
   * The radial shading: one outline of width 3 per radius in
   * `range(main_radius, 0, -2)`, with `main_radius = int(0.35 * size)`. The
   * outermost ring is #9D8BF5, the rings darken toward the centre, and every
   * ring stays between #9D8BF5 and #7B6FE8. `alpha` is 200 in the logo and 220
   * in the adaptive-icon foreground.
   */
  function RadialRings(size: nat, alpha: int): (rings: seq<Ring>)
    ensures var R := Scale(size, 350);
            && |rings| == (R + 1) / 2
            && forall k :: 0 <= k < |rings| ==> rings[k].radius == R - 2 * k && 0 < rings[k].radius
    ensures 0 < |rings| ==> rings[0].color == WithAlpha(Violet, alpha)
    ensures forall k :: 0 <= k < |rings| ==>
              rings[k].color.a == alpha
              && 123 <= rings[k].color.r <= 157
              && 111 <= rings[k].color.g <= 139
              && 232 <= rings[k].color.b <= 245
    ensures forall k1, k2 :: 0 <= k1 <= k2 < |rings| ==>
              && rings[k2].color.r <= rings[k1].color.r
              && rings[k2].color.g <= rings[k1].color.g
              && rings[k2].color.b <= rings[k1].color.b
  {
    var R := Scale(size, 350);
    if R == 0 then []
    else
      var radii := RingRadii(R);
      // the ring of radius `R - 2k` takes the shade of step `2k`
      var shades := Rows(Violet, DeepViolet, R);
      seq(|radii|, k requires 0 <= k < |radii| => Ring(radii[k], WithAlpha(shades[2 * k], alpha), 3))
  }

  /** Each ring's colour is Python's `int(157 - 34 * (1 - i / R))` and so on for the ring's radius `i`. */
  lemma RadialRingsMatchPython(size: nat, alpha: int, k: nat)
    requires k < |RadialRings(size, alpha)|
    ensures var R := Scale(size, 350); var ring := RadialRings(size, alpha)[k];
            ring.color == WithAlpha(PyRingColor(ring.radius, R), alpha)
  {
    var R := Scale(size, 350);
    var i := RadialRings(size, alpha)[k].radius;
    assert RingColor(i, R) == Rows(Violet, DeepViolet, R)[2 * k];
    RingColorMatchesPython(i, R);
  }

  /**
   * The logo (alpha 200) and the adaptive-icon foreground (alpha 220) draw the
   * same rings: same count, radii, widths and colours, only the opacity differs.
   */
  lemma ForegroundRingsMatchLogo(size: nat, k: nat)
    requires k < |RadialRings(size, 200)|
    ensures |RadialRings(size, 220)| == |RadialRings(size, 200)|
    ensures var logo, fg := RadialRings(size, 200)[k], RadialRings(size, 220)[k];
            && fg.radius == logo.radius && fg.width == logo.width
            && fg.color == logo.color.(a := 220) && logo.color.a == 200
  {
  }

  lemma RadialRingsInsideCanvas(size: nat, alpha: int)
    ensures forall k :: 0 <= k < |RadialRings(size, alpha)| ==>
              Inside(CircleBox(Center(size), Center(size), RadialRings(size, alpha)[k].radius), size as real)
  {
    var R := Scale(size, 350);
    assert R * 1000 <= size * 350;
    assert R <= Center(size) && Center(size) + R <= size;
  }

  // ---- infinity mark ----

  /** The two loops of the infinity mark and the bar that joins them. */
  datatype Infinity = Infinity(left: Box, right: Box, bar: Box)

  function InfinityMark(size: nat): (m: Infinity)
    // both loops are circles of diameter `2 * (infinity_size // 2)` centred at `cx -/+ infinity_size // 2`
    ensures var c := Center(size); var h := Scale(size, 150) / 2;
            && m.left == CircleBox(c - h, c, h)
            && m.right == CircleBox(c + h, c, h)
    // the loops are mirror images about `cx`, and so is the bar
    ensures m.left.x0 + m.right.x1 == 2.0 * Center(size) as real
    ensures m.bar.x0 + m.bar.x1 == 2.0 * Center(size) as real
    ensures m.bar.y0 + m.bar.y1 == 2.0 * Center(size) as real
    ensures Width(m.left) == Width(m.right) && Height(m.left) == Height(m.right)
    ensures Inside(m.left, size as real) && Inside(m.right, size as real) && Inside(m.bar, size as real)
  {
    var c := Center(size);
    var h := Scale(size, 150) / 2;
    var t := Scale(size, 25) / 2;
    InfinityFits(size);
    var leftCx := c - h;
    var rightCx := c + h;
    Infinity(
      CircleBox(leftCx, c, h),
      CircleBox(rightCx, c, h),
      IntBox(leftCx + h - t, c - t, rightCx - h + t, c + t))
  }

  /** The loops reach at most `0.15 * size` either side of the centre, and the bar is no thicker than a loop. */
  lemma InfinityFits(size: nat)
    ensures var c := Center(size); var h := Scale(size, 150) / 2; var t := Scale(size, 25) / 2;
            && 0 <= t <= h
            && 2 * h <= Scale(size, 150)
            && 2 * h <= c && c + 2 * h <= size
  {
    var s150, s25 := Scale(size, 150), Scale(size, 25);
    assert s150 * 1000 <= size * 150;
    assert s25 * 1000 <= size * 25 < (s25 + 1) * 1000;
    assert size * 150 < (s150 + 1) * 1000;
  }

  // ---- star ----

  /** A star vertex: its radius and its step `i`, which stands for the angle `pi * i / points - pi / 2`. */
  datatype StarVertex = StarVertex(radius: int, step: nat)

  /**
   * `for i in range(star_points * 2)`: even steps on the outer radius, odd
   * steps on the inner one. Reflection in the vertical axis maps step `i` to
   * step `2 * points - i` (step 0, pointing up, is its own image), so the star
   * is symmetric about that axis when the two steps share a radius.
   */
  function StarPolygon(points: nat, outer: int, inner: int): (vs: seq<StarVertex>)
    ensures |vs| == 2 * points
    // vertex `i` stands for the angle of step `i`
    ensures forall i :: 0 <= i < |vs| ==> vs[i].step == i
    // the star starts with an outer point straight up
    ensures 0 < points ==> vs[0].radius == outer
    // neighbouring vertices take one outer and one inner radius
    ensures forall i :: 0 <= i && i + 1 < |vs| ==> {vs[i].radius, vs[i + 1].radius} == {outer, inner}
    // mirror symmetry about the vertical axis
    ensures forall i :: 0 < i < |vs| ==> vs[|vs| - i].radius == vs[i].radius
  {
    var vs := seq(2 * points, i requires 0 <= i < 2 * points => StarVertex(if i % 2 == 0 then outer else inner, i));
    assert forall i :: 0 < i < |vs| ==> (|vs| - i) % 2 == i % 2;
    vs
  }

  /** The logo's star: 6 points, outer radius `symbol_size // 2`, inner radius half of that. */
  function LogoStar(size: nat): (vs: seq<StarVertex>)
    ensures |vs| == 12
    // the outer radius is half of `symbol_size` and the inner radius half of that
    ensures vs[0].radius == Scale(size, 80) / 2 && vs[1].radius == vs[0].radius / 2
  {
    var outer := Scale(size, 80) / 2;
    StarPolygon(6, outer, outer / 2)
  }

  lemma LogoStarShape()
    ensures |LogoStar(LogoSize)| == 12
    ensures forall i :: 0 <= i < 12 ==> LogoStar(LogoSize)[i].radius == if i % 2 == 0 then 40 else 20
  {
  }

  // ---- sparkles ----

  /** The four sparkle dots at `(cx -/+ d, cy -/+ d)`, `d = int(0.38 * size)`, in the script's order. */
  function Sparkles(size: nat): (dots: seq<Dot>)
    ensures |dots| == 4
    ensures forall i :: 0 <= i < 4 ==> dots[i].radius == Scale(size, 15)
    // one dot on each diagonal corner `(cx -/+ d, cy -/+ d)`, no corner twice
    ensures var c := Center(size); var d := Scale(size, 380);
            && (forall i :: 0 <= i < 4 ==> dots[i].x in {c - d, c + d} && dots[i].y in {c - d, c + d})
            && (0 < d ==> forall i, j :: 0 <= i < j < 4 ==> dots[i].x != dots[j].x || dots[i].y != dots[j].y)
  {
    var c := Center(size);
    var d := Scale(size, 380);
    var s := Scale(size, 15);
    [Dot(c - d, c - d, s), Dot(c + d, c - d, s), Dot(c - d, c + d, s), Dot(c + d, c + d, s)]
  }

  function Abs(x: int): nat { if x < 0 then -x else x }

  /** The sparkles sit on the diagonals, `d` from the centre on both axes, and stay on the canvas. */
  lemma SparklesPlacement(size: nat)
    ensures forall i :: 0 <= i < 4 ==>
              && Abs(Sparkles(size)[i].x - Center(size)) == Scale(size, 380)
              && Abs(Sparkles(size)[i].y - Center(size)) == Scale(size, 380)
    ensures forall i :: 0 <= i < 4 ==> Inside(DotBox(Sparkles(size)[i]), size as real)
  {
    var c, d, r := Center(size), Scale(size, 380), Scale(size, 15);
    assert 0 <= c - d - r && c + d + r <= size;
    forall i | 0 <= i < 4
      ensures Inside(DotBox(Sparkles(size)[i]), size as real)
    {
      var dot := Sparkles(size)[i];
      assert c - d <= dot.x <= c + d && c - d <= dot.y <= c + d;
    }
  }

  // ---- app icon (create_app_icon) ----

  function AppIconRows(size: nat): seq<Rgb> {
    Rows(Violet, DeepViolet, size)
  }

  /** The 1024-row icon background starts at #9D8BF5 and darkens toward #7B6FE8. */
  lemma AppIconGradient(y1: int, y2: int)
    requires 0 <= y1 <= y2 < LogoSize
    ensures AppIconRows(LogoSize)[0] == Rgb(157, 139, 245)
    ensures var rows := AppIconRows(LogoSize);
            && 123 <= rows[y2].r <= rows[y1].r <= 157
            && 111 <= rows[y2].g <= rows[y1].g <= 139
            && 232 <= rows[y2].b <= rows[y1].b <= 245
  {
    var rows := AppIconRows(LogoSize);
    assert Within(rows[y1], Violet, DeepViolet) && Within(rows[y2], Violet, DeepViolet);
    assert Toward(rows[y1], rows[y2], Violet, DeepViolet);
  }

  /** Where the logo lands: resized to a square of side `int(0.85 * size)`, pasted at `int(0.075 * size)`. */
  datatype Placement = Placement(side: int, offset: int)

  function LogoPlacement(size: nat): (p: Placement)
    // the pasted logo lies entirely on the canvas
    ensures 0 <= p.offset && p.offset + p.side <= size
    // the margin after the logo is at least the margin before it, and at most 2 pixels wider
    ensures p.offset <= size - (p.offset + p.side) <= p.offset + 2
  {
    Placement(Scale(size, 850), Scale(size, 75))
  }

  lemma LogoPlacementAt1024()
    ensures LogoPlacement(LogoSize) == Placement(870, 76)
  {
  }
}

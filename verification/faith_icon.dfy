/**
 * The "F C" monogram icons of generate_icon.py: `create_faith_icon` on an
 * indigo-to-purple gradient and `create_foreground_icon` on a transparent
 * canvas. Both draw an F from three bars, a C as a ring whose right side is
 * covered over, and three dots above; they differ in proportions and colours.
 */
module FaithIcon {
  import opened Gradient
  import opened Geometry

  const IconSize: nat := 1024

  /**
   * The proportions of one monogram, in thousandths of `size`. The F and the C
   * use the same inset from the centre, top offset, height and stroke.
   */
  datatype Proportions = Proportions(
    inset: nat,          // f_left = cx - int(inset * size), c_right = cx + int(inset * size)
    rise: nat,           // f_top = c_top = cy - int(rise * size)
    fWidth: nat,
    height: nat,         // f_height = c_height
    stroke: nat,         // thickness = c_thickness
    coverHalf: nat,      // cover_width
    dotRadius: nat,
    dotRise: nat,        // dot_y = cy - int(dotRise * size)
    dotStep: nat,        // distance between neighbouring dots
    truncateMiddle: bool) // the middle bar's right end is `int(f_width * 0.8)` rather than `f_width * 0.8`

  const MainProportions: Proportions := Proportions(220, 250, 150, 500, 60, 100, 25, 380, 100, false)
  const ForegroundProportions: Proportions := Proportions(180, 200, 120, 400, 50, 80, 20, 320, 80, true)

  datatype Monogram = Monogram(
    stem: Box,
    topBar: Box,
    middleBar: Box,
    cCenterX: int,
    cCenterY: int,
    cRadius: int,
    cRing: Box,
    cStroke: int,
    cover: Box,
    dots: seq<Dot>)

  /** `for i in range(-1, 2)`: three dots at `cx + i * step` on one row. */
  function ThreeDots(cx: int, y: int, step: int, radius: int): (dots: seq<Dot>)
    ensures |dots| == 3
    // the middle dot is on the centre column and the outer two mirror each other about it
    ensures dots[1].x == cx && dots[0].x + dots[2].x == 2 * cx
    // neighbouring dots are `step` apart
    ensures dots[1].x - dots[0].x == step && dots[2].x - dots[1].x == step
    // all three share the row and the radius
    ensures forall k :: 0 <= k < 3 ==> dots[k].y == y && dots[k].radius == radius
  {
    seq(3, k requires 0 <= k < 3 => Dot(cx + (k - 1) * step, y, radius))
  }

  function MonogramLayout(size: nat, p: Proportions): (m: Monogram)
    // the three F bars share the left edge `f_left`
    ensures m.stem.x0 == m.topBar.x0 == m.middleBar.x0
    // the middle bar starts `f_height // 3` below the top and is one stroke high, like the top bar
    ensures m.middleBar.y0 == m.stem.y0 + (Scale(size, p.height) / 3) as real
    ensures Height(m.middleBar) == Height(m.topBar) == Width(m.stem) == Scale(size, p.stroke) as real
    // the C is a circle of radius `c_height // 2` whose right extent is `c_right` and whose top is `c_top`
    ensures m.cRadius == Scale(size, p.height) / 2
    ensures m.cRing == CircleBox(m.cCenterX, m.cCenterY, m.cRadius)
    ensures m.cRing.x1 == (size / 2 + Scale(size, p.inset)) as real
    ensures m.cRing.y0 == m.stem.y0 == (size / 2 - Scale(size, p.rise)) as real
    // the F's left edge and the C's right extent mirror each other about `cx`
    ensures m.stem.x0 + m.cRing.x1 == 2.0 * (size / 2) as real
    // the cover sits across the C's right extent, spanning the ring's whole right stroke
    // (Pillow draws an outline inward from the box), centred on the C's middle row
    ensures m.cover.x0 == m.cRing.x1 - m.cStroke as real && m.cover.x1 == m.cRing.x1 + m.cStroke as real
    ensures m.cover.y0 + m.cover.y1 == 2.0 * m.cCenterY as real
    // three dots on one row, spaced `int(dotStep * size)` about `cx`
    ensures m.dots == ThreeDots(size / 2, size / 2 - Scale(size, p.dotRise), Scale(size, p.dotStep), Scale(size, p.dotRadius))
  {
    var c := size / 2;
    var fLeft := c - Scale(size, p.inset);
    var fTop := c - Scale(size, p.rise);
    var fWidth := Scale(size, p.fWidth);
    var fHeight := Scale(size, p.height);
    var thickness := Scale(size, p.stroke);
    var middleRight := if p.truncateMiddle then (fLeft + (fWidth * 8) / 10) as real
                       else fLeft as real + fWidth as real * 0.8;
    var cRight := c + Scale(size, p.inset);
    var cRadius := fHeight / 2;
    var cCx := cRight - cRadius;
    var cCy := fTop + cRadius;
    var coverWidth := Scale(size, p.coverHalf);
    Monogram(
      IntBox(fLeft, fTop, fLeft + thickness, fTop + fHeight),
      IntBox(fLeft, fTop, fLeft + fWidth, fTop + thickness),
      Box(fLeft as real, (fTop + fHeight / 3) as real, middleRight, (fTop + fHeight / 3 + thickness) as real),
      cCx, cCy, cRadius,
      CircleBox(cCx, cCy, cRadius),
      thickness,
      IntBox(cCx + cRadius - thickness, cCy - coverWidth, cCx + cRadius + thickness, cCy + coverWidth),
      ThreeDots(c, c - Scale(size, p.dotRise), Scale(size, p.dotStep), Scale(size, p.dotRadius)))
  }

  // ---- create_faith_icon ----

  datatype MainIcon = MainIcon(
    fill: Rgb,              // the colour the canvas is created with
    rows: seq<Rgb>,         // the gradient painted over it, row by row
    letters: Monogram,
    coverColor: Rgb,
    halo: Box,              // the circle around the logo
    arc: Box)               // the bounding box of the arc at the bottom

  function CreateFaithIcon(): (icon: MainIcon)
    // the gradient covers every row and its first row repaints the canvas colour unchanged
    ensures |icon.rows| == IconSize && icon.rows[0] == icon.fill
    // the halo and the bottom arc are centred on the middle column; the halo lies on the canvas
    ensures icon.halo.x0 + icon.halo.x1 == IconSize as real && icon.arc.x0 + icon.arc.x1 == IconSize as real
    ensures Inside(icon.halo, IconSize as real)
  {
    var size := IconSize;
    var c := size / 2;
    MainScales();
    var arcY := c + Scale(size, 350);
    MainIcon(
      Indigo,
      Rows(Indigo, Purple, size),
      MonogramLayout(size, MainProportions),
      // the gradient colour halfway down: `int(99 + (139 - 99) * 0.5)` and so on
      Rgb(PyInt(99.0 + (139 - 99) as real * 0.5), PyInt(102.0 + (92 - 102) as real * 0.5),
          PyInt(241.0 + (246 - 241) as real * 0.5)),
      CircleBox(c, c, Scale(size, 420)),
      CircleBox(c, arcY, Scale(size, 250)))
  }

  /**
   * The gradient starts at the canvas fill #6366F1; red and blue rise toward
   * #8B5CF6 while green falls, each staying within its endpoints.
   */
  lemma FaithGradient(y1: int, y2: int)
    requires 0 <= y1 <= y2 < IconSize
    ensures CreateFaithIcon().rows[0] == CreateFaithIcon().fill == Rgb(99, 102, 241)
    ensures var rows := CreateFaithIcon().rows;
            && 99 <= rows[y1].r <= rows[y2].r <= 139
            && 92 <= rows[y2].g <= rows[y1].g <= 102
            && 241 <= rows[y1].b <= rows[y2].b <= 246
  {
    var rows := CreateFaithIcon().rows;
    assert Within(rows[y1], Indigo, Purple) && Within(rows[y2], Indigo, Purple);
    assert Toward(rows[y1], rows[y2], Indigo, Purple);
  }

  /**
   * At 1024 pixels the C's centre row is the canvas's middle row, and the
   * colour covering the C's opening is exactly the gradient colour of that row.
   */
  lemma CoverMatchesGradient()
    ensures var icon := CreateFaithIcon();
            && icon.letters.cCenterY == IconSize / 2
            && icon.coverColor == icon.rows[icon.letters.cCenterY]
  {
    var icon := CreateFaithIcon();
    MainScales();
    assert icon.letters.cCenterY == 512;
    assert PyInt(119.0) == 119 && PyInt(97.0) == 97 && PyInt(243.5) == 243;
    assert icon.coverColor == Rgb(119, 97, 243);
    assert Channel(99, 139, 512, 1024) == 119 && Channel(102, 92, 512, 1024) == 97 && Channel(241, 246, 512, 1024) == 243;
    assert icon.rows[512] == RowColor(Indigo, Purple, 512, IconSize);
  }

  /** The F is drawn inside the C's bounding box, so the two letters share space. */
  lemma MainLettersShareBox()
    ensures var m := CreateFaithIcon().letters;
            && m.cRing.x0 < m.stem.x0 && m.topBar.x1 < m.cRing.x1
            && m.cRing.y0 <= m.stem.y0 && m.stem.y1 <= m.cRing.y1
            && m.cRing.x0 < m.middleBar.x0 && m.middleBar.x1 < m.cRing.x1
            && m.cRing.y0 <= m.middleBar.y0 && m.middleBar.y1 <= m.cRing.y1
  {
    MainScales();
  }

  /** The main monogram's measures at 1024 pixels. */
  lemma MainScales()
    ensures Scale(IconSize, 220) == 225 && Scale(IconSize, 250) == 256 && Scale(IconSize, 150) == 153
    ensures Scale(IconSize, 500) == 512 && Scale(IconSize, 60) == 61 && Scale(IconSize, 100) == 102
    ensures Scale(IconSize, 380) == 389 && Scale(IconSize, 25) == 25
    ensures Scale(IconSize, 420) == 430 && Scale(IconSize, 350) == 358
  {
  }

  /**
   * The bottom arc's bounding circle reaches below the canvas. The model keeps
   * only the arc's box; its `start=0, end=180` angles, which in Pillow select
   * the lower semicircle, are not modelled.
   */
  lemma BottomArcLeavesCanvas()
    ensures var icon := CreateFaithIcon();
            icon.arc.y0 < IconSize as real < icon.arc.y1
  {
  }

  // ---- create_foreground_icon ----

  datatype ForegroundIcon = ForegroundIcon(fill: Rgba, letters: Monogram, coverColor: Rgba)

  function CreateForegroundIcon(): (icon: ForegroundIcon)
    // the canvas starts fully transparent
    ensures icon.fill.a == 0
    // the cover spans the C's right stroke on a band around its middle row and paints the
    // canvas colour there, so the C's opening shows whatever lies behind the icon
    ensures var m := icon.letters;
            && m.cover.x0 <= m.cRing.x1 - m.cStroke as real && m.cRing.x1 <= m.cover.x1
            && m.cover.y0 < m.cCenterY as real < m.cover.y1
            && icon.coverColor == icon.fill
  {
    ForegroundIcon(Transparent, MonogramLayout(IconSize, ForegroundProportions), Transparent)
  }

  /** The three dots: spacing `int(0.1 * size)` in the main icon and `int(0.08 * size)` in the foreground. */
  lemma DotSpacing()
    ensures var main := CreateFaithIcon().letters.dots;
            && main[1].x - main[0].x == main[2].x - main[1].x == 102
            && main[0].y == main[1].y == main[2].y
            && main[0].radius == main[1].radius == main[2].radius
    ensures var fg := CreateForegroundIcon().letters.dots;
            && fg[1].x - fg[0].x == fg[2].x - fg[1].x == 81
            && fg[0].y == fg[1].y == fg[2].y
            && fg[0].radius == fg[1].radius == fg[2].radius
  {
  }
}

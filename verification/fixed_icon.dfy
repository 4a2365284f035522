/**
 * generate_icon_fixed.py: the "F C" icon with the letters spaced apart.
 * `create_icon(size)` and `create_foreground_icon(size)` compute the same
 * letter and dot layout from `size`, with fractional coordinates; the first
 * paints it white over an indigo-to-purple gradient, the second over a
 * transparent canvas.
 *
 * The layout is modelled over the reals, as the exact values of the script's
 * floating-point expressions.
 */
module FixedIcon {
  import opened Gradient
  import opened Geometry

  /** The quantities both functions derive from `size`. */
  datatype Layout = Layout(
    letterWidth: real,
    letterHeight: real,
    gap: real,
    totalWidth: real,
    startX: real,
    startY: real,
    stroke: int,      // int(size * 0.08)
    dotSize: int,     // int(size * 0.06), the dot radius
    dotY: real,
    dotSpacing: real,
    dotCenterX: real)

  function LetterLayout(size: nat): (l: Layout)
    // the truncated stroke and dot radius never exceed their exact fractions of `size`
    ensures 0 <= l.stroke && l.stroke as real <= size as real * 0.08
    ensures 0 <= l.dotSize && l.dotSize as real <= size as real * 0.06
    // the letter group's centre is the canvas centre
    ensures l.startX + l.totalWidth / 2.0 == size as real / 2.0
    ensures l.startY + l.letterHeight / 2.0 == size as real / 2.0
    // the dots are centred on the middle column
    ensures l.dotCenterX == size as real / 2.0
  {
    var s := size as real;
    var letterWidth := s * 0.35;
    var letterHeight := s * 0.5;
    var gap := s * 0.08;
    var totalWidth := letterWidth * 2.0 + gap;
    Layout(letterWidth, letterHeight, gap, totalWidth,
           (s - totalWidth) / 2.0, (s - letterHeight) / 2.0,
           PyInt(s * 0.08), PyInt(s * 0.06),
           s * 0.82, s * 0.15, s / 2.0)
  }

  datatype Shape =
    | Rect(box: Box)
    | Arc(box: Box, start: int, end: int, width: int)
    | Ellipse(box: Box)

  function ShapeBox(sh: Shape): Box {
    match sh
    case Rect(b) => b
    case Arc(b, _, _, _) => b
    case Ellipse(b) => b
  }

  /** The F's vertical stroke, top bar and middle bar, left to right from `start_x`. */
  function FBars(l: Layout): seq<Box> {
    var fx := l.startX;
    var fy := l.startY;
    var w := l.stroke as real;
    [Box(fx, fy, fx + w, fy + l.letterHeight),
     Box(fx, fy, fx + l.letterWidth, fy + w),
     Box(fx, fy + l.letterHeight * 0.4, fx + l.letterWidth * 0.7, fy + l.letterHeight * 0.4 + w)]
  }

  /** The C: an arc from 45 to 315 degrees in the box one letter width and one gap right of the F. */
  function CBox(l: Layout): Box {
    var cx := l.startX + l.letterWidth + l.gap;
    Box(cx, l.startY, cx + l.letterWidth, l.startY + l.letterHeight)
  }

  /** The three dots at `size / 2 + i * dot_spacing` for `i` in `[-1, 0, 1]`. */
  function DotBoxes(l: Layout): seq<Box> {
    var r := l.dotSize as real;
    seq(3, k requires 0 <= k < 3 =>
          var x := l.dotCenterX + (k - 1) as real * l.dotSpacing;
          Box(x - r, l.dotY - r, x + r, l.dotY + r))
  }

  /** Everything drawn on top of the background, in drawing order. */
  function Shapes(size: nat): (shapes: seq<Shape>)
    ensures |shapes| == 7
    // the F is three rectangles and the dots three ellipses of one size
    ensures forall i :: 0 <= i < 3 ==> shapes[i].Rect?
    ensures forall i :: 4 <= i < 7 ==> shapes[i].Ellipse? && Width(ShapeBox(shapes[i])) == Width(ShapeBox(shapes[4]))
    // the C is an arc of 270 degrees whose 90-degree opening is centred on 3 o'clock
    ensures shapes[3].Arc? && shapes[3].end - shapes[3].start == 270 && shapes[3].start + shapes[3].end == 360
    // the C's stroke is as thick as the F's top bar
    ensures shapes[3].width as real == Height(ShapeBox(shapes[1]))
  {
    var l := LetterLayout(size);
    var f := FBars(l);
    var d := DotBoxes(l);
    [Rect(f[0]), Rect(f[1]), Rect(f[2]), Arc(CBox(l), 45, 315, l.stroke),
     Ellipse(d[0]), Ellipse(d[1]), Ellipse(d[2])]
  }

  datatype Mode = RGB | RGBA

  /** A canvas, the gradient rows painted over it, and the shapes drawn in one ink. */
  datatype Scene = Scene(mode: Mode, background: Rgba, rows: seq<Rgb>, shapes: seq<Shape>, ink: Rgba)

  const White: Rgba := Rgba(255, 255, 255, 255)

  /** `create_icon`: a white RGB canvas, the gradient row by row, then the letters and dots in white. */
  function CreateIcon(size: nat): (s: Scene)
    // an opaque canvas fully covered by the gradient, which starts at #6366F1 and stays between the endpoints
    ensures s.mode == RGB && s.background.a == 255 && |s.rows| == size
    ensures 0 < size ==> s.rows[0] == Indigo
    ensures forall y :: 0 <= y < size ==> Within(s.rows[y], Indigo, Purple)
    ensures s.ink == White
  {
    Scene(RGB, White, Rows(Indigo, Purple, size), Shapes(size), White)
  }

  /** `create_foreground_icon`: a transparent RGBA canvas with the same shapes in opaque white. */
  function CreateForegroundIcon(size: nat): (s: Scene)
    // a fully transparent canvas with no gradient; the shapes are opaque
    ensures s.mode == RGBA && s.background.a == 0 && s.rows == [] && s.ink.a == 255
    // the same letters and dots as the main icon, in the same ink, all on the canvas
    ensures s.shapes == CreateIcon(size).shapes && s.ink == CreateIcon(size).ink
    ensures forall i :: 0 <= i < |s.shapes| ==> Inside(ShapeBox(s.shapes[i]), size as real)
  {
    ShapesInside(size);
    Scene(RGBA, Transparent, [], Shapes(size), White)
  }

  // ---- properties ----

  /** The gradient starts at #6366F1 and every channel stays within its endpoints on every row. */
  lemma FixedGradient(size: nat, y: int)
    requires 0 <= y < size
    ensures CreateIcon(size).rows[0] == Rgb(99, 102, 241)
    ensures var c := CreateIcon(size).rows[y];
            99 <= c.r <= 139 && 92 <= c.g <= 102 && 241 <= c.b <= 246
  {
    assert Within(CreateIcon(size).rows[y], Indigo, Purple);
  }

  /** The letter group is centred horizontally and fits within the canvas. */
  lemma LettersCentredHorizontally(size: nat)
    requires 0 < size
    ensures var l := LetterLayout(size);
            && l.startX == size as real - (l.startX + l.totalWidth)
            && 0.0 < l.startX
            && l.totalWidth < size as real
  {
  }

  /** The letters occupy the rows from a quarter to three quarters of the canvas. */
  lemma LettersCentredVertically(size: nat)
    ensures var l := LetterLayout(size);
            && l.startY == size as real - (l.startY + l.letterHeight)
            && l.startY == 0.25 * size as real
            && l.startY + l.letterHeight == 0.75 * size as real
  {
  }

  /**
   * No F/C overlap: every F bar ends at or before `f_x + letter_width`, and the
   * C's box starts exactly one positive `gap` further right.
   */
  lemma NoLetterOverlap(size: nat)
    requires 0 < size
    ensures var l := LetterLayout(size);
            && 0.0 < l.gap
            && CBox(l).x0 == l.startX + l.letterWidth + l.gap
            && forall i :: 0 <= i < 3 ==>
                 FBars(l)[i].x1 <= l.startX + l.letterWidth && Disjoint(FBars(l)[i], CBox(l))
  {
    var l := LetterLayout(size);
    var s := size as real;
    assert l.stroke as real <= s * 0.08;
  }

  /**
   * For every size the dots sit strictly below the letters: the top of each dot,
   * `0.82 * size - int(0.06 * size)`, lies below `0.75 * size`, the letters' bottom.
   */
  lemma DotsBelowLetters(size: nat)
    requires 0 < size
    ensures var l := LetterLayout(size);
            forall k :: 0 <= k < 3 ==>
              && DotBoxes(l)[k].y0 == l.dotY - l.dotSize as real
              && l.startY + l.letterHeight < DotBoxes(l)[k].y0
              && forall i :: 0 <= i < 3 ==> FBars(l)[i].y1 < DotBoxes(l)[k].y0
    ensures CBox(LetterLayout(size)).y1 < DotBoxes(LetterLayout(size))[0].y0
  {
    var l := LetterLayout(size);
    var s := size as real;
    assert l.dotSize as real <= s * 0.06;
    assert l.stroke as real <= s * 0.08;
  }

  /** The three dots are spaced `0.15 * size` apart, symmetric about the middle column, and on the canvas. */
  lemma DotsSymmetricAndInside(size: nat)
    ensures var d := DotBoxes(LetterLayout(size));
            var s := size as real;
            && d[1].x0 + d[1].x1 == s
            && d[0].x0 + d[2].x1 == s
            && d[1].x0 - d[0].x0 == d[2].x0 - d[1].x0 == 0.15 * s
            && d[0].y0 == d[1].y0 == d[2].y0
            && forall k :: 0 <= k < 3 ==> Inside(d[k], s)
  {
    var l := LetterLayout(size);
    var s := size as real;
    assert 0.0 <= l.dotSize as real <= s * 0.06;
  }

  /** Every shape of either icon lies within the canvas. */
  lemma ShapesInside(size: nat)
    ensures forall i :: 0 <= i < |Shapes(size)| ==> Inside(ShapeBox(Shapes(size)[i]), size as real)
  {
    var l := LetterLayout(size);
    var s := size as real;
    assert 0.0 <= l.dotSize as real <= s * 0.06;
    assert 0.0 <= l.stroke as real <= s * 0.08;
    DotsSymmetricAndInside(size);
  }

  /**
   * The foreground icon draws exactly the icon's shapes in the same ink; only
   * the canvas (transparent RGBA instead of white RGB) and the missing gradient
   * differ. Both scene builders share `Shapes(size)`: the two script functions
   * repeat the same letter and dot formulas line for line (generate_icon_fixed.py
   * 25-80 and 92-142), and modelling them by one builder is what makes this hold
   * by construction.
   */
  lemma ForegroundMatchesIcon(size: nat)
    ensures CreateForegroundIcon(size).shapes == CreateIcon(size).shapes
    ensures CreateForegroundIcon(size).ink == CreateIcon(size).ink
    ensures CreateForegroundIcon(size).background == Transparent && CreateIcon(size).background == White
    ensures CreateForegroundIcon(size).rows == [] && |CreateIcon(size).rows| == size
  {
  }
}

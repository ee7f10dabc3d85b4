/** The app icon set: a column of seven rounded vertebrae shaded from a light
    accent to the main teal, flanked by two triples of motion arcs, on a dark
    background with an optional ring. */
module AppIcons {
  import opened Drawing

  const DarkBg := Rgb(15, 23, 42)
  const Teal := Rgb(20, 184, 166)
  const TealLight := Rgb(94, 234, 212)

  const VertebraeCount := 7

  function Abs(x: int): nat {
    if x < 0 then -x else x
  }

  function Max(a: int, b: int): int {
    if a <= b then b else a
  }

  // ---------------------------------------------------------------------------
  // The vertebra stack
  // ---------------------------------------------------------------------------

  function VertebraHeight(scale: real): int {
    Truncate(22.0 * scale)
  }

  function Gap(scale: real): int {
    Truncate(8.0 * scale)
  }

  function WidthBase(scale: real): int {
    Truncate(60.0 * scale)
  }

  function TotalHeight(scale: real): int {
    VertebraeCount * (VertebraHeight(scale) + Gap(scale)) - Gap(scale)
  }

  function StartY(cy: int, scale: real): int {
    cy - TotalHeight(scale) / 2
  }

  function VertebraTop(cy: int, scale: real, i: int): int {
    StartY(cy, scale) + i * (VertebraHeight(scale) + Gap(scale))
  }

  /** Position of vertebra `i` along the stack, from 0 at the top to 1 at the
      bottom. */
  function T(i: int): real {
    i as real / (VertebraeCount - 1) as real
  }

  /** Vertebrae narrow by 8% per step away from the middle one. */
  function WidthFactor(i: int): real {
    1.0 - Abs(i - VertebraeCount / 2) as real * 0.08
  }

  function VertebraWidth(scale: real, i: int): int {
    Truncate(Fraction(WidthBase(scale), WidthFactor(i)))
  }

  /** `int(math.sin(t * math.pi * 1.2 - 0.3) * 40 * scale)`, where `wave(i)`
      stands for the sine's value at vertebra `i`. */
  function XOffset(wave: int -> real, scale: real, i: int): int {
    Truncate(wave(i) * 40.0 * scale)
  }

  /** `n * f`: a whole number of units scaled by a factor. Products of two
      variable quantities are named so that each truncation applies to one
      term. */
  function Fraction(n: int, f: real): real {
    n as real * f
  }

  /** `a + d * t`: the point a fraction `t` of the way from `a` to `a + d`. */
  function Mix(a: int, d: int, t: real): real {
    a as real + d as real * t
  }

  /** `int(a + d * t)`. */
  function Blend(a: int, d: int, t: real): int {
    Truncate(Mix(a, d, t))
  }

  /** One channel of vertebra `i`: `int(accent + (main - accent) * t)`. */
  function Lerp(accent: int, main: int, i: int): int {
    Blend(accent, main - accent, T(i))
  }

  function VertebraColor(main: Color, accent: Color, i: int): Color {
    Rgb(Lerp(accent.r, main.r, i), Lerp(accent.g, main.g, i), Lerp(accent.b, main.b, i))
  }

  function Vertebra(cx: int, cy: int, scale: real, main: Color, accent: Color, wave: int -> real, i: int): Shape {
    var w := VertebraWidth(scale, i);
    var h := VertebraHeight(scale);
    var x := cx + XOffset(wave, scale, i) - w / 2;
    var y := VertebraTop(cy, scale, i);
    RoundedRect(Box(x, y, x + w, y + h), Truncate(h as real * 0.4), VertebraColor(main, accent, i))
  }

  function Vertebrae(cx: int, cy: int, scale: real, main: Color, accent: Color, wave: int -> real): (s: seq<Shape>)
    ensures |s| == VertebraeCount
  {
    seq(VertebraeCount, i requires 0 <= i < VertebraeCount => Vertebra(cx, cy, scale, main, accent, wave, i))
  }

  /** Each channel of the gradient starts exactly at the accent, ends exactly
      at the main colour and never leaves the range between the two. */
  lemma LerpBetween(accent: int, main: int, i: int)
    requires 0 <= i <= VertebraeCount - 1
    ensures Min(accent, main) <= Lerp(accent, main, i) <= Max(accent, main)
    ensures i == 0 ==> Lerp(accent, main, i) == accent
    ensures i == VertebraeCount - 1 ==> Lerp(accent, main, i) == main
  {
    assert 0.0 <= T(i) <= 1.0;
    assert i == 0 ==> T(i) == 0.0;
    assert i == VertebraeCount - 1 ==> T(i) == 1.0;
    BlendBetween(accent, main - accent, T(i));
    BlendEnds(accent, main - accent);
  }

  /** int(a + d * t) lies between a and a + d when t is a fraction. */
  lemma BlendBetween(a: int, d: int, t: real)
    requires 0.0 <= t <= 1.0
    ensures 0 <= d ==> a <= Blend(a, d, t) <= a + d
    ensures d < 0 ==> a + d <= Blend(a, d, t) <= a
  {
    MixBetween(a, d, t);
    if 0 <= d {
      TruncateAtLeast(Mix(a, d, t), a);
      TruncateAtMost(Mix(a, d, t), a + d);
    } else {
      TruncateAtLeast(Mix(a, d, t), a + d);
      TruncateAtMost(Mix(a, d, t), a);
    }
  }

  lemma MixBetween(a: int, d: int, t: real)
    requires 0.0 <= t <= 1.0
    ensures 0 <= d ==> a as real <= Mix(a, d, t) <= (a + d) as real
    ensures d < 0 ==> (a + d) as real <= Mix(a, d, t) <= a as real
  {
    ProductBetween(d as real, t);
  }

  /** int(a + d * t) is exactly a at t = 0 and exactly a + d at t = 1. */
  lemma BlendEnds(a: int, d: int)
    ensures Blend(a, d, 0.0) == a
    ensures Blend(a, d, 1.0) == a + d
  {
    assert Mix(a, d, 0.0) == a as real;
    assert Mix(a, d, 1.0) == (a + d) as real;
  }

  /** A fraction of `d` lies between 0 and `d`. */
  lemma ProductBetween(d: real, t: real)
    requires 0.0 <= t <= 1.0
    ensures 0.0 <= d ==> 0.0 <= d * t <= d
    ensures d <= 0.0 ==> d <= d * t <= 0.0
  {
    if 0.0 <= d {
      ProductMonotone(d, 0.0, t);
      ProductMonotone(d, t, 1.0);
    } else {
      ProductAntitone(d, 0.0, t);
      ProductAntitone(d, t, 1.0);
    }
  }

  /** When the two channels are close, an inner vertebra can keep the accent's
      value exactly: int(20 + 1 * 1/6) is 20. */
  lemma GradientMayRepeatEndpoint()
    ensures Lerp(20, 21, 1) == 20
  {
    assert Mix(20, 1, T(1)) == 20.0 + 1.0 / 6.0;
  }

  /** Down the stack each channel moves steadily from the accent towards the
      main colour. */
  lemma LerpMonotone(accent: int, main: int, i: int, j: int)
    requires 0 <= i <= j <= VertebraeCount - 1
    ensures accent <= main ==> Lerp(accent, main, i) <= Lerp(accent, main, j)
    ensures main <= accent ==> Lerp(accent, main, j) <= Lerp(accent, main, i)
  {
    assert T(i) <= T(j);
    BlendMonotone(accent, main - accent, T(i), T(j));
  }

  /** int(a + d * t) moves with t when d is positive and against it when d is
      negative. */
  lemma BlendMonotone(a: int, d: int, s: real, t: real)
    requires s <= t
    ensures 0 <= d ==> Blend(a, d, s) <= Blend(a, d, t)
    ensures d <= 0 ==> Blend(a, d, t) <= Blend(a, d, s)
  {
    MixMonotone(a, d, s, t);
    if 0 <= d {
      TruncateMonotone(Mix(a, d, s), Mix(a, d, t));
    } else {
      TruncateMonotone(Mix(a, d, t), Mix(a, d, s));
    }
  }

  lemma MixMonotone(a: int, d: int, s: real, t: real)
    requires s <= t
    ensures 0 <= d ==> Mix(a, d, s) <= Mix(a, d, t)
    ensures d <= 0 ==> Mix(a, d, t) <= Mix(a, d, s)
  {
    if 0 <= d {
      ProductMonotone(d as real, s, t);
    } else {
      ProductAntitone(d as real, s, t);
    }
  }

  lemma ProductMonotone(d: real, s: real, t: real)
    requires 0.0 <= d && s <= t
    ensures d * s <= d * t
  {
    assert d * t - d * s == d * (t - s);
  }

  lemma ProductAntitone(d: real, s: real, t: real)
    requires d <= 0.0 && s <= t
    ensures d * t <= d * s
  {
    assert d * s - d * t == (-d) * (t - s);
  }

  /** The top vertebra has the accent colour, the bottom one the main colour,
      and every vertebra in between is a valid colour. */
  lemma VertebraGradient(main: Color, accent: Color)
    requires ValidColor(main) && ValidColor(accent)
    ensures VertebraColor(main, accent, 0) == Rgb(accent.r, accent.g, accent.b)
    ensures VertebraColor(main, accent, VertebraeCount - 1) == Rgb(main.r, main.g, main.b)
    ensures forall i :: 0 <= i < VertebraeCount ==> ValidColor(VertebraColor(main, accent, i))
  {
    forall i | 0 <= i < VertebraeCount
      ensures ValidColor(VertebraColor(main, accent, i))
      ensures i == 0 ==> VertebraColor(main, accent, i) == Rgb(accent.r, accent.g, accent.b)
      ensures i == VertebraeCount - 1 ==> VertebraColor(main, accent, i) == Rgb(main.r, main.g, main.b)
    {
      LerpBetween(accent.r, main.r, i);
      LerpBetween(accent.g, main.g, i);
      LerpBetween(accent.b, main.b, i);
    }
  }

  /** Widths are symmetric about the middle vertebra, which alone takes the
      full base width, and shrink with each step away from it. */
  lemma WidthProfile(scale: real, i: int)
    requires 0.0 <= scale
    requires 0 <= i < VertebraeCount
    ensures VertebraWidth(scale, i) == VertebraWidth(scale, VertebraeCount - 1 - i)
    ensures VertebraWidth(scale, VertebraeCount / 2) == WidthBase(scale)
    ensures 0 <= VertebraWidth(scale, i) <= WidthBase(scale)
    ensures VertebraeCount / 2 <= i < VertebraeCount - 1 ==> VertebraWidth(scale, i + 1) <= VertebraWidth(scale, i)
  {
    assert WidthFactor(i) == WidthFactor(VertebraeCount - 1 - i);
    WidthPeak(scale);
    WidthBounded(scale, i);
    if VertebraeCount / 2 <= i < VertebraeCount - 1 {
      WidthNarrowing(scale, i);
    }
  }

  lemma WidthPeak(scale: real)
    ensures VertebraWidth(scale, VertebraeCount / 2) == WidthBase(scale)
  {
    assert WidthFactor(VertebraeCount / 2) == 1.0;
    assert Fraction(WidthBase(scale), 1.0) == WidthBase(scale) as real;
  }

  lemma WidthBounded(scale: real, i: int)
    requires 0.0 <= scale
    requires 0 <= i < VertebraeCount
    ensures 0 <= VertebraWidth(scale, i) <= WidthBase(scale)
  {
    assert 0 <= WidthBase(scale);
    assert 0.0 <= WidthFactor(i) <= 1.0;
    FractionBetween(WidthBase(scale), WidthFactor(i));
    TruncateAtLeast(Fraction(WidthBase(scale), WidthFactor(i)), 0);
    TruncateAtMost(Fraction(WidthBase(scale), WidthFactor(i)), WidthBase(scale));
  }

  lemma WidthNarrowing(scale: real, i: int)
    requires 0.0 <= scale
    requires VertebraeCount / 2 <= i < VertebraeCount - 1
    ensures VertebraWidth(scale, i + 1) <= VertebraWidth(scale, i)
  {
    assert 0 <= WidthBase(scale);
    assert WidthFactor(i + 1) <= WidthFactor(i);
    FractionGrowsWithFactor(WidthBase(scale), WidthFactor(i + 1), WidthFactor(i));
    TruncateMonotone(Fraction(WidthBase(scale), WidthFactor(i + 1)), Fraction(WidthBase(scale), WidthFactor(i)));
  }

  /** n * f for a fraction f is between 0 and n. */
  lemma FractionBetween(n: int, f: real)
    requires 0 <= n && 0.0 <= f <= 1.0
    ensures 0.0 <= Fraction(n, f) <= n as real
  {
    ProductBetween(n as real, f);
  }

  lemma FractionGrowsWithFactor(n: int, f: real, g: real)
    requires 0 <= n && f <= g
    ensures Fraction(n, f) <= Fraction(n, g)
  {
    ProductMonotone(n as real, f, g);
  }

  lemma FractionGrowsWithCount(m: int, n: int, f: real)
    requires m <= n && 0.0 <= f
    ensures Fraction(m, f) <= Fraction(n, f)
  {
    assert Fraction(n, f) - Fraction(m, f) == (n - m) as real * f;
  }

  /** The vertebrae as drawn: each has the common height and corner radius,
      sits centred (to the pixel) on the S-curve at cx plus its offset, the gap
      between neighbours is exactly `gap`, and the stack spans `total_height`
      centred on cy to within one pixel. */
  lemma StackLayout(cx: int, cy: int, scale: real, main: Color, accent: Color, wave: int -> real)
    requires 0.0 <= scale
    ensures var vs := Vertebrae(cx, cy, scale, main, accent, wave);
      && (forall i :: 0 <= i < VertebraeCount ==>
            && vs[i].RoundedRect?
            && vs[i].box.bottom - vs[i].box.top == VertebraHeight(scale)
            && vs[i].radius == Truncate(VertebraHeight(scale) as real * 0.4)
            && vs[i].box.right - vs[i].box.left == VertebraWidth(scale, i)
            && 0 <= vs[i].box.left + vs[i].box.right - 2 * (cx + XOffset(wave, scale, i)) <= 1)
      && (forall i :: 0 <= i < VertebraeCount - 1 ==> vs[i + 1].box.top - vs[i].box.bottom == Gap(scale))
      && vs[0].box.top == StartY(cy, scale)
      && vs[VertebraeCount - 1].box.bottom - vs[0].box.top == TotalHeight(scale)
      && 0 <= (vs[VertebraeCount - 1].box.bottom - cy) - (cy - vs[0].box.top) <= 1
  {
    var vs := Vertebrae(cx, cy, scale, main, accent, wave);
    var h, gap := VertebraHeight(scale), Gap(scale);
    forall i | 0 <= i < VertebraeCount
      ensures 0 <= vs[i].box.left + vs[i].box.right - 2 * (cx + XOffset(wave, scale, i)) <= 1
    {
      WidthProfile(scale, i);
    }
    forall i | 0 <= i < VertebraeCount - 1
      ensures vs[i + 1].box.top - vs[i].box.bottom == gap
    {
      assert (i + 1) * (h + gap) == i * (h + gap) + (h + gap);
    }
    assert 6 * (h + gap) == VertebraeCount * (h + gap) - (h + gap);
    assert 0 <= TotalHeight(scale);
  }

  // ---------------------------------------------------------------------------
  // The motion arcs
  // ---------------------------------------------------------------------------

  /** (side, start angle, end angle): left of centre, then right. */
  const Sides: seq<(int, int, int)> := [(-1, 140, 220), (1, -40, 40)]

  /** Arc radii on the 1024-unit grid, outermost first. */
  const ArcSizes: seq<int> := [140, 110, 80]

  function ArcCenterX(cx: int, scale: real, side: int): int {
    cx + side * Truncate(100.0 * scale)
  }

  function ArcRadius(scale: real, j: nat): int
    requires j < |ArcSizes|
  {
    Truncate(Fraction(ArcSizes[j], scale))
  }

  /** Arc `k` in drawing order: side `k / 3`, radius `k % 3`. */
  function MotionArc(cx: int, cy: int, scale: real, main: Color, accent: Color, k: nat): Shape
    requires k < 6
  {
    var (side, start, end) := Sides[k / 3];
    Arc(CircleBox(ArcCenterX(cx, scale, side), cy, ArcRadius(scale, k % 3)), start, end,
        if side == -1 then accent else main, Truncate(4.0 * scale))
  }

  function MotionArcs(cx: int, cy: int, scale: real, main: Color, accent: Color): (s: seq<Shape>)
    ensures |s| == 6
  {
    seq(6, k requires 0 <= k < 6 => MotionArc(cx, cy, scale, main, accent, k))
  }

  /** Everything `draw_spine_icon` draws, in order. */
  function SpineIconShapes(cx: int, cy: int, scale: real, main: Color, accent: Color, wave: int -> real): seq<Shape> {
    Vertebrae(cx, cy, scale, main, accent, wave) + MotionArcs(cx, cy, scale, main, accent)
  }

  /** `draw_spine_icon`: seven vertebrae, then three arcs on each side. */
  method DrawSpineIcon(draw: Canvas, cx: int, cy: int, scale: real, colorMain: Color, colorAccent: Color, wave: int -> real)
    modifies draw
    ensures draw.shapes == old(draw.shapes) + SpineIconShapes(cx, cy, scale, colorMain, colorAccent, wave)
  {
    ghost var vertebrae := Vertebrae(cx, cy, scale, colorMain, colorAccent, wave);
    ghost var arcs := MotionArcs(cx, cy, scale, colorMain, colorAccent);
    var vertebraHeight := VertebraHeight(scale);
    for i := 0 to VertebraeCount
      invariant draw.shapes == old(draw.shapes) + vertebrae[..i]
    {
      var w := VertebraWidth(scale, i);
      var y := VertebraTop(cy, scale, i);
      var x := cx + XOffset(wave, scale, i) - w / 2;
      var vertebra := RoundedRect(Box(x, y, x + w, y + vertebraHeight), Truncate(vertebraHeight as real * 0.4),
                                  VertebraColor(colorMain, colorAccent, i));
      assert vertebra == vertebrae[i];
      draw.Draw(vertebra);
      assert vertebrae[..i + 1] == vertebrae[..i] + [vertebra];
    }
    assert vertebrae[..VertebraeCount] == vertebrae;
    for n := 0 to |Sides|
      invariant draw.shapes == old(draw.shapes) + vertebrae + arcs[..3 * n]
    {
      var (side, startAngle, endAngle) := Sides[n];
      var arcCx := ArcCenterX(cx, scale, side);
      var color := if side == -1 then colorAccent else colorMain;
      for j := 0 to |ArcSizes|
        invariant draw.shapes == old(draw.shapes) + vertebrae + arcs[..3 * n + j]
      {
        var s := ArcRadius(scale, j);
        var arc := Arc(Box(arcCx - s, cy - s, arcCx + s, cy + s), startAngle, endAngle, color, Truncate(4.0 * scale));
        assert Sides[(3 * n + j) / 3] == (side, startAngle, endAngle) && (3 * n + j) % 3 == j;
        assert arc == arcs[3 * n + j];
        draw.Draw(arc);
        assert arcs[..3 * n + j + 1] == arcs[..3 * n + j] + [arc];
      }
    }
    assert arcs[..6] == arcs;
  }

  /** The k-th arc on each side: the left one about cx - int(100 * scale) in
      the accent colour from 140 to 220 degrees, the right one about
      cx + int(100 * scale) in the main colour from -40 to 40 degrees, both
      boxes squares of the k-th radius about centres on the line y = cy, both
      strokes int(4 * scale) wide; the two mirror each other about cx. */
  lemma ArcLayout(cx: int, cy: int, scale: real, main: Color, accent: Color, k: nat)
    requires 0.0 <= scale && k < 3
    ensures var arcs := MotionArcs(cx, cy, scale, main, accent);
      && LeftArcLaidOut(arcs[k], cx, cy, scale, accent, k)
      && RightArcLaidOut(arcs[k + 3], cx, cy, scale, main, k)
      && arcs[k].width == arcs[k + 3].width == Truncate(4.0 * scale)
      && arcs[k].box.left + arcs[k + 3].box.right == 2 * cx
      && arcs[k].box.top == arcs[k + 3].box.top
  {
    var arcs := MotionArcs(cx, cy, scale, main, accent);
    assert arcs[k] == MotionArc(cx, cy, scale, main, accent, k);
    assert arcs[k + 3] == MotionArc(cx, cy, scale, main, accent, k + 3);
    LeftArc(cx, cy, scale, main, accent, k);
    RightArc(cx, cy, scale, main, accent, k);
  }

  /** A left-hand arc: angles 140 to 220, accent colour, a circle of radius
      `ArcRadius(scale, k)` about the point `int(100 * scale)` left of centre. */
  predicate LeftArcLaidOut(arc: Shape, cx: int, cy: int, scale: real, accent: Color, k: nat)
    requires k < 3
  {
    && arc.Arc? && arc.start == 140 && arc.end == 220 && arc.stroke == accent
    && SquareAbout(arc.box, cx - Truncate(100.0 * scale), cy, ArcRadius(scale, k))
  }

  /** A right-hand arc: angles -40 to 40, main colour, a circle of radius
      `ArcRadius(scale, k)` about the point `int(100 * scale)` right of centre. */
  predicate RightArcLaidOut(arc: Shape, cx: int, cy: int, scale: real, main: Color, k: nat)
    requires k < 3
  {
    && arc.Arc? && arc.start == -40 && arc.end == 40 && arc.stroke == main
    && SquareAbout(arc.box, cx + Truncate(100.0 * scale), cy, ArcRadius(scale, k))
  }

  lemma LeftArc(cx: int, cy: int, scale: real, main: Color, accent: Color, k: nat)
    requires k < 3
    ensures MotionArc(cx, cy, scale, main, accent, k)
         == Arc(CircleBox(cx - Truncate(100.0 * scale), cy, ArcRadius(scale, k)), 140, 220, accent, Truncate(4.0 * scale))
  {
    assert Sides[k / 3] == (-1, 140, 220) && k % 3 == k;
  }

  lemma RightArc(cx: int, cy: int, scale: real, main: Color, accent: Color, k: nat)
    requires k < 3
    ensures MotionArc(cx, cy, scale, main, accent, k + 3)
         == Arc(CircleBox(cx + Truncate(100.0 * scale), cy, ArcRadius(scale, k)), -40, 40, main, Truncate(4.0 * scale))
  {
    assert Sides[(k + 3) / 3] == (1, -40, 40) && (k + 3) % 3 == k;
  }

  /** The three arcs on a side are nested: outermost first. */
  lemma ArcRadiiDecrease(scale: real)
    requires 0.0 <= scale
    ensures ArcRadius(scale, 0) >= ArcRadius(scale, 1) >= ArcRadius(scale, 2) >= 0
  {
    FractionGrowsWithCount(ArcSizes[1], ArcSizes[0], scale);
    FractionGrowsWithCount(ArcSizes[2], ArcSizes[1], scale);
    FractionGrowsWithCount(0, ArcSizes[2], scale);
    TruncateMonotone(Fraction(ArcSizes[1], scale), Fraction(ArcSizes[0], scale));
    TruncateMonotone(Fraction(ArcSizes[2], scale), Fraction(ArcSizes[1], scale));
    TruncateAtLeast(Fraction(ArcSizes[2], scale), 0);
  }

  // ---------------------------------------------------------------------------
  // The background ring
  // ---------------------------------------------------------------------------

  /** The background brightened by (20, 25, 35), each channel capped at 255. */
  function RingColor(bg: Color): Color {
    Rgb(Min(255, bg.r + 20), Min(255, bg.g + 25), Min(255, bg.b + 35))
  }

  function RingRadius(size: nat): int {
    Truncate(size as real * 0.38)
  }

  function RingWidth(size: nat): int {
    Truncate(size as real * 0.015)
  }

  function RingShape(size: nat, bg: Color): Shape {
    OutlinedEllipse(CircleBox(size / 2, size / 2, RingRadius(size)), RingColor(bg), RingWidth(size))
  }

  /** `draw_circle_bg`. */
  method DrawCircleBg(draw: Canvas, size: nat, bgColor: Color)
    modifies draw
    ensures draw.shapes == old(draw.shapes) + [RingShape(size, bgColor)]
  {
    var cx, cy := size / 2, size / 2;
    var radius := Truncate(size as real * 0.38);
    var ringColor := Rgb(Min(255, bgColor.r + 20), Min(255, bgColor.g + 25), Min(255, bgColor.b + 35));
    draw.Draw(OutlinedEllipse(Box(cx - radius, cy - radius, cx + radius, cy + radius), ringColor, Truncate(size as real * 0.015)));
  }

  /** The ring colour never exceeds 255 in any channel and never darkens a
      valid background. */
  lemma RingColorBounds(bg: Color)
    ensures RingColor(bg).r <= 255 && RingColor(bg).g <= 255 && RingColor(bg).b <= 255
    ensures ValidColor(bg) ==> ValidColor(RingColor(bg))
    ensures ValidColor(bg) ==> bg.r <= RingColor(bg).r && bg.g <= RingColor(bg).g && bg.b <= RingColor(bg).b
    ensures RingColor(DarkBg) == Rgb(35, 48, 77)
  {
  }

  /** The ring is a square box about the canvas centre at 38% of the size that
      stays on the canvas, its outline narrower than its radius. */
  lemma RingGeometry(size: nat)
    requires 1 <= size
    ensures SquareAbout(RingShape(size, DarkBg).box, size / 2, size / 2, RingRadius(size))
    ensures 0 <= RingWidth(size) <= RingRadius(size)
    ensures WithinCanvas(RingShape(size, DarkBg).box, size)
  {
    var x := size as real * 0.38;
    var c := size / 2;
    assert size as real == 2.0 * c as real + (size % 2) as real;
    assert x < (size - c) as real;
    assert RingRadius(size) <= c;
    TruncateMonotone(size as real * 0.015, x);
  }

  lemma RingShippedSizes()
    ensures RingRadius(1024) == 389 && RingWidth(1024) == 15
    ensures RingRadius(512) == 194 && RingWidth(512) == 7
  {
    assert 1024 as real * 0.38 == 389.12 && 1024 as real * 0.015 == 15.36;
    assert 512 as real * 0.38 == 194.56 && 512 as real * 0.015 == 7.68;
  }

  // ---------------------------------------------------------------------------
  // Whole icons and the job table
  // ---------------------------------------------------------------------------

  /** The drawing scale of an icon: its size against the 1024-unit grid, times
      the share of the canvas its content takes. */
  function DrawScale(size: nat, contentScale: real): real {
    (size as real / 1024.0) * contentScale
  }

  /** The drawing scales of the shipped icons: 1.0, 0.66 and 0.8 at 1024
      pixels, and 0.5 for the favicon drawn at 512. */
  lemma ShippedScales()
    ensures DrawScale(1024, 1.0) == 1.0 && DrawScale(1024, 0.66) == 0.66 && DrawScale(1024, 0.8) == 0.8
    ensures DrawScale(512, 1.0) == 0.5
  {
  }

  function IconShapes(size: nat, contentScale: real, withRing: bool, wave: int -> real): seq<Shape> {
    (if withRing then [RingShape(size, DarkBg)] else [])
      + SpineIconShapes(size / 2, size / 2, DrawScale(size, contentScale), Teal, TealLight, wave)
  }

  /** What `make_icon` returns: an opaque dark canvas with the drawn layer
      pasted on it through the layer's alpha. */
  function IconPicture(size: nat, contentScale: real, withRing: bool, wave: int -> real): Picture {
    Drawn(size, RGB, DarkBg, [Pasted(Drawn(size, RGBA, DarkBg, IconShapes(size, contentScale, withRing, wave)))])
  }

  /** `make_icon`. */
  method MakeIcon(size: nat, contentScale: real, withBgRing: bool, wave: int -> real) returns (rgb: Canvas)
    ensures fresh(rgb)
    ensures rgb.Picture() == IconPicture(size, contentScale, withBgRing, wave)
  {
    var img := new Canvas(size, RGBA, Color(15, 23, 42, 255));
    if withBgRing {
      DrawCircleBg(img, size, DarkBg);
    }
    DrawSpineIcon(img, size / 2, size / 2, (size as real / 1024.0) * contentScale, Teal, TealLight, wave);
    assert img.Picture() == Drawn(size, RGBA, DarkBg, IconShapes(size, contentScale, withBgRing, wave));
    rgb := new Canvas(size, RGB, DarkBg);
    rgb.Paste(img);
  }

  /** Every shape of an icon's layer paints with a valid, fully opaque colour,
      and the layer's background is opaque too, so the alpha mask `make_icon`
      pastes through copies the whole layer. The ring is the first shape when
      it is asked for and there is no other outlined ellipse. */
  lemma IconLayerOpaque(size: nat, contentScale: real, withRing: bool, wave: int -> real)
    ensures DarkBg.a == 255
    ensures var shapes := IconShapes(size, contentScale, withRing, wave);
      forall k :: 0 <= k < |shapes| ==>
        && !shapes[k].Pasted?
        && ValidColor(Ink(shapes[k])) && Ink(shapes[k]).a == 255
        && (shapes[k].OutlinedEllipse? <==> withRing && k == 0)
  {
    var shapes := IconShapes(size, contentScale, withRing, wave);
    var spine := SpineIconShapes(size / 2, size / 2, DrawScale(size, contentScale), Teal, TealLight, wave);
    var offset := if withRing then 1 else 0;
    RingColorBounds(DarkBg);
    SpineShapesOpaque(size / 2, size / 2, DrawScale(size, contentScale), Teal, TealLight, wave);
    assert forall k :: offset <= k < |shapes| ==> shapes[k] == spine[k - offset];
  }

  /** Every vertebra and arc is painted in a valid, fully opaque colour when
      both colours given are. */
  lemma SpineShapesOpaque(cx: int, cy: int, scale: real, main: Color, accent: Color, wave: int -> real)
    requires ValidColor(main) && ValidColor(accent) && main.a == 255 && accent.a == 255
    ensures var spine := SpineIconShapes(cx, cy, scale, main, accent, wave);
      forall k :: 0 <= k < |spine| ==>
        (spine[k].RoundedRect? || spine[k].Arc?) && ValidColor(Ink(spine[k])) && Ink(spine[k]).a == 255
  {
    var spine := SpineIconShapes(cx, cy, scale, main, accent, wave);
    VertebraGradient(main, accent);
    forall k | 0 <= k < |spine|
      ensures (spine[k].RoundedRect? || spine[k].Arc?) && ValidColor(Ink(spine[k])) && Ink(spine[k]).a == 255
    {
      if k < VertebraeCount {
        assert spine[k] == Vertebra(cx, cy, scale, main, accent, wave, k);
      } else {
        assert spine[k] == MotionArc(cx, cy, scale, main, accent, k - VertebraeCount);
      }
    }
  }


  /** The (name, content scale, ring) list of the full-size icons. */
  const FullSizeIcons: seq<(string, real, bool)> :=
    [("icon.png", 1.0, true), ("adaptive-icon.png", 0.66, false), ("splash-icon.png", 0.8, false)]

  /** The script's main block: three 1024-pixel icons, then a favicon drawn at
      512 pixels with the ring and resampled to 48 x 48. */
  method GenerateAppIcons(wave: int -> real) returns (saved: seq<SavedFile>)
    ensures saved == [
      SavedFile("icon.png", IconPicture(1024, 1.0, true, wave)),
      SavedFile("adaptive-icon.png", IconPicture(1024, 0.66, false, wave)),
      SavedFile("splash-icon.png", IconPicture(1024, 0.8, false, wave)),
      SavedFile("favicon.png", Resized(IconPicture(512, 1.0, true, wave), 48))]
  {
    saved := [];
    for k := 0 to |FullSizeIcons|
      invariant |saved| == k
      invariant forall j :: 0 <= j < k ==>
        saved[j] == SavedFile(FullSizeIcons[j].0, IconPicture(1024, FullSizeIcons[j].1, FullSizeIcons[j].2, wave))
    {
      var (name, scale, ring) := FullSizeIcons[k];
      var icon := MakeIcon(1024, scale, ring, wave);
      saved := saved + [SavedFile(name, icon.Picture())];
    }
    var favicon := MakeIcon(512, 1.0, true, wave);
    saved := saved + [SavedFile("favicon.png", Resized(favicon.Picture(), 48))];
  }
}

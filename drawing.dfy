/** The drawing surface both icon generators hand their geometry to (PIL's
    `Image.new` and `ImageDraw`). A canvas records each drawing call as a shape
    record: kind, bounding box, colour, stroke width and arc angles. Turning the
    records into pixels is not part of this model. */
module Drawing {

  datatype Result<+T, +E> = Ok(value: T) | Err(error: E)

  /** A colour as PIL receives it. A three-channel tuple is opaque, so it is an
      alpha of 255 here. */
  datatype Color = Color(r: int, g: int, b: int, a: int)

  function Rgb(r: int, g: int, b: int): Color {
    Color(r, g, b, 255)
  }

  predicate IsChannel(c: int) {
    0 <= c <= 255
  }

  predicate ValidColor(c: Color) {
    IsChannel(c.r) && IsChannel(c.g) && IsChannel(c.b) && IsChannel(c.a)
  }

  /** The `[left, top, right, bottom]` list a PIL drawing call receives. */
  datatype Box = Box(left: int, top: int, right: int, bottom: int)

  /** The box both scripts write for a circle of radius `radius` about (cx, cy). */
  function CircleBox(cx: int, cy: int, radius: int): Box {
    Box(cx - radius, cy - radius, cx + radius, cy + radius)
  }

  /** `b` is a square of half-side `radius` centred on (cx, cy). */
  predicate SquareAbout(b: Box, cx: int, cy: int, radius: int) {
    && b.right - b.left == 2 * radius
    && b.bottom - b.top == 2 * radius
    && b.left + b.right == 2 * cx
    && b.top + b.bottom == 2 * cy
  }

  /** Every corner of `b` is a pixel of a `size` x `size` canvas. */
  predicate WithinCanvas(b: Box, size: int) {
    0 <= b.left <= b.right <= size - 1 && 0 <= b.top <= b.bottom <= size - 1
  }

  datatype Mode = RGBA | RGB

  /** What an image shows: the shapes drawn on a background, in drawing order,
      or another picture resampled to a new size. */
  datatype Picture =
    | Drawn(size: nat, mode: Mode, background: Color, shapes: seq<Shape>)
    | Resized(source: Picture, size: nat)

  /** One drawing call. `Pasted` is `Image.paste` of a whole layer at (0, 0),
      masked by the layer's own alpha channel. */
  datatype Shape =
    | FilledEllipse(box: Box, fill: Color)
    | OutlinedEllipse(box: Box, outline: Color, width: int)
    | FilledRect(box: Box, fill: Color)
    | RoundedRect(box: Box, radius: int, fill: Color)
    | Arc(box: Box, start: int, end: int, stroke: Color, width: int)
    | Pasted(layer: Picture)

  /** The colour a drawing call paints with. */
  function Ink(s: Shape): Color
    requires !s.Pasted?
  {
    match s
    case FilledEllipse(_, fill) => fill
    case OutlinedEllipse(_, outline, _) => outline
    case FilledRect(_, fill) => fill
    case RoundedRect(_, _, fill) => fill
    case Arc(_, _, _, stroke, _) => stroke
  }

  /** A file written by `save`: its name and the picture it holds. */
  datatype SavedFile = SavedFile(file: string, picture: Picture)

  /** Python's `int(x)` on a float: truncation toward zero. */
  function Truncate(x: real): (n: int)
    ensures 0.0 <= x ==> n as real <= x < n as real + 1.0
    ensures x < 0.0 ==> n as real - 1.0 < x <= n as real
  {
    if 0.0 <= x then x.Floor else -((-x).Floor)
  }

  function Min(a: int, b: int): int {
    if a <= b then a else b
  }

  lemma TruncateMonotone(x: real, y: real)
    requires x <= y
    ensures Truncate(x) <= Truncate(y)
  {
    if 0.0 <= x {
    } else if y < 0.0 {
      assert (-y).Floor <= (-x).Floor;
    }
  }

  /** A whole number is its own truncation. */
  lemma TruncateWhole(n: int)
    ensures Truncate(n as real) == n
  {
    if n < 0 {
      assert (-(n as real)).Floor == -n;
    }
  }

  /** An integer that bounds `x` from below also bounds its truncation. */
  lemma TruncateAtLeast(x: real, m: int)
    requires m as real <= x
    ensures m <= Truncate(x)
  {
    TruncateMonotone(m as real, x);
  }

  /** An integer that bounds `x` from above also bounds its truncation. */
  lemma TruncateAtMost(x: real, m: int)
    requires x <= m as real
    ensures Truncate(x) <= m
  {
    TruncateMonotone(x, m as real);
  }

  /** A canvas from `Image.new(mode, (size, size), background)`, with the
      shapes that `ImageDraw` calls have drawn on it so far. */
  class Canvas {
    const size: nat
    const mode: Mode
    const background: Color
    var shapes: seq<Shape>

    constructor (size: nat, mode: Mode, background: Color)
      ensures this.size == size && this.mode == mode && this.background == background
      ensures shapes == []
    {
      this.size := size;
      this.mode := mode;
      this.background := background;
      shapes := [];
    }

    /** What the canvas shows now. */
    function Picture(): Picture
      reads this
    {
      Drawn(size, mode, background, shapes)
    }

    /** One `ImageDraw` call: the shape goes on top of everything drawn so far. */
    method Draw(s: Shape)
      modifies this
      ensures shapes == old(shapes) + [s]
    {
      shapes := shapes + [s];
    }

    /** `paste(layer, mask=layer.split()[3])`: the whole layer goes on top,
        blended by its own alpha. */
    method Paste(layer: Canvas)
      modifies this
      ensures shapes == old(shapes) + [Pasted(old(layer.Picture()))]
    {
      shapes := shapes + [Pasted(layer.Picture())];
    }
  }
}

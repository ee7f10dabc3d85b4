/** The macOS menu-bar glyphs: a black head-and-spine template icon and three
    coloured state dots, each at 22 and 44 pixels. */
module MenuBarIcons {
  import opened Drawing

  const Black := Color(0, 0, 0, 255)
  const Transparent := Color(0, 0, 0, 0)

  // ---------------------------------------------------------------------------
  // Template icon: a head and a spine on the 22-unit design grid
  // ---------------------------------------------------------------------------

  function Scale(size: nat): real {
    size as real / 22.0
  }

  function HeadRadius(size: nat): int {
    Truncate(3.0 * Scale(size))
  }

  function HeadCenterX(size: nat): int {
    size / 2
  }

  function HeadCenterY(size: nat): int {
    Truncate(5.0 * Scale(size))
  }

  function HeadBox(size: nat): Box {
    CircleBox(HeadCenterX(size), HeadCenterY(size), HeadRadius(size))
  }

  function SpineWidth(size: nat): int {
    Truncate(2.0 * Scale(size))
  }

  /** The spine hangs from the head's lower edge down to 19 units. */
  function SpineBox(size: nat): Box {
    var left := HeadCenterX(size) - SpineWidth(size) / 2;
    Box(left, HeadCenterY(size) + HeadRadius(size), left + SpineWidth(size), Truncate(19.0 * Scale(size)))
  }

  function TemplateShapes(size: nat): seq<Shape> {
    [FilledEllipse(HeadBox(size), Black), FilledRect(SpineBox(size), Black)]
  }

  /** `create_template_icon`: black shapes on a fully transparent canvas. */
  method CreateTemplateIcon(size: nat) returns (img: Canvas)
    ensures fresh(img)
    ensures img.Picture() == Drawn(size, RGBA, Transparent, TemplateShapes(size))
  {
    img := new Canvas(size, RGBA, Color(0, 0, 0, 0));
    var headRadius := HeadRadius(size);
    var headCenterX := size / 2;
    var headCenterY := HeadCenterY(size);
    img.Draw(FilledEllipse(Box(headCenterX - headRadius, headCenterY - headRadius,
                               headCenterX + headRadius, headCenterY + headRadius), Color(0, 0, 0, 255)));
    var spineWidth := SpineWidth(size);
    var spineLeft := headCenterX - spineWidth / 2;
    var spineTop := headCenterY + headRadius;
    var spineBottom := Truncate(19.0 * Scale(size));
    img.Draw(FilledRect(Box(spineLeft, spineTop, spineLeft + spineWidth, spineBottom), Color(0, 0, 0, 255)));
  }

  /** At a size of 22k pixels the scale is exactly k, so every coordinate is k
      times its value on the 22-unit grid. */
  lemma TemplateAtMultiple(k: nat)
    requires 1 <= k
    ensures HeadBox(22 * k) == Box(8 * k, 2 * k, 14 * k, 8 * k)
    ensures SpineBox(22 * k) == Box(10 * k, 8 * k, 12 * k, 19 * k)
  {
    var size := 22 * k;
    assert Scale(size) == k as real;
    assert HeadRadius(size) == 3 * k by {
      assert 3.0 * Scale(size) == (3 * k) as real;
      TruncateWhole(3 * k);
    }
    assert HeadCenterY(size) == 5 * k by {
      assert 5.0 * Scale(size) == (5 * k) as real;
      TruncateWhole(5 * k);
    }
    assert SpineWidth(size) == 2 * k by {
      assert 2.0 * Scale(size) == (2 * k) as real;
      TruncateWhole(2 * k);
    }
    assert Truncate(19.0 * Scale(size)) == 19 * k by {
      assert 19.0 * Scale(size) == (19 * k) as real;
      TruncateWhole(19 * k);
    }
    assert HeadCenterX(size) == 11 * k;
  }

  /** The two shipped sizes: the 44-pixel glyph is the 22-pixel one doubled. */
  lemma TemplateShippedSizes()
    ensures HeadBox(22) == Box(8, 2, 14, 8) && SpineBox(22) == Box(10, 8, 12, 19)
    ensures HeadBox(44) == Box(16, 4, 28, 16) && SpineBox(44) == Box(20, 16, 24, 38)
  {
    TemplateAtMultiple(1);
    TemplateAtMultiple(2);
  }

  /** At every size the head is a square about (size // 2, int(5 * scale)), the
      spine starts exactly where the head ends, runs down to int(19 * scale),
      is centred under the head to within one pixel, and both boxes lie on the
      canvas. */
  lemma TemplateGeometry(size: nat)
    requires 1 <= size
    ensures SquareAbout(HeadBox(size), size / 2, HeadCenterY(size), HeadRadius(size))
    ensures SpineBox(size).top == HeadBox(size).bottom
    ensures SpineBox(size).bottom == Truncate(19.0 * Scale(size))
    ensures SpineBox(size).right - SpineBox(size).left == SpineWidth(size)
    ensures 0 <= SpineBox(size).left + SpineBox(size).right - 2 * (size / 2) <= 1
    ensures WithinCanvas(HeadBox(size), size) && WithinCanvas(SpineBox(size), size)
  {
    var sc := Scale(size);
    var r, cy, w, bottom := HeadRadius(size), HeadCenterY(size), SpineWidth(size), Truncate(19.0 * sc);
    var cx := size / 2;
    assert size as real == 2.0 * cx as real + (size % 2) as real;
    assert 0 <= r && 0 <= cy && 0 <= w;
    // the head reaches at most 3 units to either side of the centre line
    assert r as real <= 3.0 * sc && cy as real <= 5.0 * sc < cy as real + 1.0;
    assert r <= cx;
    assert r <= cy;
    // its lower edge is above 8 units, the spine ends above 19 units
    assert cy + r <= bottom;
    assert bottom <= size - 1;
    assert cx + r <= size - 1;
    // the spine's horizontal extent
    assert w as real <= 2.0 * sc;
    assert w / 2 <= cx;
    assert cx + w - w / 2 <= size - 1;
  }

  // ---------------------------------------------------------------------------
  // Hex colour strings
  // ---------------------------------------------------------------------------

  /** Why `int(field, 16)` raises: the two-character field at `offset` is empty
      or holds a character that is not a hex digit. */
  datatype HexError = EmptyField(offset: nat) | NotHex(offset: nat)

  predicate IsHexDigit(c: char) {
    ('0' <= c <= '9') || ('a' <= c <= 'f') || ('A' <= c <= 'F')
  }

  predicate AllHex(s: string) {
    forall i :: 0 <= i < |s| ==> IsHexDigit(s[i])
  }

  function DigitValue(c: char): (d: int)
    requires IsHexDigit(c)
    ensures 0 <= d < 16
  {
    if '0' <= c <= '9' then c as int - '0' as int
    else if 'a' <= c <= 'f' then c as int - 'a' as int + 10
    else c as int - 'A' as int + 10
  }

  /** The base-16 value of a digit string, most significant digit first. */
  function HexValue(s: string): (v: int)
    requires AllHex(s)
    ensures 0 <= v
    ensures |s| <= 1 ==> v < 16
    ensures |s| <= 2 ==> v < 256
  {
    if s == [] then 0 else HexValue(s[..|s| - 1]) * 16 + DigitValue(s[|s| - 1])
  }

  /** `s.lstrip('#')`. */
  function StripHashes(s: string): string {
    if s != [] && s[0] == '#' then StripHashes(s[1..]) else s
  }

  /** What is left is a suffix of `s` that does not start with '#'. */
  lemma {:induction false} StripHashesIsSuffix(s: string)
    ensures |StripHashes(s)| <= |s|
    ensures StripHashes(s) == s[|s| - |StripHashes(s)|..]
    ensures StripHashes(s) != [] ==> StripHashes(s)[0] != '#'
  {
    if s != [] && s[0] == '#' {
      var t := StripHashes(s[1..]);
      StripHashesIsSuffix(s[1..]);
      assert s[1..][|s| - 1 - |t|..] == s[|s| - |t|..];
    } else {
      assert s[0..] == s;
    }
  }

  /** Everything removed before the suffix was a '#'. */
  lemma {:induction false} StripHashesRemovesHashes(s: string, i: nat)
    requires i < |s| - |StripHashes(s)|
    ensures s[i] == '#'
  {
    if 0 < i {
      StripHashesRemovesHashes(s[1..], i - 1);
    }
  }

  /** Python's slice `s[i:j]`, which clamps both ends to the string. */
  function Slice(s: string, i: nat, j: nat): (t: string)
    requires i <= j
    ensures |t| == Min(j, |s|) - Min(i, |s|)
    ensures forall k :: 0 <= k < |t| ==> t[k] == s[i + k]
  {
    s[Min(i, |s|)..Min(j, |s|)]
  }

  /** `int(h[offset:offset + 2], 16)`. */
  function ParseField(h: string, offset: nat): (r: Result<int, HexError>)
    ensures r.Ok? ==> IsChannel(r.value)
    ensures r.Err? ==> r.error.offset == offset
  {
    var field := Slice(h, offset, offset + 2);
    if field == [] then Err(EmptyField(offset))
    else if !AllHex(field) then Err(NotHex(offset))
    else Ok(HexValue(field))
  }

  /** The hex parsing in `create_colored_circle`: strip every leading '#' and
      read characters [0:2], [2:4] and [4:6] as base-16 channels; the first
      field that fails is the error. */
  function ParseColor(hex: string): (r: Result<(int, int, int), HexError>)
    ensures r.Ok? ==> IsChannel(r.value.0) && IsChannel(r.value.1) && IsChannel(r.value.2)
    ensures r.Err? ==> r.error.offset in {0, 2, 4}
  {
    ParseFields(StripHashes(hex))
  }

  /** The three fields of a string whose leading '#'s are gone. */
  function ParseFields(h: string): (r: Result<(int, int, int), HexError>)
    ensures r.Ok? ==> IsChannel(r.value.0) && IsChannel(r.value.1) && IsChannel(r.value.2)
    ensures r.Err? ==> r.error.offset in {0, 2, 4}
  {
    match ParseField(h, 0)
    case Err(e) => Err(e)
    case Ok(red) =>
      match ParseField(h, 2)
      case Err(e) => Err(e)
      case Ok(green) =>
        match ParseField(h, 4)
        case Err(e) => Err(e)
        case Ok(blue) => Ok((red, green, blue))
  }

  /** A two-character field parses exactly when it starts inside the string
      and every character it covers is a hex digit. */
  lemma ParseFieldOkIff(h: string, offset: nat)
    ensures ParseField(h, offset).Ok? <==>
      offset < |h| && forall i :: offset <= i < Min(offset + 2, |h|) ==> IsHexDigit(h[i])
  {
    var field := Slice(h, offset, offset + 2);
    if offset < |h| && !AllHex(field) {
      var k :| 0 <= k < |field| && !IsHexDigit(field[k]);
      assert !IsHexDigit(h[offset + k]);
    }
  }

  /** Parsing succeeds exactly when, after the leading '#'s, at least five
      characters remain and the first six (or all, if fewer) are hex digits. */
  lemma ParseColorOkIff(hex: string)
    ensures ParseColor(hex).Ok? <==>
      var h := StripHashes(hex);
      5 <= |h| && forall i :: 0 <= i < Min(6, |h|) ==> IsHexDigit(h[i])
  {
    var h := StripHashes(hex);
    ParseFieldOkIff(h, 0);
    ParseFieldOkIff(h, 2);
    ParseFieldOkIff(h, 4);
    assert ParseFields(h).Ok? <==> ParseField(h, 0).Ok? && ParseField(h, 2).Ok? && ParseField(h, 4).Ok?;
  }

  /** `n` hash characters. */
  function Hashes(n: nat): (s: string)
    ensures |s| == n && forall i :: 0 <= i < n ==> s[i] == '#'
  {
    if n == 0 then [] else ['#'] + Hashes(n - 1)
  }

  lemma {:induction false} StripLeadingHashes(n: nat, s: string)
    ensures StripHashes(Hashes(n) + s) == StripHashes(s)
  {
    if n > 0 {
      assert (Hashes(n) + s)[0] == '#';
      assert (Hashes(n) + s)[1..] == Hashes(n - 1) + s;
      StripLeadingHashes(n - 1, s);
    } else {
      assert Hashes(n) + s == s;
    }
  }

  /** Any number of leading '#'s is ignored. */
  lemma LeadingHashesIgnored(n: nat, s: string)
    ensures ParseColor(Hashes(n) + s) == ParseColor(s)
  {
    StripLeadingHashes(n, s);
  }

  lemma {:induction false} StripHashesAppend(s: string, tail: string)
    requires StripHashes(s) != []
    ensures StripHashes(s + tail) == StripHashes(s) + tail
  {
    if s[0] == '#' {
      assert (s + tail)[1..] == s[1..] + tail;
      StripHashesAppend(s[1..], tail);
    } else {
      assert (s + tail)[0] == s[0];
    }
  }

  lemma FieldOfPrefix(h: string, tail: string, offset: nat)
    requires offset + 2 <= |h|
    ensures ParseField(h + tail, offset) == ParseField(h, offset)
  {
    assert (h + tail)[offset..offset + 2] == h[offset..offset + 2];
  }

  /** Characters after the sixth are never read. */
  lemma ParseColorIgnoresTail(hex: string, tail: string)
    requires 6 <= |StripHashes(hex)|
    ensures ParseColor(hex + tail) == ParseColor(hex)
  {
    var h := StripHashes(hex);
    StripHashesAppend(hex, tail);
    FieldOfPrefix(h, tail, 0);
    FieldOfPrefix(h, tail, 2);
    FieldOfPrefix(h, tail, 4);
    assert ParseFields(h + tail) == ParseFields(h);
  }

  /** A five-digit string parses: the last field is the single character
      left, because slicing stops at the end of the string. */
  lemma FiveDigitsParse()
    ensures ParseColor("#abcde") == Ok((171, 205, 14))
  {
    assert StripHashes("#abcde") == "abcde";
    assert Slice("abcde", 0, 2) == "ab" && Slice("abcde", 2, 4) == "cd" && Slice("abcde", 4, 6) == "e";
    assert HexValue("ab") == 171 by { assert "ab"[..1] == "a"; }
    assert HexValue("cd") == 205 by { assert "cd"[..1] == "c"; }
    assert HexValue("e") == 14;
  }

  function HexChar(d: int): (c: char)
    requires 0 <= d < 16
    ensures IsHexDigit(c) && c != '#'
  {
    if d < 10 then ('0' as int + d) as char else ('a' as int + d - 10) as char
  }

  /** A channel written as two lower-case hex digits, as in '#10b981'. */
  function HexByte(v: int): (s: string)
    requires IsChannel(v)
    ensures |s| == 2 && AllHex(s)
  {
    [HexChar(v / 16), HexChar(v % 16)]
  }

  lemma HexByteValue(v: int)
    requires IsChannel(v)
    ensures HexValue(HexByte(v)) == v
  {
    var s := HexByte(v);
    assert DigitValue(HexChar(v / 16)) == v / 16;
    assert DigitValue(HexChar(v % 16)) == v % 16;
    assert s[..1][..0] == [];
    assert HexValue(s[..1]) == v / 16;
  }

  /** Parsing inverts formatting: '#rrggbb' gives back (r, g, b). */
  lemma ParseFormatted(r: int, g: int, b: int)
    requires IsChannel(r) && IsChannel(g) && IsChannel(b)
    ensures ParseColor("#" + HexByte(r) + HexByte(g) + HexByte(b)) == Ok((r, g, b))
  {
    var h := HexByte(r) + HexByte(g) + HexByte(b);
    assert "#" + HexByte(r) + HexByte(g) + HexByte(b) == Hashes(1) + h;
    StripLeadingHashes(1, h);
    assert StripHashes(h) == h;
    assert Slice(h, 0, 2) == HexByte(r);
    assert Slice(h, 2, 4) == HexByte(g);
    assert Slice(h, 4, 6) == HexByte(b);
    HexByteValue(r);
    HexByteValue(g);
    HexByteValue(b);
  }

  // ---------------------------------------------------------------------------
  // State dots
  // ---------------------------------------------------------------------------

  function DotRadius(size: nat): int {
    Truncate(size as real * 0.35)
  }

  /** A circle at 35% of the size about the canvas centre, in the parsed colour
      at alpha 230. */
  function DotShape(size: nat, rgb: (int, int, int)): Shape {
    FilledEllipse(CircleBox(size / 2, size / 2, DotRadius(size)), Color(rgb.0, rgb.1, rgb.2, 230))
  }

  /** `create_colored_circle`: fails exactly when the hex string does not parse. */
  method CreateColoredCircle(size: nat, colorHex: string) returns (r: Result<Canvas, HexError>)
    ensures r.Err? <==> ParseColor(colorHex).Err?
    ensures r.Err? ==> r.error == ParseColor(colorHex).error
    ensures r.Ok? ==> (fresh(r.value) &&
      r.value.Picture() == Drawn(size, RGBA, Transparent, [DotShape(size, ParseColor(colorHex).value)]))
  {
    var img := new Canvas(size, RGBA, Color(0, 0, 0, 0));
    var h := StripHashes(colorHex);
    var red := ParseField(h, 0);
    if red.Err? {
      return Err(red.error);
    }
    var green := ParseField(h, 2);
    if green.Err? {
      return Err(green.error);
    }
    var blue := ParseField(h, 4);
    if blue.Err? {
      return Err(blue.error);
    }
    var radius := Truncate(size as real * 0.35);
    var center := size / 2;
    img.Draw(FilledEllipse(Box(center - radius, center - radius, center + radius, center + radius),
                           Color(red.value, green.value, blue.value, 230)));
    r := Ok(img);
  }

  /** The dot is a square box about the canvas centre that stays on the canvas
      at every size, translucent in exactly the parsed colour. */
  lemma DotGeometry(size: nat, rgb: (int, int, int))
    requires 1 <= size
    ensures SquareAbout(DotShape(size, rgb).box, size / 2, size / 2, DotRadius(size))
    ensures 0 <= DotRadius(size) && WithinCanvas(DotShape(size, rgb).box, size)
    ensures DotShape(size, rgb).fill == Color(rgb.0, rgb.1, rgb.2, 230)
  {
    var x := size as real * 0.35;
    var c := size / 2;
    // 35% of the size falls strictly short of the distance from the centre
    // pixel to the last pixel, rounded up
    assert size as real == 2.0 * c as real + (size % 2) as real;
    assert x < (size - c) as real;
    assert DotRadius(size) <= c;
  }

  lemma DotShippedSizes()
    ensures DotRadius(22) == 7 && DotRadius(44) == 15
  {
    assert 22 as real * 0.35 == 7.7;
    assert 44 as real * 0.35 == 15.4;
  }

  // ---------------------------------------------------------------------------
  // `main`
  // ---------------------------------------------------------------------------

  /** What a state-dot file shows. */
  function DotPicture(size: nat, rgb: (int, int, int)): Picture {
    Drawn(size, RGBA, Transparent, [DotShape(size, rgb)])
  }

  /** What a template file shows. */
  function TemplatePicture(size: nat): Picture {
    Drawn(size, RGBA, Transparent, TemplateShapes(size))
  }

  /** The `colors` dictionary, in insertion order. */
  const Palette: seq<(string, string)> := [("green", "#10b981"), ("yellow", "#f59e0b"), ("red", "#ef4444")]

  /** The channels each palette string stands for. */
  const PaletteRgb: seq<(int, int, int)> := [(16, 185, 129), (245, 158, 11), (239, 68, 68)]

  /** The two files `main` writes for the palette entry `k`. */
  function DotFiles(k: nat): seq<SavedFile>
    requires k < |Palette| && k < |PaletteRgb|
  {
    [SavedFile("icon-" + Palette[k].0 + ".png", DotPicture(22, PaletteRgb[k])),
     SavedFile("icon-" + Palette[k].0 + "@2x.png", DotPicture(44, PaletteRgb[k]))]
  }

  /** The files of the first `k` palette entries, in dictionary order. */
  function DotFilesUpTo(k: nat): seq<SavedFile>
    requires k <= |Palette| && k <= |PaletteRgb|
  {
    if k == 0 then [] else DotFilesUpTo(k - 1) + DotFiles(k - 1)
  }

  /** One pass of `main`'s colour loop: the dot drawn at 22 and at 44 pixels in
      the colour of palette entry `k`, with the names they are saved under. */
  method StateIcons(k: nat) returns (files: seq<SavedFile>)
    requires k < |Palette|
    ensures |PaletteRgb| == |Palette| && files == DotFiles(k)
  {
    var (name, hex) := Palette[k];
    PaletteEntryParses(k);
    var icon1x := CreateColoredCircle(22, hex);
    var icon2x := CreateColoredCircle(44, hex);
    if icon1x.Err? || icon2x.Err? {
      assert false;
    }
    files := [SavedFile("icon-" + name + ".png", icon1x.value.Picture()),
              SavedFile("icon-" + name + "@2x.png", icon2x.value.Picture())];
  }

  /** `main`: the eight files it writes, in order, each with the picture drawn
      for it. No colour of the palette fails to parse, so `main` never stops
      early. */
  method GenerateMenuBarIcons() returns (saved: seq<SavedFile>)
    ensures saved == [
      SavedFile("iconTemplate.png", TemplatePicture(22)),
      SavedFile("iconTemplate@2x.png", TemplatePicture(44)),
      SavedFile("icon-green.png", DotPicture(22, (16, 185, 129))),
      SavedFile("icon-green@2x.png", DotPicture(44, (16, 185, 129))),
      SavedFile("icon-yellow.png", DotPicture(22, (245, 158, 11))),
      SavedFile("icon-yellow@2x.png", DotPicture(44, (245, 158, 11))),
      SavedFile("icon-red.png", DotPicture(22, (239, 68, 68))),
      SavedFile("icon-red@2x.png", DotPicture(44, (239, 68, 68)))]
  {
    var template1x := CreateTemplateIcon(22);
    var template2x := CreateTemplateIcon(44);
    var templates := [SavedFile("iconTemplate.png", template1x.Picture()),
                      SavedFile("iconTemplate@2x.png", template2x.Picture())];
    saved := templates;
    for k := 0 to |Palette|
      invariant saved == templates + DotFilesUpTo(k)
    {
      var files := StateIcons(k);
      saved := saved + files;
    }
    DotFilesListed();
  }

  /** Spelled out, the palette's files are the green, yellow and red dots. */
  lemma DotFilesListed()
    ensures DotFilesUpTo(3) == [
      SavedFile("icon-green.png", DotPicture(22, (16, 185, 129))),
      SavedFile("icon-green@2x.png", DotPicture(44, (16, 185, 129))),
      SavedFile("icon-yellow.png", DotPicture(22, (245, 158, 11))),
      SavedFile("icon-yellow@2x.png", DotPicture(44, (245, 158, 11))),
      SavedFile("icon-red.png", DotPicture(22, (239, 68, 68))),
      SavedFile("icon-red@2x.png", DotPicture(44, (239, 68, 68)))]
  {
    assert "icon-" + "green" + ".png" == "icon-green.png" && "icon-" + "green" + "@2x.png" == "icon-green@2x.png";
    assert "icon-" + "yellow" + ".png" == "icon-yellow.png" && "icon-" + "yellow" + "@2x.png" == "icon-yellow@2x.png";
    assert "icon-" + "red" + ".png" == "icon-red.png" && "icon-" + "red" + "@2x.png" == "icon-red@2x.png";
  }

  /** Each palette string parses to the channels listed for it. */
  lemma PaletteEntryParses(k: nat)
    requires k < |Palette|
    ensures |PaletteRgb| == |Palette| && ParseColor(Palette[k].1) == Ok(PaletteRgb[k])
  {
    PaletteSpelling();
    var (r, g, b) := PaletteRgb[k];
    ParseFormatted(r, g, b);
    assert Palette[k].1 == "#" + HexByte(r) + HexByte(g) + HexByte(b);
  }

  /** Every colour of the palette parses, to the channels its name promises. */
  lemma PaletteParses()
    ensures ParseColor("#10b981") == Ok((16, 185, 129))
    ensures ParseColor("#f59e0b") == Ok((245, 158, 11))
    ensures ParseColor("#ef4444") == Ok((239, 68, 68))
  {
    PaletteSpelling();
    ParseFormatted(16, 185, 129);
    ParseFormatted(245, 158, 11);
    ParseFormatted(239, 68, 68);
  }

  /** The palette's strings are the channels written as hex bytes. */
  lemma PaletteSpelling()
    ensures "#10b981" == "#" + HexByte(16) + HexByte(185) + HexByte(129)
    ensures "#f59e0b" == "#" + HexByte(245) + HexByte(158) + HexByte(11)
    ensures "#ef4444" == "#" + HexByte(239) + HexByte(68) + HexByte(68)
  {
    assert HexByte(16) == "10" && HexByte(185) == "b9" && HexByte(129) == "81";
    assert HexByte(245) == "f5" && HexByte(158) == "9e" && HexByte(11) == "0b";
    assert HexByte(239) == "ef" && HexByte(68) == "44";
  }
}

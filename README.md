# Icon geometry of the Mobility Journey asset generators

This project models the two icon generators of the Mobility Journey
repository.

- `desktop/generate_icons.py` draws the macOS menu-bar glyphs: a black
  head-and-spine template icon on a transparent canvas, and three translucent
  state dots (green, yellow, red). It writes each at 22 and 44 pixels.
- `scripts/generate-icons.py` draws the app icon set. A column of seven
  rounded "vertebrae" follows an S-curve and shades from a light accent teal
  to the main teal. Two triples of motion arcs flank it. An optional ring sits
  on a dark background. The script writes the app icon, the adaptive icon and
  the splash icon at 1024 pixels, and a 48-pixel favicon resampled from a
  512-pixel render.

The model keeps the drawing surface abstract. A canvas records every drawing
call as a shape record: kind, bounding box, colour, stroke width and arc
angles. It never records pixels.

The files are:

- `drawing.dfy` (module `Drawing`): the shape records, the `Canvas` class
  whose draw methods append to its shape list, and Python's `int()` on a float
  as `Truncate`, which truncates toward zero.
- `menu_bar_icons.dfy` (module `MenuBarIcons`): the template icon, the hex
  colour parser, the state dot and the list of files `main` writes.
- `app_icons.dfy` (module `AppIcons`): the vertebra stack, its colour
  gradient, the motion arcs, the ring, `make_icon` and the job table.

Both scripts change a freshly created image through `ImageDraw` calls.
Accordingly, `CreateTemplateIcon`, `CreateColoredCircle`, `DrawSpineIcon`,
`DrawCircleBg` and `MakeIcon` are methods that draw on `Canvas` objects. Each one is
proved against a function that lists the shapes it draws. The geometric and
colour properties are lemmas about those functions.

`scale` and the fractional factors (0.35, 0.38, 0.015, 0.08, 0.4, 0.66, 0.8,
`t = i / 6`) are exact reals. Python's `//` on non-negative numbers is Dafny's
`/`.

Two behaviours of the code are easy to get wrong:

- **Gradient endpoints.** Inner vertebra channels need not lie strictly
  between the accent and main channels: the code truncates
  `accent + (main - accent) * t`, so an inner channel can equal an endpoint
  when the two channels are close. `AppIcons.GradientMayRepeatEndpoint`
  shows `int(20 + 1 * 1/6) == 20`. The model proves the inclusive bounds
  (`AppIcons.LerpBetween`).
- **Colour string length.** A colour string of the wrong length is not always
  an error: Python slicing clamps to the end of the string, so the code accepts a five-digit string (`MenuBarIcons.FiveDigitsParse`:
  `'#abcde'` gives (171, 205, 14)). It also ignores everything after the
  sixth digit (`MenuBarIcons.ParseColorIgnoresTail`). In the model, only an
  empty field or a non-hex character fails (`MenuBarIcons.ParseColorOkIff`).

## Model

| member | source | states |
|---|---|---|
| Drawing.Truncate | desktop/generate_icons.py:26-28 | `int(x)` truncates toward zero. For x ≥ 0 the result is the largest integer not above x; for negative x it is the smallest integer not below x. |
| Drawing.Canvas.constructor | desktop/generate_icons.py:19-20 | `Image.new` gives a canvas with the requested size, mode and background and nothing drawn on it. |
| Drawing.Canvas.Draw | desktop/generate_icons.py:29-33 | A drawing call puts exactly one shape on top of the ones already drawn and leaves those unchanged. |
| Drawing.Canvas.Paste | scripts/generate-icons.py:63 | `paste` puts the whole layer, as it was at that moment, on top of what the target already shows. |
| MenuBarIcons.CreateTemplateIcon | desktop/generate_icons.py:14-45 | Returns a new 'RGBA' canvas with a fully transparent background. Exactly two shapes are drawn on it: the head ellipse, then the spine rectangle, both filled opaque black. |
| MenuBarIcons.TemplateGeometry | desktop/generate_icons.py:22-43 | At every size, the head box is a square of half-side int(3·scale) about (size//2, int(5·scale)). The spine's top is exactly the head's bottom, its bottom is int(19·scale) and its width is int(2·scale). It is centred under the head to within one pixel, and both boxes lie on the canvas. |
| MenuBarIcons.TemplateAtMultiple | desktop/generate_icons.py:22-43 | At size 22k the scale is exactly k, so every coordinate of both boxes is k times its value at size 22. |
| MenuBarIcons.TemplateShippedSizes | desktop/generate_icons.py:74-75 | The head box is [8,2,14,8] and the spine box [10,8,12,19] at 22 pixels; at 44 pixels both are exactly doubled. |
| MenuBarIcons.StripHashesIsSuffix | desktop/generate_icons.py:55 | `lstrip('#')` leaves a suffix of the input that does not start with '#'. |
| MenuBarIcons.StripHashesRemovesHashes | desktop/generate_icons.py:55 | Every character `lstrip('#')` removes is a '#'. |
| MenuBarIcons.StripLeadingHashes | desktop/generate_icons.py:55 | Stripping n extra leading '#'s gives the same result as stripping without them. |
| MenuBarIcons.StripHashesAppend | desktop/generate_icons.py:55 | When something is left after stripping, appending text to the input appends it to the result. |
| MenuBarIcons.Slice | desktop/generate_icons.py:56 | `s[i:j]` clamps both ends to the string: its length is min(j, len(s)) − min(i, len(s)) and it holds the characters of s from i on. |
| MenuBarIcons.ParseField | desktop/generate_icons.py:56 | A field that parses gives a channel in 0..255. An error names the offset of the field that failed. |
| MenuBarIcons.ParseFieldOkIff | desktop/generate_icons.py:56 | A two-character field parses exactly when it starts inside the string and every character it covers is a hex digit. |
| MenuBarIcons.ParseColor | desktop/generate_icons.py:55-56 | Success gives three channels in 0..255. Failure names field 0, 2 or 4. |
| MenuBarIcons.ParseColorOkIff | desktop/generate_icons.py:55-56 | Parsing succeeds exactly when at least five characters remain after the leading '#'s and the first six of them (or all, if fewer) are hex digits. |
| MenuBarIcons.LeadingHashesIgnored | desktop/generate_icons.py:55 | Any number of leading '#'s leaves the parse unchanged. |
| MenuBarIcons.ParseColorIgnoresTail | desktop/generate_icons.py:56 | Characters after the sixth digit are never read. |
| MenuBarIcons.FiveDigitsParse | desktop/generate_icons.py:55-56 | A five-digit string parses: '#abcde' gives (171, 205, 14). |
| MenuBarIcons.HexByteValue | desktop/generate_icons.py:56 | Reading a channel written as two hex digits gives the channel back. |
| MenuBarIcons.ParseFormatted | desktop/generate_icons.py:55-56 | Parsing inverts formatting: '#rrggbb' parses to (r, g, b) for every three channels. |
| MenuBarIcons.PaletteSpelling | desktop/generate_icons.py:85-89 | The three palette strings are their channels written as hex bytes. |
| MenuBarIcons.PaletteParses | desktop/generate_icons.py:85-89 | '#10b981' parses to (16,185,129), '#f59e0b' to (245,158,11) and '#ef4444' to (239,68,68). |
| MenuBarIcons.CreateColoredCircle | desktop/generate_icons.py:47-67 | Fails exactly when the colour string does not parse, with the parser's error. Otherwise it returns a new transparent 'RGBA' canvas with one ellipse of radius int(size·0.35) about the centre, filled with the parsed colour at alpha 230. |
| MenuBarIcons.DotGeometry | desktop/generate_icons.py:59-64 | At every size the dot's box is a square about (size//2, size//2) of non-negative radius that lies on the canvas. Its fill is exactly the given colour at alpha 230. |
| MenuBarIcons.DotShippedSizes | desktop/generate_icons.py:59 | The dot radius is 7 at 22 pixels and 15 at 44. |
| MenuBarIcons.PaletteEntryParses | desktop/generate_icons.py:85-89 | Every entry of the `colors` dictionary parses, to the channels listed for it. |
| MenuBarIcons.StateIcons | desktop/generate_icons.py:91-95 | One pass of the colour loop: the files `icon-<c>.png` and `icon-<c>@2x.png` hold a dot of 22 and of 44 pixels in the entry's parsed colour. |
| MenuBarIcons.GenerateMenuBarIcons | desktop/generate_icons.py:69-98 | `main` writes exactly eight files, in order: `iconTemplate.png` and `iconTemplate@2x.png` with the template drawing at 22 and 44 pixels, then for green, yellow and red `icon-<c>.png` and `icon-<c>@2x.png` with the dot at 22 and 44 pixels in (16,185,129), (245,158,11) and (239,68,68). It never stops early, since no palette colour fails to parse. |
| AppIcons.Vertebrae | scripts/generate-icons.py:26-37 | The stack has exactly seven vertebrae. |
| AppIcons.LerpBetween | scripts/generate-icons.py:34-36 | A gradient channel is exactly the accent at i = 0 and exactly the main colour at i = 6, and it never leaves the range between the two. |
| AppIcons.BlendBetween | scripts/generate-icons.py:34-36 | int(a + d·t) lies between a and a + d for every fraction t. |
| AppIcons.BlendEnds | scripts/generate-icons.py:34-36 | int(a + d·t) is exactly a at t = 0 and exactly a + d at t = 1. |
| AppIcons.GradientMayRepeatEndpoint | scripts/generate-icons.py:34-36 | An inner channel can equal an endpoint: int(20 + 1·1/6) is 20. |
| AppIcons.LerpMonotone | scripts/generate-icons.py:34-36 | Down the stack each channel moves steadily from the accent towards the main colour and never turns back. |
| AppIcons.BlendMonotone | scripts/generate-icons.py:34-36 | int(a + d·t) grows with t when d ≥ 0 and shrinks with t when d ≤ 0. |
| AppIcons.VertebraGradient | scripts/generate-icons.py:34-36 | The top vertebra has exactly the accent colour and the bottom one exactly the main colour. All seven colours are valid when both inputs are. |
| AppIcons.WidthProfile | scripts/generate-icons.py:29-31 | Vertebrae i and 6 − i have the same width. The middle one takes the full base width int(60·scale). Every width is between 0 and that base, and widths shrink step by step away from the middle. |
| AppIcons.WidthPeak | scripts/generate-icons.py:29-31 | The middle vertebra's width factor is 1, so its width is the base width. |
| AppIcons.WidthBounded | scripts/generate-icons.py:29-31 | Every vertebra width lies between 0 and the base width. |
| AppIcons.WidthNarrowing | scripts/generate-icons.py:29-31 | Below the middle, each vertebra is no wider than the one above it. |
| AppIcons.StackLayout | scripts/generate-icons.py:19-37 | Every vertebra is a rounded rectangle of height int(22·scale) with corner radius int(0.4·h). Each has its own width and is centred to within one pixel on cx plus its sine offset. Neighbours are separated by exactly `gap`. The stack starts at cy − total_height//2, spans 7(h+gap) − gap and is centred on cy to within one pixel. |
| AppIcons.MotionArcs | scripts/generate-icons.py:40-45 | Exactly six arcs are drawn. |
| AppIcons.ArcLayout | scripts/generate-icons.py:40-45 | The k-th left arc runs 140°→220° in the accent colour, with a square box of the k-th radius about (cx − int(100·scale), cy). The k-th right arc runs −40°→40° in the main colour, about (cx + int(100·scale), cy). Both strokes are int(4·scale) wide, and the two arcs mirror each other about cx. |
| AppIcons.LeftArc | scripts/generate-icons.py:40-45 | Arc k (k < 3) is the left-hand arc of radius int(size_k·scale). |
| AppIcons.RightArc | scripts/generate-icons.py:40-45 | Arc k + 3 is the right-hand arc of the same radius. |
| AppIcons.ArcRadiiDecrease | scripts/generate-icons.py:43-44 | The radii satisfy int(140·scale) ≥ int(110·scale) ≥ int(80·scale) ≥ 0. |
| AppIcons.DrawSpineIcon | scripts/generate-icons.py:17-45 | Appends exactly the seven vertebrae, then the three left arcs and the three right arcs, to what the canvas already holds. |
| AppIcons.DrawCircleBg | scripts/generate-icons.py:48-53 | Appends exactly one outlined circle: radius int(size·0.38) about the centre, the brightened background colour, width int(size·0.015). |
| AppIcons.RingColorBounds | scripts/generate-icons.py:51-52 | No ring channel exceeds 255. A valid background gives a valid ring colour that is no darker in any channel. DARK_BG gives (35, 48, 77). |
| AppIcons.RingGeometry | scripts/generate-icons.py:49-53 | The ring's box is a square about (size//2, size//2) that lies on the canvas. Its outline width is between 0 and its radius. |
| AppIcons.RingShippedSizes | scripts/generate-icons.py:50-53 | Radius 389 and width 15 at 1024 pixels; radius 194 and width 7 at 512. |
| AppIcons.MakeIcon | scripts/generate-icons.py:56-64 | Returns a new opaque 'RGB' canvas in DARK_BG. On it is pasted the drawn layer: the ring if asked for, then the spine icon at scale (size/1024)·content_scale about (size//2, size//2). |
| AppIcons.IconLayerOpaque | scripts/generate-icons.py:56-64 | The layer's background and every shape on it are fully opaque valid colours, so the alpha-masked paste copies the whole layer. The ring is the first shape exactly when it is asked for, and no other shape is an outlined ellipse. |
| AppIcons.SpineShapesOpaque | scripts/generate-icons.py:34-45 | Every vertebra and arc paints in a valid, fully opaque colour when the two colours it is given are. |
| AppIcons.ShippedScales | scripts/generate-icons.py:69-73 | The drawing scale is 1.0, 0.66 and 0.8 for the three 1024-pixel icons and 0.5 for the favicon's 512-pixel render. |
| AppIcons.GenerateAppIcons | scripts/generate-icons.py:67-74 | Writes exactly four files, in order: `icon.png` (1024, scale 1.0, ring), `adaptive-icon.png` (1024, 0.66, no ring), `splash-icon.png` (1024, 0.8, no ring), and `favicon.png`, the 512-pixel icon with the ring resampled to 48×48. |

## Left out

- MenuBarIcons.GenerateMenuBarIcons: does not model `main` stopping part-way when a colour fails to parse, because `PaletteEntryParses` shows that every palette colour parses. `CreateColoredCircle` does return the parse error.
- Rasterisation is not modelled. PIL decides which pixels `ellipse`, `rectangle`, `rounded_rectangle` and `arc` cover; the model stops at the shape records handed to PIL.
- Alpha-masked `paste` and LANCZOS `resize` are not modelled. They appear only as the records `Pasted(layer)` and `Resized(picture, 48)`, because compositing and resampling happen inside PIL.
- File output is not modelled: PNG encoding, `save`, `os.makedirs`, path joining and the progress `print`s. `GenerateMenuBarIcons` and `GenerateAppIcons` return the list of files written, each with its picture, instead.
- The horizontal offset `sin(t·π·1.2 − 0.3)·40·scale` is not computed. The parameter `wave` stands for the sine's value at each vertebra, and nothing is proved about it beyond the truncation of `wave(i)·40·scale`.
- Binary floating point is not modelled; the scales and factors are exact reals. For the shipped sizes (22, 44, 512, 1024) the truncated results match.
- `int(s, 16)` also accepts signs, underscores, surrounding whitespace, a `0x` prefix and non-ASCII decimal digits. The parser model treats any character that is not a hex digit as an error.
- AppIcons.LerpBetween: states inclusive bounds; the truncating code does not keep strict ones (see `GradientMayRepeatEndpoint`).

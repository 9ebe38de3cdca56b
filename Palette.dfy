/**
 * The palette page: the scheme dispatcher that derives a palette from a base
 * colour, the pixel pick that maps a click on the displayed canvas to a
 * bitmap position, the fit of an uploaded image into the drawing area, and
 * the page state (base colour, scheme, picked colours).
 */
module Palette {
  import opened Wrappers
  import opened JsMath
  import opened Color

  // ---------------------------------------------------------------------
  // Scheme dispatch
  // ---------------------------------------------------------------------

  /** The schemes the selector offers; any other name falls to `default`. */
  predicate IsHueScheme(scheme: string)
  {
    scheme == "complementary" || scheme == "analogous" || scheme == "triadic" || scheme == "tetradic"
  }

  predicate IsKnownScheme(scheme: string)
  {
    IsHueScheme(scheme) || scheme == "monochromatic"
  }

  /** `rgbToHex(rotateHue(rgb, degrees))`: one derived entry of a hue scheme. */
  function Rotated(rgb: Rgb, degrees: real): (hex: string)
    requires IsByteRgb(rgb)
    ensures IsCanonicalHex(hex)
  {
    var out := RotateHue(rgb, degrees);
    RgbToHexCanonical(out);
    RgbToHex(out)
  }

  /**
   * `generatePalette`. An unparsable colour or an unknown scheme gives the
   * one-element palette `[color]`; otherwise the scheme fixes the length,
   * the position of the input (first for the hue schemes, in the middle for
   * the monochromatic one) and every other entry is a canonical hex colour.
   */
  function GeneratePalette(color: string, scheme: string): (p: seq<string>)
    ensures !IsHexColor(color) || !IsKnownScheme(scheme) ==> p == [color]
    ensures IsHexColor(color) && scheme == "complementary" ==> |p| == 2
    ensures IsHexColor(color) && (scheme == "analogous" || scheme == "triadic") ==> |p| == 3
    ensures IsHexColor(color) && scheme == "tetradic" ==> |p| == 4
    ensures IsHexColor(color) && scheme == "monochromatic" ==> |p| == 5
    ensures IsHexColor(color) && IsHueScheme(scheme) ==>
      p[0] == color && forall i :: 1 <= i < |p| ==> IsCanonicalHex(p[i])
    ensures IsHexColor(color) && scheme == "monochromatic" ==>
      p[2] == color && forall i :: 0 <= i < |p| && i != 2 ==> IsCanonicalHex(p[i])
  {
    match HexToRgb(color)
    case None => [color]
    case Some(rgb) =>
      if IsHueScheme(scheme) then HuePalette(color, rgb, scheme)
      else if scheme == "monochromatic" then Monochromatic(color)
      else [color]
  }

  /** The four hue schemes: the input first, then rotations of its hue. */
  function HuePalette(color: string, rgb: Rgb, scheme: string): (p: seq<string>)
    requires IsByteRgb(rgb) && IsHueScheme(scheme)
    ensures |p| == (if scheme == "complementary" then 2 else if scheme == "tetradic" then 4 else 3)
    ensures p[0] == color && forall i :: 1 <= i < |p| ==> IsCanonicalHex(p[i])
  {
    if scheme == "complementary" then
      var c := ComplementaryColor(rgb);
      RgbToHexCanonical(c);
      [color, RgbToHex(c)]
    else if scheme == "analogous" then
      [color] + Rotations(rgb, [30.0, -30.0])
    else if scheme == "triadic" then
      [color] + Rotations(rgb, [120.0, 240.0])
    else
      [color] + Rotations(rgb, [90.0, 180.0, 270.0])
  }

  /** The colour rotated by each of the given angles, in order. */
  function Rotations(rgb: Rgb, angles: seq<real>): (hs: seq<string>)
    requires IsByteRgb(rgb)
    ensures |hs| == |angles|
    ensures forall i :: 0 <= i < |hs| ==> hs[i] == Rotated(rgb, angles[i]) && IsCanonicalHex(hs[i])
  {
    seq(|angles|, i requires 0 <= i < |angles| => Rotated(rgb, angles[i]))
  }

  /** The monochromatic scheme: two lighter shades, the input, two darker shades. */
  function Monochromatic(color: string): (p: seq<string>)
    requires IsHexColor(color)
    ensures |p| == 5 && p[2] == color
    ensures forall i :: 0 <= i < |p| && i != 2 ==> IsCanonicalHex(p[i])
  {
    Lightened(color, [0.3, 0.15]) + [color] + Darkened(color, [0.15, 0.3])
  }

  /** The colour lightened by each of the given amounts, in order. */
  function Lightened(color: string, amounts: seq<real>): (hs: seq<string>)
    requires IsHexColor(color)
    requires forall i :: 0 <= i < |amounts| ==> amounts[i] >= 0.0
    ensures |hs| == |amounts|
    ensures forall i :: 0 <= i < |hs| ==> hs[i] == LightenColor(color, amounts[i]) && IsCanonicalHex(hs[i])
  {
    seq(|amounts|, i requires 0 <= i < |amounts| => LightenColor(color, amounts[i]))
  }

  /** The colour darkened by each of the given amounts, in order. */
  function Darkened(color: string, amounts: seq<real>): (hs: seq<string>)
    requires IsHexColor(color)
    requires forall i :: 0 <= i < |amounts| ==> amounts[i] >= 0.0
    ensures |hs| == |amounts|
    ensures forall i :: 0 <= i < |hs| ==> hs[i] == DarkenColor(color, amounts[i]) && IsCanonicalHex(hs[i])
  {
    seq(|amounts|, i requires 0 <= i < |amounts| => DarkenColor(color, amounts[i]))
  }

  /** A canonical hex string is one the parser accepts. */
  lemma CanonicalIsHexColor(s: string)
    requires IsCanonicalHex(s)
    ensures IsHexColor(s)
  {
    assert forall i :: 0 <= i < 6 ==> s[1..][i] == s[i + 1];
  }

  /** Every entry of a palette is itself a colour the page accepts as a base colour. */
  lemma PaletteEntriesParse(color: string, scheme: string, i: int)
    requires IsHexColor(color)
    requires 0 <= i < |GeneratePalette(color, scheme)|
    ensures IsHexColor(GeneratePalette(color, scheme)[i])
  {
    var p := GeneratePalette(color, scheme);
    if p[i] != color {
      CanonicalIsHexColor(p[i]);
    }
  }

  /** The tetradic palette's opposite corner is the complementary colour. */
  lemma TetradicHoldsComplement(color: string)
    requires IsHexColor(color)
    ensures GeneratePalette(color, "tetradic")[2] == GeneratePalette(color, "complementary")[1]
  {
  }

  /**
   * The triadic palette is symmetric: its last entry is the rotation the
   * other way round, by -120 degrees.
   */
  lemma TriadicWrapsAround(color: string)
    requires IsHexColor(color)
    ensures var rgb := HexToRgb(color).value;
      GeneratePalette(color, "triadic")[2] == Rotated(rgb, -120.0)
  {
    var rgb := HexToRgb(color).value;
    assert GeneratePalette(color, "triadic") == HuePalette(color, rgb, "triadic");
    assert -120.0 + Turns(1) == 240.0;
    RotateHuePeriodic(rgb, -120.0, 1);
  }

  /** The tetradic palette's last entry is the rotation by -90 degrees. */
  lemma TetradicWrapsAround(color: string)
    requires IsHexColor(color)
    ensures var rgb := HexToRgb(color).value;
      GeneratePalette(color, "tetradic")[3] == Rotated(rgb, -90.0)
  {
    var rgb := HexToRgb(color).value;
    assert GeneratePalette(color, "tetradic") == HuePalette(color, rgb, "tetradic");
    assert -90.0 + Turns(1) == 270.0;
    RotateHuePeriodic(rgb, -90.0, 1);
  }

  // ---------------------------------------------------------------------
  // Canvas pick and image fit
  // ---------------------------------------------------------------------

  type Byte = x: int | 0 <= x < 256

  /**
   * The drawing canvas as the pick sees it: its bitmap size, its displayed
   * bounding box, and the pixel read (`getImageData(x, y, 1, 1)`), which
   * yields the red, green and blue bytes of the pixel at a bitmap position.
   */
  /**
   * The canvas element: its bitmap size, its bounding box on screen, whether
   * `getContext('2d')` yields a context, and the pixels that context reads.
   */
  datatype Canvas = Canvas(
    width: nat, height: nat,
    left: real, top: real, boxWidth: real, boxHeight: real,
    hasContext: bool,
    pixel: (int, int) -> (Byte, Byte, Byte))

  /** There is a canvas and it has a 2D context to read pixels from. */
  predicate Readable(canvas: Option<Canvas>)
  {
    canvas.Some? && canvas.value.hasContext
  }

  /** A canvas on screen has a bounding box of positive size. */
  predicate Displayed(c: Canvas)
  {
    c.boxWidth > 0.0 && c.boxHeight > 0.0
  }

  /** `PickedColor`: a colour read from the canvas with its bitmap position. */
  datatype PickedColor = PickedColor(hex: string, rgb: Rgb, hsl: Hsl, x: int, y: int)

  /** Horizontal bitmap position of a client coordinate: `floor((x - left) * width / boxWidth)`. */
  function CanvasX(c: Canvas, x: real): int
    requires Displayed(c)
  {
    ((x - c.left) * (c.width as real / c.boxWidth)).Floor
  }

  function CanvasY(c: Canvas, y: real): int
    requires Displayed(c)
  {
    ((y - c.top) * (c.height as real / c.boxHeight)).Floor
  }

  /**
   * `getColorAtPosition`: `None` when there is no canvas or no 2D context.
   * Otherwise the picked colour is the pixel at the mapped position, its hex
   * is canonical and parses back to it, and its HSL is that colour's HSL, in
   * range.
   */
  function GetColorAtPosition(canvas: Option<Canvas>, x: real, y: real): (r: Option<PickedColor>)
    requires canvas.Some? ==> Displayed(canvas.value)
    ensures r.Some? <==> Readable(canvas)
    ensures r.Some? ==>
      var cx, cy := CanvasX(canvas.value, x), CanvasY(canvas.value, y);
      var (pr, pg, pb) := canvas.value.pixel(cx, cy);
      r.value.x == cx && r.value.y == cy && r.value.rgb == Rgb(pr, pg, pb) &&
      IsCanonicalHex(r.value.hex) && HexToRgb(r.value.hex) == Some(r.value.rgb) &&
      r.value.hsl == RgbToHsl(r.value.rgb) && InHslRange(r.value.hsl)
  {
    match canvas
    case None => None
    case Some(c) =>
      if !c.hasContext then None else
      var cx, cy := CanvasX(c, x), CanvasY(c, y);
      var (pr, pg, pb) := c.pixel(cx, cy);
      var rgb := Rgb(pr, pg, pb);
      RgbToHexCanonical(rgb);
      HexRoundTrip(rgb);
      RgbToHslRange(rgb);
      Some(PickedColor(RgbToHex(rgb), rgb, RgbToHsl(rgb), cx, cy))
  }

  /** A click inside the displayed box lands on a pixel of the bitmap. */
  lemma PickInsideBox(c: Canvas, x: real, y: real)
    requires Displayed(c) && c.width > 0 && c.height > 0
    requires c.left <= x < c.left + c.boxWidth
    requires c.top <= y < c.top + c.boxHeight
    ensures 0 <= CanvasX(c, x) < c.width
    ensures 0 <= CanvasY(c, y) < c.height
  {
    ScaleIntoRange(x - c.left, c.boxWidth, c.width as real);
    ScaleIntoRange(y - c.top, c.boxHeight, c.height as real);
  }

  /** An offset in [0, box) scaled by `size / box` lies in [0, size). */
  lemma ScaleIntoRange(offset: real, box: real, size: real)
    requires 0.0 <= offset < box && 0.0 < size
    ensures 0.0 <= offset * (size / box) < size
  {
    var k := size / box;
    assert box * k == size;
    MulNonneg(offset, k);
    MulPos(box - offset, k);
  }

  /**
   * `drawImageOnCanvas`: shrink the image to the container's width, then to
   * the maximum height of 600, keeping its aspect ratio; never enlarge it.
   */
  method FitImage(imageWidth: real, imageHeight: real, maxWidth: real) returns (width: real, height: real)
    requires imageWidth >= 0.0 && imageHeight >= 0.0 && maxWidth >= 0.0
    ensures width <= maxWidth && height <= 600.0
    ensures 0.0 <= width <= imageWidth && 0.0 <= height <= imageHeight
    ensures width * imageHeight == height * imageWidth
    ensures imageWidth <= maxWidth && imageHeight <= 600.0 ==> width == imageWidth && height == imageHeight
    ensures (width == imageWidth && height == imageHeight) || width == maxWidth || height == 600.0
  {
    var maxHeight := 600.0;
    width := imageWidth;
    height := imageHeight;
    if width > maxWidth {
      height := Rescale(height, maxWidth, width);
      assert height * imageWidth == maxWidth * imageHeight;
      width := maxWidth;
    }
    if height > maxHeight {
      var w := Rescale(width, maxHeight, height);
      RescaleKeepsRatio(width, height, imageWidth, imageHeight, maxHeight);
      width := w;
      height := maxHeight;
    }
  }

  /** `(x * target) / current` for a target below the current size shrinks x. */
  function Rescale(x: real, target: real, current: real): (r: real)
    requires 0.0 <= x && 0.0 <= target < current
    ensures 0.0 <= r <= x
    ensures r * current == x * target
  {
    var r := (x * target) / current;
    assert r * current == x * target;
    MulNonneg(x, target);
    MulNonneg(x, current - target);
    r
  }

  /** Rescaling both sides of a ratio keeps it. */
  lemma RescaleKeepsRatio(w: real, h: real, iw: real, ih: real, target: real)
    requires 0.0 <= w && 0.0 <= target < h
    requires w * ih == h * iw
    ensures Rescale(w, target, h) * ih == target * iw
  {
    var r := Rescale(w, target, h);
    assert r * h * ih == w * target * ih;
    assert r * ih * h == target * iw * h;
  }

  // ---------------------------------------------------------------------
  // The picked-colour list and the page state
  // ---------------------------------------------------------------------

  /** `list.filter((_, i) => i !== index)`. */
  function RemoveAt<T>(list: seq<T>, index: int): (r: seq<T>)
    ensures 0 <= index < |list| ==> r == list[..index] + list[index + 1..]
    ensures !(0 <= index < |list|) ==> r == list
  {
    if list == [] then []
    else
      var last := |list| - 1;
      var front := RemoveAt(list[..last], index);
      if last == index then front else front + [list[last]]
  }

  /** The ten colours of the "random colour" button. */
  const RandomColors: seq<string> := [
    "#3b82f6", "#ef4444", "#10b981", "#f59e0b", "#8b5cf6",
    "#ec4899", "#06b6d4", "#84cc16", "#f97316", "#6366f1"]

  /** A position inside the canvas box, in CSS pixels. */
  datatype Offset = Offset(x: real, y: real)

  /** The palette page's state hooks, in declaration order, as one value. */
  datatype PageState = PageState(
    baseColor: string,
    scheme: string,
    copiedColor: Option<string>,
    imageSrc: Option<string>,
    pickedColors: seq<PickedColor>,
    showMagnifier: bool,
    magnifierPos: Offset,
    magnifierColor: string)

  /** The state of the palette page. */
  class PalettePage {
    var baseColor: string
    var scheme: string
    var copiedColor: Option<string>
    var imageSrc: Option<string>
    var pickedColors: seq<PickedColor>
    var showMagnifier: bool
    var magnifierPos: Offset
    var magnifierColor: string

    function Snapshot(): PageState
      reads this
    {
      PageState(baseColor, scheme, copiedColor, imageSrc, pickedColors, showMagnifier, magnifierPos, magnifierColor)
    }

    constructor ()
      ensures Snapshot() == PageState("#3b82f6", "complementary", None, None, [], false, Offset(0.0, 0.0), "#000000")
    {
      baseColor := "#3b82f6";
      scheme := "complementary";
      copiedColor := None;
      imageSrc := None;
      pickedColors := [];
      showMagnifier := false;
      magnifierPos := Offset(0.0, 0.0);
      magnifierColor := "#000000";
    }

    /** The palette shown for the current base colour and scheme. */
    method Shown() returns (p: seq<string>)
      ensures p == GeneratePalette(baseColor, scheme) && |p| >= 1
    {
      p := GeneratePalette(baseColor, scheme);
    }

    /** The colour inputs and the palette cards set the base colour. */
    method SetBaseColor(color: string)
      modifies this
      ensures Snapshot() == old(Snapshot()).(baseColor := color)
    {
      baseColor := color;
    }

    method SetScheme(s: string)
      modifies this
      ensures Snapshot() == old(Snapshot()).(scheme := s)
    {
      scheme := s;
    }

    /** `randomColor`, with the random draw `Math.floor(Math.random() * 10)` as `draw`. */
    method RandomColor(draw: nat)
      requires draw < |RandomColors|
      modifies this
      ensures Snapshot() == old(Snapshot()).(baseColor := RandomColors[draw])
      ensures IsHexColor(baseColor)
    {
      baseColor := RandomColors[draw];
      assert IsCanonicalHex(baseColor);
      CanonicalIsHexColor(baseColor);
    }

    /**
     * `copyToClipboard` once the clipboard write has settled: `written` says
     * whether it resolved. Only a successful copy marks the colour as copied.
     */
    method CopyToClipboard(color: string, written: bool)
      modifies this
      ensures Snapshot() == if written then old(Snapshot()).(copiedColor := Some(color)) else old(Snapshot())
    {
      if written {
        copiedColor := Some(color);
      }
    }

    /** The timer set by a successful copy clears the copied mark. */
    method CopiedTimeout()
      modifies this
      ensures Snapshot() == old(Snapshot()).(copiedColor := None)
    {
      copiedColor := None;
    }

    /** A new image (uploaded or pasted) replaces the old one and empties the list. */
    method LoadImage(src: string)
      modifies this
      ensures Snapshot() == old(Snapshot()).(imageSrc := Some(src), pickedColors := [])
    {
      imageSrc := Some(src);
      pickedColors := [];
    }

    /** The "Clear" button drops the image and the list. */
    method ClearImage()
      modifies this
      ensures Snapshot() == old(Snapshot()).(imageSrc := None, pickedColors := [])
    {
      imageSrc := None;
      pickedColors := [];
    }

    /**
     * `handleCanvasClick`: a successful pick is appended to the list and
     * becomes the base colour; without a canvas or its context nothing changes.
     */
    method CanvasClick(canvas: Option<Canvas>, x: real, y: real)
      requires canvas.Some? ==> Displayed(canvas.value)
      modifies this
      ensures !Readable(canvas) ==> Snapshot() == old(Snapshot())
      ensures Readable(canvas) ==>
        var picked := GetColorAtPosition(canvas, x, y).value;
        Snapshot() == old(Snapshot()).(pickedColors := old(pickedColors) + [picked], baseColor := picked.hex) &&
        IsHexColor(baseColor)
    {
      var color := GetColorAtPosition(canvas, x, y);
      if color.Some? {
        pickedColors := pickedColors + [color.value];
        baseColor := color.value.hex;
        CanonicalIsHexColor(baseColor);
      }
    }

    /**
     * `handleCanvasMouseMove`: a successful pick shows its hex in the
     * magnifier, placed at the pointer's offset in the canvas box.
     */
    method CanvasMouseMove(canvas: Option<Canvas>, x: real, y: real)
      requires canvas.Some? ==> Displayed(canvas.value)
      modifies this
      ensures !Readable(canvas) ==> Snapshot() == old(Snapshot())
      ensures Readable(canvas) ==>
        Snapshot() == old(Snapshot()).(magnifierColor := GetColorAtPosition(canvas, x, y).value.hex,
                                       magnifierPos := Offset(x - canvas.value.left, y - canvas.value.top))
    {
      var color := GetColorAtPosition(canvas, x, y);
      if color.Some? {
        magnifierColor := color.value.hex;
        magnifierPos := Offset(x - canvas.value.left, y - canvas.value.top);
      }
    }

    /** The image container's mouse-enter and mouse-leave show and hide the magnifier. */
    method SetShowMagnifier(show: bool)
      modifies this
      ensures Snapshot() == old(Snapshot()).(showMagnifier := show)
    {
      showMagnifier := show;
    }

    /** `removePickedColor`: drop entry `index`, keep the others in order. */
    method RemovePickedColor(index: int)
      modifies this
      ensures Snapshot() == old(Snapshot()).(pickedColors := RemoveAt(old(pickedColors), index))
    {
      pickedColors := RemoveAt(pickedColors, index);
    }

    /** `usePickedColor`: the picked colour's hex becomes the base colour. */
    method UsePickedColor(color: PickedColor)
      modifies this
      ensures Snapshot() == old(Snapshot()).(baseColor := color.hex)
    {
      baseColor := color.hex;
    }
  }
}

/**
 * The colour utilities of the palette page: the six-digit hex notation
 * `#RRGGBB` with the `#` optional (parse and serialise), the RGB <-> HSL
 * conversions with the classic piecewise `hue2rgb` helper, hue rotation,
 * and the lighten / darken helpers.
 *
 * The arithmetic is over exact reals; `Math.round` is `floor(x + 0.5)`.
 * Channels are integers; a "byte" colour has every channel in [0, 255].
 */
module Color {
  import opened Wrappers
  import opened JsMath
  import Text

  datatype Rgb = Rgb(r: int, g: int, b: int)
  datatype Hsl = Hsl(h: real, s: real, l: real)

  predicate IsChannel(x: int)
  {
    0 <= x <= 255
  }

  predicate IsByteRgb(c: Rgb)
  {
    IsChannel(c.r) && IsChannel(c.g) && IsChannel(c.b)
  }

  /** Hue in degrees in [0, 360), saturation and lightness as percentages. */
  predicate InHslRange(c: Hsl)
  {
    0.0 <= c.h < 360.0 && 0.0 <= c.s <= 100.0 && 0.0 <= c.l <= 100.0
  }

  // ---------------------------------------------------------------------
  // Hex notation
  // ---------------------------------------------------------------------

  /** `[a-f\d]` under the `i` flag. */
  predicate IsHexDigit(c: char)
  {
    '0' <= c <= '9' || 'a' <= c <= 'f' || 'A' <= c <= 'F'
  }

  predicate IsLowerHexDigit(c: char)
  {
    '0' <= c <= '9' || 'a' <= c <= 'f'
  }

  predicate AllHex(s: string)
  {
    forall i :: 0 <= i < |s| ==> IsHexDigit(s[i])
  }

  /** What `/^#?([a-f\d]{2})([a-f\d]{2})([a-f\d]{2})$/i` accepts. */
  predicate IsHexColor(s: string)
  {
    (|s| == 6 && AllHex(s)) || (|s| == 7 && s[0] == '#' && AllHex(s[1..]))
  }

  /** The canonical serialisation: `#` and six lower-case hex digits. */
  predicate IsCanonicalHex(s: string)
  {
    |s| == 7 && s[0] == '#' && forall i :: 1 <= i < 7 ==> IsLowerHexDigit(s[i])
  }

  /** The six digits of an accepted colour, without the optional `#`. */
  function DigitsOf(s: string): (d: string)
    requires IsHexColor(s)
    ensures |d| == 6 && AllHex(d)
  {
    if |s| == 7 then s[1..] else s
  }

  function HexValue(c: char): (v: nat)
    requires IsHexDigit(c)
    ensures v < 16
  {
    if '0' <= c <= '9' then c as int - '0' as int
    else if 'a' <= c <= 'f' then c as int - 'a' as int + 10
    else c as int - 'A' as int + 10
  }

  function HexChar(d: nat): (c: char)
    requires d < 16
    ensures IsLowerHexDigit(c) && IsHexDigit(c) && HexValue(c) == d
  {
    if d < 10 then ('0' as int + d) as char else ('a' as int + d - 10) as char
  }

  /** `parseInt(d[i..i+2], 16)` for two hex digits. */
  function PairValue(d: string, i: nat): (v: int)
    requires i + 1 < |d| && IsHexDigit(d[i]) && IsHexDigit(d[i + 1])
    ensures IsChannel(v)
  {
    16 * HexValue(d[i]) + HexValue(d[i + 1])
  }

  /** `hexToRgb`: `None` stands for the source's `null`. */
  function HexToRgb(hex: string): (r: Option<Rgb>)
    ensures r.Some? <==> IsHexColor(hex)
    ensures r.Some? ==> IsByteRgb(r.value)
  {
    var digits := if |hex| == 7 && hex[0] == '#' then hex[1..] else hex;
    if |digits| == 6 && AllHex(digits) then
      Some(Rgb(PairValue(digits, 0), PairValue(digits, 2), PairValue(digits, 4)))
    else
      None
  }

  /** `n.toString(16)` for a natural number: lower-case digits, no leading zero. */
  function HexOfNat(n: nat): (s: string)
    ensures |s| >= 1
    ensures forall i :: 0 <= i < |s| ==> IsLowerHexDigit(s[i])
    ensures n < 16 <==> |s| == 1
    ensures n < 256 ==> |s| <= 2
  {
    if n < 16 then [HexChar(n)] else HexOfNat(n / 16) + [HexChar(n % 16)]
  }

  /** `n.toString(16)` for any integer: a minus sign before the digits when negative. */
  function IntToHex(n: int): (s: string)
    ensures |s| >= 1
    ensures s[0] == '-' <==> n < 0
    ensures forall i :: (if n < 0 then 1 else 0) <= i < |s| ==> IsLowerHexDigit(s[i])
  {
    if n < 0 then "-" + HexOfNat(-n) else HexOfNat(n)
  }

  /**
   * One channel of `rgbToHex`: `Math.round(x).toString(16)`, padded with a
   * `0` when it has one character. Every caller passes an integer, for which
   * `Math.round` is the identity.
   */
  function ChannelHex(x: int): (h: string)
    ensures |h| >= 2
    ensures IsChannel(x) ==> |h| == 2
  {
    var h := IntToHex(x);
    if |h| == 1 then "0" + h else h
  }

  /**
   * `rgbToHex`: `#` and the three padded channels. A byte colour gives
   * exactly seven characters (see `RgbToHexCanonical` for their digits).
   */
  function RgbToHex(c: Rgb): (h: string)
    ensures |h| >= 7 && h[0] == '#'
    ensures IsByteRgb(c) ==> |h| == 7
  {
    "#" + ChannelHex(c.r) + ChannelHex(c.g) + ChannelHex(c.b)
  }

  /** A byte channel serialises as two lower-case digits that read back as it. */
  lemma ChannelHexOfByte(x: int)
    requires IsChannel(x)
    ensures ChannelHex(x) == [HexChar(x / 16), HexChar(x % 16)]
  {
    if x >= 16 {
      assert HexOfNat(x) == HexOfNat(x / 16) + [HexChar(x % 16)];
      assert HexOfNat(x / 16) == [HexChar(x / 16)];
    }
  }

  /** A channel outside [0, 255] does not serialise as two hex digits. */
  lemma ChannelHexOutOfRange(x: int)
    requires !IsChannel(x)
    ensures var h := ChannelHex(x);
      |h| != 2 || !IsLowerHexDigit(h[0])
  {
    if x > 255 {
      assert HexOfNat(x) == HexOfNat(x / 16) + [HexChar(x % 16)];
    }
  }

  /** Byte colours serialise as `#` followed by each channel's two digits. */
  lemma RgbToHexOfByte(c: Rgb)
    requires IsByteRgb(c)
    ensures RgbToHex(c) == ['#', HexChar(c.r / 16), HexChar(c.r % 16), HexChar(c.g / 16),
                            HexChar(c.g % 16), HexChar(c.b / 16), HexChar(c.b % 16)]
  {
    ChannelHexOfByte(c.r);
    ChannelHexOfByte(c.g);
    ChannelHexOfByte(c.b);
    Concat222(ChannelHex(c.r), ChannelHex(c.g), ChannelHex(c.b));
  }

  lemma Concat222(a: string, b: string, d: string)
    requires |a| == 2 && |b| == 2 && |d| == 2
    ensures "#" + a + b + d == ['#', a[0], a[1], b[0], b[1], d[0], d[1]]
  {
  }

  /** `rgbToHex` is canonical exactly on byte colours. */
  lemma RgbToHexCanonical(c: Rgb)
    ensures IsCanonicalHex(RgbToHex(c)) <==> IsByteRgb(c)
  {
    if IsByteRgb(c) {
      RgbToHexOfByte(c);
    } else {
      if !IsChannel(c.r) {
        ChannelHexOutOfRange(c.r);
      } else if !IsChannel(c.g) {
        ChannelHexOutOfRange(c.g);
      } else {
        ChannelHexOutOfRange(c.b);
      }
      NotCanonicalConcat(ChannelHex(c.r), ChannelHex(c.g), ChannelHex(c.b));
    }
  }

  /** Three channel strings of which one is not two lower-case digits do not make a canonical colour. */
  lemma NotCanonicalConcat(a: string, b: string, d: string)
    requires |a| >= 2 && |b| >= 2 && |d| >= 2
    requires !(|a| == 2 && |b| == 2 && |d| == 2 &&
               IsLowerHexDigit(a[0]) && IsLowerHexDigit(b[0]) && IsLowerHexDigit(d[0]))
    ensures !IsCanonicalHex("#" + a + b + d)
  {
    var s := "#" + a + b + d;
    if |s| == 7 {
      assert s[1] == a[0] && s[3] == b[0] && s[5] == d[0];
    }
  }

  /** Serialising a byte colour and parsing it back gives the colour. */
  lemma HexRoundTrip(c: Rgb)
    requires IsByteRgb(c)
    ensures HexToRgb(RgbToHex(c)) == Some(c)
  {
    RgbToHexOfByte(c);
    ParseByteDigits(RgbToHex(c), c);
  }

  lemma ParseByteDigits(s: string, c: Rgb)
    requires IsByteRgb(c)
    requires s == ['#', HexChar(c.r / 16), HexChar(c.r % 16), HexChar(c.g / 16),
                   HexChar(c.g % 16), HexChar(c.b / 16), HexChar(c.b % 16)]
    ensures HexToRgb(s) == Some(c)
  {
    assert s[1..] == ByteDigits(c);
    ByteDigitsReadBack(c);
    HexToRgbWithHash(s);
  }

  /** The six digits `rgbToHex` writes for a byte colour. */
  function ByteDigits(c: Rgb): string
    requires IsByteRgb(c)
  {
    [HexChar(c.r / 16), HexChar(c.r % 16), HexChar(c.g / 16),
     HexChar(c.g % 16), HexChar(c.b / 16), HexChar(c.b % 16)]
  }

  lemma ByteDigitsReadBack(c: Rgb)
    requires IsByteRgb(c)
    ensures AllHex(ByteDigits(c))
    ensures PairValue(ByteDigits(c), 0) == c.r && PairValue(ByteDigits(c), 2) == c.g
    ensures PairValue(ByteDigits(c), 4) == c.b
  {
    var d := ByteDigits(c);
    DigitsReadBack(d, 0, c.r);
    DigitsReadBack(d, 2, c.g);
    DigitsReadBack(d, 4, c.b);
  }

  /** A `#` and six hex digits parse pair by pair. */
  lemma HexToRgbWithHash(s: string)
    requires |s| == 7 && s[0] == '#' && AllHex(s[1..])
    ensures HexToRgb(s) == Some(Rgb(PairValue(s[1..], 0), PairValue(s[1..], 2), PairValue(s[1..], 4)))
  {
  }

  /** Two digits written for a byte read back as that byte. */
  lemma DigitsReadBack(d: string, i: nat, x: int)
    requires IsChannel(x) && i + 1 < |d|
    requires d[i] == HexChar(x / 16) && d[i + 1] == HexChar(x % 16)
    ensures PairValue(d, i) == x
  {
  }

  /**
   * Parsing an accepted string and serialising the result gives its digits
   * in lower case behind a `#`: the parse loses nothing but letter case and
   * the optional `#`.
   */
  lemma HexCanonicalForm(s: string)
    requires IsHexColor(s)
    ensures RgbToHex(HexToRgb(s).value) == "#" + Text.Lower(DigitsOf(s))
  {
    var d := DigitsOf(s);
    var c := HexToRgb(s).value;
    assert c == Rgb(PairValue(d, 0), PairValue(d, 2), PairValue(d, 4));
    RgbToHexOfByte(c);
    LowerDigits(RgbToHex(c), d);
  }

  /** The serialisation of the channels read from six digits is those digits, lower-cased. */
  lemma LowerDigits(t: string, d: string)
    requires |d| == 6 && AllHex(d)
    requires t == ['#', HexChar(PairValue(d, 0) / 16), HexChar(PairValue(d, 0) % 16),
                   HexChar(PairValue(d, 2) / 16), HexChar(PairValue(d, 2) % 16),
                   HexChar(PairValue(d, 4) / 16), HexChar(PairValue(d, 4) % 16)]
    ensures t == "#" + Text.Lower(d)
  {
    PairDigits(d, 0);
    PairDigits(d, 2);
    PairDigits(d, 4);
    var l := Text.LowerChar;
    assert "#" + Text.Lower(d) == ['#', l(d[0]), l(d[1]), l(d[2]), l(d[3]), l(d[4]), l(d[5])];
  }

  /** The two digits written for a pair of hex digits read as a channel are that pair, lower-cased. */
  lemma PairDigits(d: string, i: nat)
    requires i + 1 < |d| && IsHexDigit(d[i]) && IsHexDigit(d[i + 1])
    ensures HexChar(PairValue(d, i) / 16) == Text.LowerChar(d[i])
    ensures HexChar(PairValue(d, i) % 16) == Text.LowerChar(d[i + 1])
  {
    var hi, lo := HexValue(d[i]), HexValue(d[i + 1]);
    assert PairValue(d, i) / 16 == hi && PairValue(d, i) % 16 == lo;
    LowerHexDigitUnique(HexChar(hi), Text.LowerChar(d[i]), hi);
    LowerHexDigitUnique(HexChar(lo), Text.LowerChar(d[i + 1]), lo);
  }

  /** A lower-case hex digit is determined by its value. */
  lemma LowerHexDigitUnique(a: char, b: char, v: nat)
    requires IsLowerHexDigit(a) && IsLowerHexDigit(b)
    requires HexValue(a) == v && HexValue(b) == v
    ensures a == b
  {
  }

  // ---------------------------------------------------------------------
  // RGB <-> HSL
  // ---------------------------------------------------------------------

  /**
   * `rgbToHsl`. The source divides by `2 - max - min` or `max + min`, which
   * is well defined because every caller passes a byte colour.
   */
  function RgbToHsl(c: Rgb): (hsl: Hsl)
    requires IsByteRgb(c)
    ensures 0.0 <= hsl.l <= 100.0
    ensures c.r == c.g == c.b ==> hsl.h == 0.0 && hsl.s == 0.0
  {
    var r := c.r as real / 255.0;
    var g := c.g as real / 255.0;
    var b := c.b as real / 255.0;
    var max := Max(r, Max(g, b));
    var min := Min(r, Min(g, b));
    var l := (max + min) / 2.0;
    if max == min then
      Hsl(0.0, 0.0, l * 100.0)
    else
      Hsl(HueFraction(r, g, b) * 360.0, SaturationFraction(max, min) * 100.0, l * 100.0)
  }

  /** The saturation of `rgbToHsl` as a fraction, for a chromatic colour: in (0, 1]. */
  function SaturationFraction(max: real, min: real): (s: real)
    requires 0.0 <= min < max <= 1.0
    ensures 0.0 < s <= 1.0
  {
    var d := max - min;
    if (max + min) / 2.0 > 0.5 then
      DivUnit(d, 2.0 - max - min);
      d / (2.0 - max - min)
    else
      DivUnit(d, max + min);
      d / (max + min)
  }

  /** The hue of `rgbToHsl` as a fraction of a turn, for a chromatic colour: in [0, 1). */
  function HueFraction(r: real, g: real, b: real): (h: real)
    requires Max(r, Max(g, b)) != Min(r, Min(g, b))
    ensures 0.0 <= h < 1.0
  {
    var max := Max(r, Max(g, b));
    var d := max - Min(r, Min(g, b));
    if max == r then
      DivSigned(g - b, d);
      ((g - b) / d + (if g < b then 6.0 else 0.0)) / 6.0
    else if max == g then
      DivSigned(b - r, d);
      ((b - r) / d + 2.0) / 6.0
    else
      DivSigned(r - g, d);
      ((r - g) / d + 4.0) / 6.0
  }

  /** `x / y` for 0 <= x <= y lies in [0, 1], and is positive when x is. */
  lemma DivUnit(x: real, y: real)
    requires 0.0 <= x <= y && 0.0 < y
    ensures 0.0 <= x / y <= 1.0
    ensures 0.0 < x ==> 0.0 < x / y
  {
  }

  /** `x / y` for |x| <= y lies in [-1, 1], with the sign of x. */
  lemma DivSigned(x: real, y: real)
    requires -y <= x <= y && 0.0 < y
    ensures -1.0 <= x / y <= 1.0
    ensures x < 0.0 ==> x / y < 0.0
    ensures x >= 0.0 ==> x / y >= 0.0
  {
    if x >= 0.0 {
      DivUnit(x, y);
    } else {
      DivUnit(-x, y);
      assert (-x) / y == -(x / y);
    }
  }

  /**
   * `rgbToHsl` lands in range: hue in [0, 360), saturation and lightness in
   * [0, 100]; saturation is 0 exactly on greys, whose hue is 0.
   */
  lemma RgbToHslRange(c: Rgb)
    requires IsByteRgb(c)
    ensures InHslRange(RgbToHsl(c))
    ensures RgbToHsl(c).s == 0.0 <==> c.r == c.g == c.b
    ensures c.r == c.g == c.b ==> RgbToHsl(c).h == 0.0
  {
    SaturationRange(c);
    HueRange(c);
  }

  lemma SaturationRange(c: Rgb)
    requires IsByteRgb(c)
    ensures var hsl := RgbToHsl(c);
      0.0 <= hsl.s <= 100.0 && 0.0 <= hsl.l <= 100.0 && (hsl.s == 0.0 <==> c.r == c.g == c.b)
  {
    UnitFraction(c.r, c.g);
    UnitFraction(c.g, c.b);
    UnitFraction(c.r, c.b);
  }

  /** Channels divided by 255 lie in [0, 1] and are equal only for equal channels. */
  lemma UnitFraction(x: int, y: int)
    requires IsChannel(x) && IsChannel(y)
    ensures 0.0 <= x as real / 255.0 <= 1.0 && 0.0 <= y as real / 255.0 <= 1.0
    ensures x as real / 255.0 == y as real / 255.0 <==> x == y
  {
  }

  lemma HueRange(c: Rgb)
    requires IsByteRgb(c)
    ensures var hsl := RgbToHsl(c);
      0.0 <= hsl.h < 360.0 && (c.r == c.g == c.b ==> hsl.h == 0.0)
  {
  }

  /**
   * The piecewise-linear `hue2rgb` helper of `hslToRgb`. Equal pivots give
   * that pivot for every hue; `Hue2RgbBetween` bounds the general case.
   */
  function Hue2Rgb(p: real, q: real, t: real): (v: real)
    ensures p == q ==> v == p
  {
    var t1 := if t < 0.0 then t + 1.0 else t;
    var t2 := if t1 > 1.0 then t1 - 1.0 else t1;
    if t2 < 1.0 / 6.0 then p + (q - p) * 6.0 * t2
    else if t2 < 1.0 / 2.0 then q
    else if t2 < 2.0 / 3.0 then p + (q - p) * (2.0 / 3.0 - t2) * 6.0
    else p
  }

  /** `Math.round(x * 255)`: a fraction in [0, 1] becomes a byte. */
  function ToByte(x: real): (v: int)
    ensures 0.0 <= x <= 1.0 ==> IsChannel(v)
  {
    Round(x * 255.0)
  }

  /** `hslToRgb`: grey when the saturation is 0, `hue2rgb` per channel otherwise. */
  function HslToRgb(hsl: Hsl): (c: Rgb)
    ensures hsl.s == 0.0 ==> c.r == c.g == c.b
  {
    var h := hsl.h / 360.0;
    var s := hsl.s / 100.0;
    var l := hsl.l / 100.0;
    if s == 0.0 then
      var v := ToByte(l);
      Rgb(v, v, v)
    else
      var q := UpperPivot(l, s);
      var p := 2.0 * l - q;
      Rgb(ToByte(Hue2Rgb(p, q, h + 1.0 / 3.0)),
          ToByte(Hue2Rgb(p, q, h)),
          ToByte(Hue2Rgb(p, q, h - 1.0 / 3.0)))
  }

  /**
   * The `q` of `hslToRgb`; its `p` is `2 * l - q`. For lightness and
   * saturation fractions in [0, 1] the two satisfy 0 <= p <= q <= 1.
   */
  function UpperPivot(l: real, s: real): (q: real)
    ensures 0.0 <= l <= 1.0 && 0.0 <= s <= 1.0 ==> 0.0 <= 2.0 * l - q <= q <= 1.0
  {
    if l < 0.5 then
      var q := l * (1.0 + s);
      assert 0.0 <= l && 0.0 <= s <= 1.0 ==> 0.0 <= 2.0 * l - q <= q <= 1.0 by {
        if 0.0 <= l && 0.0 <= s <= 1.0 {
          MulNonneg(1.0 - s, l);
          MulNonneg(s, l);
        }
      }
      q
    else
      var q := l + s - l * s;
      assert l <= 1.0 && 0.0 <= s <= 1.0 ==> 0.0 <= 2.0 * l - q <= q <= 1.0 by {
        if l <= 1.0 && 0.0 <= s <= 1.0 {
          MulNonneg(1.0 - s, 1.0 - l);
          MulNonneg(s, 1.0 - l);
        }
      }
      q
  }

  /** For t in [-1/3, 4/3) the helper stays between p and q. */
  lemma Hue2RgbBetween(p: real, q: real, t: real)
    requires p <= q
    requires -1.0 / 3.0 <= t < 4.0 / 3.0
    ensures p <= Hue2Rgb(p, q, t) <= q
  {
    var t1 := if t < 0.0 then t + 1.0 else t;
    var t2 := if t1 > 1.0 then t1 - 1.0 else t1;
    assert 0.0 <= t2 <= 1.0;
    if t2 < 1.0 / 6.0 {
      MulNonneg(q - p, t2);
      MulNonneg(q - p, 1.0 / 6.0 - t2);
    } else if t2 < 1.0 / 2.0 {
    } else if t2 < 2.0 / 3.0 {
      MulNonneg(q - p, 2.0 / 3.0 - t2);
      MulNonneg(q - p, t2 - 1.0 / 2.0);
    }
  }

  /** `hslToRgb` of an in-range colour yields byte channels. */
  lemma HslToRgbRange(hsl: Hsl)
    requires InHslRange(hsl)
    ensures IsByteRgb(HslToRgb(hsl))
  {
    var h := hsl.h / 360.0;
    var s := hsl.s / 100.0;
    var l := hsl.l / 100.0;
    if s != 0.0 {
      var q := UpperPivot(l, s);
      var p := 2.0 * l - q;
      assert HslToRgb(hsl) == Rgb(ToByte(Hue2Rgb(p, q, h + 1.0 / 3.0)),
        ToByte(Hue2Rgb(p, q, h)), ToByte(Hue2Rgb(p, q, h - 1.0 / 3.0)));
      Hue2RgbBetween(p, q, h + 1.0 / 3.0);
      Hue2RgbBetween(p, q, h);
      Hue2RgbBetween(p, q, h - 1.0 / 3.0);
    }
  }

  // ---------------------------------------------------------------------
  // Hue rotation, lighten, darken
  // ---------------------------------------------------------------------

  /** `(h % 360)`, then `+ 360` when negative: the representative in [0, 360). */
  function NormalizeHue(x: real): (h: real)
    ensures 0.0 <= h < 360.0
    ensures IsMultipleOf360(x - h)
  {
    var m := Rem360(x);
    assert Turns(1) == 360.0;
    TurnsAdd(x - m, 360.0);
    if m < 0.0 then m + 360.0 else m
  }

  /** Hues that differ by whole turns normalise to the same angle. */
  lemma NormalizeHueCongruent(x: real, y: real)
    requires IsMultipleOf360(x - y)
    ensures NormalizeHue(x) == NormalizeHue(y)
  {
    var hx, hy := NormalizeHue(x), NormalizeHue(y);
    TurnsAdd(x - y, x - hx);
    TurnsAdd((x - y) - (x - hx), y - hy);
    assert (x - y) - (x - hx) + (y - hy) == hx - hy;
    TurnsAdd(hx - hy, 0.0) by { assert Turns(0) == 0.0; }
    UniqueAngle(hx, hy);
  }

  /** A hue already in [0, 360) is left as it is. */
  lemma NormalizeHueInRange(x: real)
    requires 0.0 <= x < 360.0
    ensures NormalizeHue(x) == x
  {
    assert Turns(0) == 0.0;
    assert IsMultipleOf360(x - x);
    TurnsAdd(x - NormalizeHue(x), 0.0);
    UniqueAngle(NormalizeHue(x), x);
  }

  /** `rotateHue`: shift the HSL hue by `degrees`, normalise, convert back. */
  function RotateHue(c: Rgb, degrees: real): (r: Rgb)
    requires IsByteRgb(c)
    ensures IsByteRgb(r)
  {
    var hsl := RgbToHsl(c);
    RgbToHslRange(c);
    var rotated := hsl.(h := NormalizeHue(hsl.h + degrees));
    HslToRgbRange(rotated);
    HslToRgb(rotated)
  }

  /** `complementaryColor`. */
  function ComplementaryColor(c: Rgb): (r: Rgb)
    requires IsByteRgb(c)
    ensures IsByteRgb(r)
    ensures r == RotateHue(c, 180.0)
  {
    RotateHue(c, 180.0)
  }

  /** Rotation is periodic: rotating by `degrees` and by `degrees` plus whole turns agree. */
  lemma RotateHuePeriodic(c: Rgb, degrees: real, k: int)
    requires IsByteRgb(c)
    ensures RotateHue(c, degrees + Turns(k)) == RotateHue(c, degrees)
  {
    var h := RgbToHsl(c).h;
    assert (h + degrees + Turns(k)) - (h + degrees) == Turns(k);
    NormalizeHueCongruent(h + degrees + Turns(k), h + degrees);
  }

  /** A full turn rotates like no turn at all. */
  lemma RotateHueFullTurn(c: Rgb)
    requires IsByteRgb(c)
    ensures RotateHue(c, 360.0) == RotateHue(c, 0.0)
  {
    RotateHuePeriodic(c, 0.0, 1);
  }

  /** The lightness step of `lightenColor`: add `amount * 100`, capped at 100. */
  function Lighten(hsl: Hsl, amount: real): (r: Hsl)
    ensures r.h == hsl.h && r.s == hsl.s
    ensures r.l <= 100.0
    ensures amount >= 0.0 && hsl.l <= 100.0 ==> r.l >= hsl.l
    ensures hsl.l + amount * 100.0 <= 100.0 ==> r.l == hsl.l + amount * 100.0
    ensures hsl.l + amount * 100.0 >= 100.0 ==> r.l == 100.0
  {
    hsl.(l := Min(100.0, hsl.l + amount * 100.0))
  }

  /** The lightness step of `darkenColor`: subtract `amount * 100`, floored at 0. */
  function Darken(hsl: Hsl, amount: real): (r: Hsl)
    ensures r.h == hsl.h && r.s == hsl.s
    ensures r.l >= 0.0
    ensures amount >= 0.0 && hsl.l >= 0.0 ==> r.l <= hsl.l
    ensures hsl.l - amount * 100.0 >= 0.0 ==> r.l == hsl.l - amount * 100.0
    ensures hsl.l - amount * 100.0 <= 0.0 ==> r.l == 0.0
  {
    hsl.(l := Max(0.0, hsl.l - amount * 100.0))
  }

  /**
   * `lightenColor`: an unparsable string comes back unchanged; a colour
   * lightened by a non-negative amount comes back canonical.
   */
  function LightenColor(hex: string, amount: real): (r: string)
    ensures !IsHexColor(hex) ==> r == hex
    ensures IsHexColor(hex) && amount >= 0.0 ==> IsCanonicalHex(r)
  {
    match HexToRgb(hex)
    case None => hex
    case Some(rgb) =>
      var hsl := Lighten(RgbToHsl(rgb), amount);
      RgbToHslRange(rgb);
      var out := HslToRgb(hsl);
      if amount >= 0.0 then HslToRgbRange(hsl); RgbToHexCanonical(out); RgbToHex(out)
      else RgbToHex(out)
  }

  /**
   * `darkenColor`: an unparsable string comes back unchanged; a colour
   * darkened by a non-negative amount comes back canonical.
   */
  function DarkenColor(hex: string, amount: real): (r: string)
    ensures !IsHexColor(hex) ==> r == hex
    ensures IsHexColor(hex) && amount >= 0.0 ==> IsCanonicalHex(r)
  {
    match HexToRgb(hex)
    case None => hex
    case Some(rgb) =>
      var hsl := Darken(RgbToHsl(rgb), amount);
      RgbToHslRange(rgb);
      var out := HslToRgb(hsl);
      if amount >= 0.0 then HslToRgbRange(hsl); RgbToHexCanonical(out); RgbToHex(out)
      else RgbToHex(out)
  }

  /** Darkening white by the whole range gives black: the clamp at lightness 0. */
  lemma DarkenWhiteIsBlack()
    ensures DarkenColor("#ffffff", 1.0) == "#000000"
  {
    var white := Rgb(255, 255, 255);
    WhiteParses();
    assert RgbToHsl(white) == Hsl(0.0, 0.0, 100.0);
    assert Darken(Hsl(0.0, 0.0, 100.0), 1.0) == Hsl(0.0, 0.0, 0.0);
    assert HslToRgb(Hsl(0.0, 0.0, 0.0)) == Rgb(0, 0, 0);
    RgbToHexOfByte(Rgb(0, 0, 0));
  }

  lemma WhiteParses()
    ensures HexToRgb("#ffffff") == Some(Rgb(255, 255, 255))
  {
    var d := "#ffffff"[1..];
    assert d == "ffffff";
    assert AllHex(d);
  }
}

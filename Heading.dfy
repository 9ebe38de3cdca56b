/**
 * Compass headings: the conversion of a camera angle in radians to a
 * heading in degrees in [0, 360) (0 = north, 90 = east), the strip offset
 * of the interactive compass that shows that heading, and the demo's
 * auto-rotating direction.
 */
module Heading {
  import opened JsMath

  /** `radToDeg`. */
  function RadToDeg(radians: real): (d: real)
    ensures radians == 2.0 * Pi ==> d == 360.0
    ensures radians >= 0.0 <==> d >= 0.0
  {
    radians * 180.0 / Pi
  }

  /** `90 - alphaDeg + northOffsetDeg`: the heading before normalisation. */
  function RawHeading(alphaRadians: real, northOffsetDeg: real): real
  {
    90.0 - RadToDeg(alphaRadians) + northOffsetDeg
  }

  /** `((raw % 360) + 360) % 360`. */
  function Normalize(raw: real): (h: real)
    ensures 0.0 <= h < 360.0
    ensures IsMultipleOf360(raw - h)
  {
    var m := Rem360(raw);
    var h := Rem360(m + 360.0);
    assert Turns(1) == 360.0;
    TurnsAdd(raw - m, (m + 360.0) - h);
    TurnsAdd((raw - m) + ((m + 360.0) - h), 360.0);
    assert raw - h == (raw - m) + ((m + 360.0) - h) - 360.0;
    h
  }

  /** `alphaToHeadingDeg`: a heading in [0, 360) that differs from the raw value by whole turns. */
  function AlphaToHeadingDeg(alphaRadians: real, northOffsetDeg: real): (h: real)
    ensures 0.0 <= h < 360.0
    ensures IsMultipleOf360(RawHeading(alphaRadians, northOffsetDeg) - h)
  {
    Normalize(RawHeading(alphaRadians, northOffsetDeg))
  }

  /** Normalisation depends only on the angle modulo whole turns. */
  lemma NormalizeCongruent(x: real, y: real)
    requires IsMultipleOf360(x - y)
    ensures Normalize(x) == Normalize(y)
  {
    var hx, hy := Normalize(x), Normalize(y);
    TurnsAdd(x - y, x - hx);
    TurnsAdd((x - y) - (x - hx), y - hy);
    assert (x - y) - (x - hx) + (y - hy) == hx - hy;
    UniqueAngle(hx, hy);
  }

  /** Turning the north offset by whole turns does not change the heading. */
  lemma OffsetPeriodic(alphaRadians: real, northOffsetDeg: real, k: int)
    ensures AlphaToHeadingDeg(alphaRadians, northOffsetDeg + Turns(k)) ==
            AlphaToHeadingDeg(alphaRadians, northOffsetDeg)
  {
    var x := RawHeading(alphaRadians, northOffsetDeg + Turns(k));
    var y := RawHeading(alphaRadians, northOffsetDeg);
    assert x - y == Turns(k);
    NormalizeCongruent(x, y);
  }

  /** A raw heading already in [0, 360) is returned as it is. */
  lemma NormalizeInRange(raw: real)
    requires 0.0 <= raw < 360.0
    ensures Normalize(raw) == raw
  {
    assert Turns(0) == 0.0;
    TurnsAdd(raw - Normalize(raw), 0.0);
    UniqueAngle(Normalize(raw), raw);
  }

  /** With the default offset, a camera angle of 0 faces east. */
  lemma ZeroAlphaFacesEast()
    ensures AlphaToHeadingDeg(0.0, 0.0) == 90.0
  {
    assert RawHeading(0.0, 0.0) == 90.0;
    NormalizeInRange(90.0);
  }

  // ---------------------------------------------------------------------
  // The interactive compass
  // ---------------------------------------------------------------------

  /** The north offset the compass passes to `alphaToHeadingDeg`. */
  const CompassNorthOffset: real := 270.0

  /**
   * `basePercent + (headingDeg / 360) * percentPer360`, with 308 and 200: a
   * heading in [0, 360) puts the strip between 308% and 508%.
   */
  function StripPercent(headingDeg: real): (p: real)
    ensures 0.0 <= headingDeg < 360.0 ==> 308.0 <= p < 508.0
  {
    308.0 + (headingDeg / 360.0) * 200.0
  }

  /** The strip moves strictly with the heading. */
  lemma StripPercentIncreasing(a: real, b: real)
    requires a < b
    ensures StripPercent(a) < StripPercent(b)
  {
    assert (b / 360.0) * 200.0 - (a / 360.0) * 200.0 == (b - a) * 200.0 / 360.0;
  }

  /**
   * The `translateX` percentage written for a direction: the negated strip
   * percentage of its heading, always in (-508, -308].
   */
  function CompassTranslate(direction: real): (t: real)
    ensures -508.0 < t <= -308.0
  {
    var heading := AlphaToHeadingDeg(direction, CompassNorthOffset);
    -StripPercent(heading)
  }

  /** The demo's direction, advanced by 0.02 rad every 50 ms modulo a full turn. */
  class DemoCompass {
    var direction: real

    ghost predicate Valid()
      reads this
    {
      0.0 <= direction < TwoPi
    }

    constructor()
      ensures Valid() && direction == 0.0
    {
      direction := 0.0;
    }

    /** One interval tick: `(prev + 0.02) % (Math.PI * 2)`. */
    method Tick()
      requires Valid()
      modifies this
      ensures Valid()
      ensures direction == RemTwoPi(old(direction) + 0.02)
    {
      direction := RemTwoPi(direction + 0.02);
    }
  }

  /** A tick from a direction in [0, 2 pi) lands in [0, 2 pi) again. */
  lemma TickInRange(direction: real)
    requires 0.0 <= direction < TwoPi
    ensures 0.0 <= RemTwoPi(direction + 0.02) < TwoPi
  {
  }

  /**
   * A tick adds 0.02 to the direction, less one full turn once the sum
   * reaches 2 pi: the animation advances steadily and wraps around.
   */
  lemma TickAdvances(direction: real)
    requires 0.0 <= direction < TwoPi
    ensures direction + 0.02 < TwoPi ==> RemTwoPi(direction + 0.02) == direction + 0.02
    ensures direction + 0.02 >= TwoPi ==> RemTwoPi(direction + 0.02) == direction + 0.02 - TwoPi
  {
    var r := RemTwoPi(direction + 0.02);
    var k :| TwoPiTurns(k) == direction + 0.02 - r;
    if direction + 0.02 < TwoPi {
      assert k == 0;
    } else {
      assert k == 1;
    }
  }
}

/**
 * The few JavaScript number operations the components use, over exact reals:
 * `Math.round`, `Math.min` / `Math.max` on two arguments, and the remainder
 * operator `%` (which truncates the quotient, so the result keeps the sign
 * of the dividend) for the two divisors that occur: 360 and `Math.PI * 2`.
 */
module JsMath {

  /** `Math.PI` as the decimal literal of the double JavaScript uses. */
  const Pi: real := 3.141592653589793

  /** `Math.PI * 2`. */
  const TwoPi: real := 2.0 * Pi

  /** `Math.round`: the nearest integer, a half rounded towards +infinity. */
  function Round(x: real): (n: int)
    ensures x - 0.5 < n as real <= x + 0.5
  {
    (x + 0.5).Floor
  }

  /** Truncation towards zero, the quotient JavaScript's `%` uses. */
  function Trunc(x: real): (n: int)
    ensures 0.0 <= x ==> n as real <= x < n as real + 1.0
    ensures x < 0.0 ==> n as real - 1.0 < x <= n as real
  {
    if x >= 0.0 then x.Floor else -((-x).Floor)
  }

  function Min(a: real, b: real): (m: real)
    ensures m <= a && m <= b && (m == a || m == b)
  {
    if a <= b then a else b
  }

  function Max(a: real, b: real): (m: real)
    ensures m >= a && m >= b && (m == a || m == b)
  {
    if a >= b then a else b
  }

  /** `k * 360`, named so that "is a multiple of 360" has a trigger. */
  function Turns(k: int): real
  {
    360.0 * k as real
  }

  ghost predicate IsMultipleOf360(x: real)
  {
    exists k: int :: Turns(k) == x
  }

  /**
   * JavaScript's `a % 360`: the result has the sign of `a`, lies strictly
   * inside (-360, 360), and differs from `a` by a whole number of turns.
   */
  function Rem360(a: real): (r: real)
    ensures 0.0 <= a ==> 0.0 <= r < 360.0
    ensures a < 0.0 ==> -360.0 < r <= 0.0
    ensures IsMultipleOf360(a - r)
  {
    var q := Trunc(a / 360.0);
    assert Turns(q) == a - (a - q as real * 360.0);
    a - q as real * 360.0
  }

  /** `k * 2π`, named so that "is a whole number of full turns" has a trigger. */
  function TwoPiTurns(k: int): real
  {
    TwoPi * k as real
  }

  /**
   * JavaScript's `a % (Math.PI * 2)`, with the same sign rule: the result
   * differs from `a` by a whole number of full turns.
   */
  function RemTwoPi(a: real): (r: real)
    ensures 0.0 <= a ==> 0.0 <= r < TwoPi
    ensures a < 0.0 ==> -TwoPi < r <= 0.0
    ensures exists k: int :: TwoPiTurns(k) == a - r
  {
    var q := Trunc(a / TwoPi);
    assert TwoPiTurns(q) == a - (a - q as real * TwoPi);
    a - q as real * TwoPi
  }

  /** Two angles in [0, 360) that differ by whole turns are equal. */
  lemma UniqueAngle(x: real, y: real)
    requires 0.0 <= x < 360.0 && 0.0 <= y < 360.0
    requires IsMultipleOf360(x - y)
    ensures x == y
  {
    var k :| Turns(k) == x - y;
    assert k == 0;
  }

  /** Sums and differences of whole turns are whole turns. */
  lemma TurnsAdd(x: real, y: real)
    requires IsMultipleOf360(x) && IsMultipleOf360(y)
    ensures IsMultipleOf360(x + y) && IsMultipleOf360(x - y)
  {
    var i :| Turns(i) == x;
    var j :| Turns(j) == y;
    assert Turns(i + j) == x + y;
    assert Turns(i - j) == x - y;
  }

  /** A product of non-negative reals is non-negative. */
  lemma MulNonneg(a: real, b: real)
    requires 0.0 <= a && 0.0 <= b
    ensures 0.0 <= a * b
  {
  }

  /** A product of positive reals is positive. */
  lemma MulPos(a: real, b: real)
    requires 0.0 < a && 0.0 < b
    ensures 0.0 < a * b
  {
  }
}

/** The few JavaScript number operations the wheel engine relies on, stated
    over mathematical reals (IEEE-754 rounding is not modelled). */
module JsMath {

  /** `Math.abs`. */
  function Abs(x: real): (r: real)
    ensures 0.0 <= r
    ensures r == x || r == -x
  {
    if x < 0.0 then -x else x
  }

  /** `Math.sign` on a real: -1, 0 or 1. */
  function Sign(x: real): (r: real)
    ensures x > 0.0 ==> r == 1.0
    ensures x < 0.0 ==> r == -1.0
    ensures x == 0.0 ==> r == 0.0
  {
    if x > 0.0 then 1.0 else if x < 0.0 then -1.0 else 0.0
  }

  /** The integer part of `x`, rounding toward zero. This is the quotient that
      JavaScript's `%` operator uses. */
  function Trunc(x: real): (q: int)
    ensures 0.0 <= x ==> 0 <= q && q as real <= x < q as real + 1.0
    ensures x < 0.0 ==> q <= 0 && q as real - 1.0 < x <= q as real
  {
    if x >= 0.0 then x.Floor else -((-x).Floor)
  }

  /** JavaScript's `x % 360`, the only remainder the engine takes: the
      truncated remainder, which keeps the sign of the dividend `x` (unlike
      Dafny's Euclidean `%` on integers). The result differs from `x` by a
      whole number of turns. */
  function JsRem360(x: real): (r: real)
    ensures 0.0 <= x ==> 0.0 <= r < 360.0
    ensures x < 0.0 ==> -360.0 < r <= 0.0
    ensures x - r == 360.0 * Trunc(x / 360.0) as real
  {
    x - 360.0 * Trunc(x / 360.0) as real
  }

  lemma ScaleWeak(m: real, a: real, b: real)
    requires m > 0.0 && a <= b
    ensures m * a <= m * b
  {
    assert m * b - m * a == m * (b - a);
  }

  lemma ScaleStrict(m: real, a: real, b: real)
    requires m > 0.0 && a < b
    ensures m * a < m * b
  {
    assert m * b - m * a == m * (b - a);
  }
}

/** Winner resolution: which slice of the wheel sits under the fixed pointer
    once the wheel has turned by some accumulated rotation (script.js:169-199).

    Slice `i` of `n` is drawn over the angles `[i * 360/n, (i+1) * 360/n)`,
    measured clockwise from 3 o'clock; the pointer stays at 12 o'clock, which
    is 270 degrees in that convention. */
module Resolution {
  import opened JsMath

  /** Degrees in one full turn: the divisor of every `%` in the computation. */
  const FullTurn: real := 360.0

  /** Where the pointer sits, in the drawing's angle convention. */
  const PointerAt: real := 270.0

  /** Reference definition: `y` reduced modulo a full turn into `[0, 360)`,
      that is, mathematical (floored) modulo. */
  function Normalize(y: real): (p: real)
    ensures 0.0 <= p < FullTurn
    ensures 0.0 <= y < FullTurn ==> p == y
  {
    y - 360.0 * (y / 360.0).Floor as real
  }

  /** The one angle in `[0, 360)` that differs from `y` by whole turns is
      `Normalize(y)`. */
  lemma NormalizeUnique(y: real, p: real, k: int)
    requires 0.0 <= p < FullTurn
    requires p == y + FullTurn * k as real
    ensures p == Normalize(y)
  {
    assert y / 360.0 == p / 360.0 - k as real;
    assert (y / 360.0).Floor == -k;
  }

  /** Turning by whole turns does not change the normalized angle. */
  lemma {:induction false} NormalizePeriodic(y: real, k: int)
    ensures Normalize(y + FullTurn * k as real) == Normalize(y)
  {
    var f := (y / 360.0).Floor;
    NormalizeUnique(y + FullTurn * k as real, Normalize(y), -k - f);
  }

  /** The angle of the drawing that lies under the pointer, computed as the
      source does: `degrees = rotation % 360`, then
      `(270 - (degrees % 360) + 360) % 360`, with JavaScript's truncated `%`. */
  function PointerAngle(rotation: real): (p: real)
    ensures 0.0 <= p < FullTurn
  {
    var degrees := JsRem360(rotation);
    JsRem360(PointerAt - JsRem360(degrees) + FullTurn)
  }

  /** Despite the truncated remainders (which are negative for a negative
      rotation), the pointer angle is exactly `270 - rotation` reduced modulo
      a full turn. */
  lemma PointerAngleIsReduced(rotation: real)
    ensures PointerAngle(rotation) == Normalize(PointerAt - rotation)
  {
    var d1 := JsRem360(rotation);
    var q1 := Trunc(rotation / 360.0);
    var d2 := JsRem360(d1);
    var q2 := Trunc(d1 / 360.0);
    var arg := PointerAt - d2 + FullTurn;
    var q3 := Trunc(arg / 360.0);
    assert -FullTurn < d1 < FullTurn;
    assert 0.0 < arg;
    var p := JsRem360(arg);
    assert p == PointerAngle(rotation);
    assert rotation - d1 == FullTurn * q1 as real;
    assert d1 - d2 == FullTurn * q2 as real;
    assert arg - p == FullTurn * q3 as real;
    NormalizeUnique(PointerAt - rotation, p, 1 + q1 + q2 - q3);
  }

  /** Whole turns in either direction leave the pointer over the same angle,
      also for negative rotations. */
  lemma PointerAngleWrap(rotation: real, k: int)
    ensures PointerAngle(rotation + FullTurn * k as real) == PointerAngle(rotation)
  {
    PointerAngleIsReduced(rotation);
    PointerAngleIsReduced(rotation + FullTurn * k as real);
    assert PointerAt - (rotation + FullTurn * k as real) == (PointerAt - rotation) + FullTurn * (-k) as real;
    NormalizePeriodic(PointerAt - rotation, -k);
  }

  /** The angular width of one slice when there are `n` prizes (`arcDeg`). */
  function Arc(n: nat): (a: real)
    requires n > 0
    ensures a > 0.0 && a * n as real == FullTurn
  {
    FullTurn / n as real
  }

  /** Slice `i` of `n` covers the angles from `i * 360/n` up to, but not
      including, `(i + 1) * 360/n`; stated with both sides multiplied by
      `n`. */
  predicate InSlice(angle: real, n: nat, i: int)
  {
    i as real * 360.0 <= angle * n as real < (i + 1) as real * 360.0
  }

  /** Dividing by the width of a slice is scaling by `n / 360`. */
  lemma DivideByArc(angle: real, n: nat)
    requires n > 0
    ensures angle / Arc(n) == angle * n as real / 360.0
  {
    var k := n as real;
    assert Arc(n) * k == 360.0;
    assert (angle * k / 360.0) * Arc(n) == angle * (k * Arc(n)) / 360.0;
  }

  /** `Math.floor(angle / arcDeg)`: the index of the slice that contains
      `angle`. The source does not clamp the result; none is needed, since it
      always names a slice. */
  function SliceAt(angle: real, n: nat): (i: nat)
    requires n > 0 && 0.0 <= angle < FullTurn
    ensures i < n
    ensures InSlice(angle, n, i)
  {
    DivideByArc(angle, n);
    SliceBounds(angle, n);
    (angle / Arc(n)).Floor
  }

  /** The floor of `angle * n / 360` is an index below `n` whose slice
      contains `angle`. */
  lemma SliceBounds(angle: real, n: nat)
    requires n > 0 && 0.0 <= angle < FullTurn
    ensures var i := (angle * n as real / 360.0).Floor;
      0 <= i < n && InSlice(angle, n, i)
  {
    var k := n as real;
    ScaleWeak(k, 0.0, angle);
    ScaleStrict(k, angle, 360.0);
    assert 0.0 <= angle * k < 360.0 * k;
  }

  /** Boundary policy: slices are half-open, so an angle that lies exactly on
      the border between slices `j - 1` and `j` belongs to slice `j`; and any
      index whose slice contains the angle is the one `SliceAt` finds. */
  lemma SliceUnique(angle: real, n: nat, j: int)
    requires n > 0 && 0.0 <= angle < FullTurn
    requires InSlice(angle, n, j)
    ensures j == SliceAt(angle, n)
  {
  }

  /** The index of the prize under the pointer after the wheel has turned by
      `rotation` degrees, for `n` prizes (script.js:185-198). */
  function WinnerIndex(rotation: real, n: nat): (i: nat)
    requires n > 0
    ensures i < n
    ensures InSlice(PointerAngle(rotation), n, i)
  {
    SliceAt(PointerAngle(rotation), n)
  }

  /** The winner does not change when the wheel turns by whole turns. */
  lemma WinnerIndexWrap(rotation: real, n: nat, k: int)
    requires n > 0
    ensures WinnerIndex(rotation + FullTurn * k as real, n) == WinnerIndex(rotation, n)
  {
    PointerAngleWrap(rotation, k);
  }

  /** Worked examples with four prizes (90-degree slices): at rest the pointer
      is over slice 3; a quarter turn clockwise brings slice 2 under it, as
      does a turn and a quarter; a quarter turn back brings slice 0. */
  lemma FourPrizeExamples()
    ensures WinnerIndex(0.0, 4) == 3
    ensures WinnerIndex(90.0, 4) == 2
    ensures WinnerIndex(450.0, 4) == 2
    ensures WinnerIndex(-90.0, 4) == 0
  {
    assert PointerAngle(0.0) == 270.0;
    assert PointerAngle(90.0) == 180.0;
    WinnerIndexWrap(90.0, 4, 1);
    assert PointerAngle(-90.0) == 0.0;
    SliceUnique(270.0, 4, 3);
    SliceUnique(180.0, 4, 2);
    SliceUnique(0.0, 4, 0);
  }
}

/** Arithmetic helpers shared by the filter bank and the convolver: Qt's
    qMin/qMax/qBound, the linear interpolation of interpolation.h, C's
    truncating conversions and divisions, and the transcendental functions
    of <math.h>, which stay uninterpreted. */
module Numeric {

  /** The uninterpreted single-precision functions of <math.h>. */
  datatype Math = Math(
    sinf: real -> real,
    cosf: real -> real,
    expf: real -> real,
    powf: (real, real) -> real,
    atanf: real -> real)

  /** F_PI, F_2PI and F_E of lmms_constants.h (that header is not part of this
      model; the decimal expansions below stand in for its float constants). */
  const Pi: real := 3.14159265358979323846
  const TwoPi: real := 2.0 * Pi
  const E: real := 2.71828182845904523536

  /** Qt's qMin and qMax on floats. */
  function QMin(a: real, b: real): real { if a < b then a else b }
  function QMax(a: real, b: real): real { if a < b then b else a }

  /** Qt's qBound(lo, v, hi) = qMax(lo, qMin(hi, v)). */
  function QBound(lo: real, v: real, hi: real): (r: real)
    requires lo <= hi
    ensures lo <= r <= hi
    ensures lo <= v <= hi ==> r == v
    ensures v < lo ==> r == lo
    ensures hi < v ==> r == hi
  {
    QMax(lo, QMin(hi, v))
  }

  /** linearInterpolate(a, b, t) of interpolation.h, taken as a + (b - a) * t. */
  function Lerp(a: real, b: real, t: real): real
  {
    a + (b - a) * t
  }

  /** Interpolating with a weight in [0, 1] stays between the two end points,
      and the end weights give the end points. */
  lemma LerpBetween(a: real, b: real, t: real)
    requires 0.0 <= t <= 1.0
    ensures QMin(a, b) <= Lerp(a, b, t) <= QMax(a, b)
    ensures t == 0.0 ==> Lerp(a, b, t) == a
    ensures t == 1.0 ==> Lerp(a, b, t) == b
  {
    var d := b - a;
    MulNonNeg(if a <= b then d else -d, t);
    MulNonNeg(if a <= b then d else -d, 1.0 - t);
    assert d * (1.0 - t) == d - d * t;
  }

  lemma MulNonNeg(x: real, y: real)
    requires 0.0 <= x && 0.0 <= y
    ensures 0.0 <= x * y
  {
  }

  /** C's float-to-int conversion, which truncates toward zero. */
  function Trunc(x: real): (r: int)
    ensures x >= 0.0 ==> 0 <= r && r as real <= x < r as real + 1.0
    ensures x < 0.0 ==> r <= 0 && r as real - 1.0 < x <= r as real
  {
    if x >= 0.0 then x.Floor else -((-x).Floor)
  }

  /** C's integer division, which truncates toward zero (Dafny's `/` is
      Euclidean). Only positive divisors occur in the modelled code. */
  function CDiv(a: int, b: int): (r: int)
    requires b > 0
    ensures a >= 0 ==> r * b <= a < r * b + b
    ensures a < 0 ==> r * b - b < a <= r * b
  {
    if a >= 0 then a / b else -((-a) / b)
  }

  /** Division whose zero divisor, where the float code would produce an
      infinity, is read as a zero result. */
  function SafeDiv(a: real, b: real): (r: real)
    ensures b != 0.0 ==> r * b == a
  {
    if b == 0.0 then 0.0 else a / b
  }

  predicate IsPow2(n: nat)
    decreases n
  {
    n == 1 || (n > 1 && n % 2 == 0 && IsPow2(n / 2))
  }
}

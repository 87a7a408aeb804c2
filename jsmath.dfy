/** The parts of JavaScript's number semantics and of `Math` that the editor relies on.
    Numbers are unbounded reals: IEEE rounding, NaN and infinities are not modelled. */
module JsMath {

  /** A rational stand-in for `Math.PI`. Proofs only use that it is a positive constant
      shared by every evaluator. */
  const Pi: real := 3.141592653589793

  /** `Math.sin`, `Math.cos` and `Math.pow`, left uninterpreted: every evaluator receives the
      same library as a parameter, so no property of trigonometry is assumed. */
  datatype MathLib = MathLib(sin: real -> real, cos: real -> real, pow: (real, real) -> real)

  /** A divisor for which `%` and `/` are defined (a zero duration makes JavaScript return NaN). */
  type NonZero = r: real | r != 0.0 witness 1.0

  /** `Math.abs` */
  function Abs(x: real): (r: real)
    ensures r >= 0.0 && (r == x || r == -x)
  {
    if x < 0.0 then -x else x
  }

  /** `Math.max` of two numbers */
  function Max(a: real, b: real): (r: real)
    ensures r >= a && r >= b && (r == a || r == b)
  {
    if a >= b then a else b
  }

  /** `Math.trunc`: rounds toward zero. */
  function Trunc(x: real): (n: int)
    ensures x >= 0.0 ==> n >= 0 && n as real <= x < n as real + 1.0
    ensures x < 0.0 ==> n <= 0 && n as real - 1.0 < x <= n as real
  {
    if x >= 0.0 then x.Floor else -((-x).Floor)
  }

  /** JavaScript's `a % b`: the remainder of the truncating division, with the sign of `a`. */
  function JsMod(a: real, b: NonZero): real
  {
    a - b * (Trunc(a / b) as real)
  }

  lemma MulStrict(x: real, y: real, b: real)
    requires b > 0.0 && x < y
    ensures x * b < y * b
  {}

  lemma MulWeak(x: real, y: real, b: real)
    requires b > 0.0 && x <= y
    ensures x * b <= y * b
  {}

  /** For a non-negative dividend and a positive divisor the remainder lies in [0, b). */
  lemma JsModRange(a: real, b: NonZero)
    requires a >= 0.0 && b > 0.0
    ensures 0.0 <= JsMod(a, b) < b
  {
    var d := a / b;
    var q := Trunc(d) as real;
    var q1 := q + 1.0;
    assert d >= 0.0;
    assert q <= d < q1;
    MulWeak(q, d, b);
    MulStrict(d, q1, b);
    assert d * b == a;
    assert a < q1 * b;
    assert q1 * b == q * b + b;
    assert q * b <= a < q * b + b;
    assert JsMod(a, b) == a - q * b;
  }

  /** A non-negative dividend smaller than the divisor is its own remainder. */
  lemma JsModSmall(a: real, b: NonZero)
    requires 0.0 <= a < b
    ensures JsMod(a, b) == a
  {
    var d := a / b;
    MulStrict(d, 1.0, b);
    assert d * b == a;
    assert Trunc(d) == 0;
  }

  /** Adding one whole divisor does not change the remainder of a non-negative dividend. */
  lemma JsModPeriodic(a: real, b: NonZero)
    requires a >= 0.0 && b > 0.0
    ensures JsMod(a + b, b) == JsMod(a, b)
  {
    var d := a / b;
    assert b / b == 1.0;
    assert (a + b) / b == a / b + b / b;
    assert (a + b) / b == d + 1.0;
    assert Trunc(d + 1.0) == Trunc(d) + 1;
  }

  /** Degrees to radians, as `deg * Math.PI / 180`. */
  function DegToRad(d: real): (r: real)
    ensures r * 180.0 / Pi == d
  {
    d * Pi / 180.0
  }

  /** Radians to degrees, as `rad * 180 / Math.PI`. */
  function RadToDeg(r: real): (d: real)
  {
    r * 180.0 / Pi
  }

  /** The two conversions are inverse to each other in both directions. */
  lemma DegRadInverse(d: real, r: real)
    ensures RadToDeg(DegToRad(d)) == d
    ensures DegToRad(RadToDeg(r)) == r
  {}

  /** Both conversions distribute over sums. */
  lemma DegRadAdditive(a: real, b: real)
    ensures RadToDeg(a + b) == RadToDeg(a) + RadToDeg(b)
    ensures DegToRad(a + b) == DegToRad(a) + DegToRad(b)
  {}

  /** `Number(x.toFixed(2))`: rounds half away from zero to two decimals. */
  function Fixed2(x: real): (r: real)
  {
    if x >= 0.0 then ((x * 100.0 + 0.5).Floor as real) / 100.0
    else -((((-x) * 100.0 + 0.5).Floor as real) / 100.0)
  }

  /** Rounding to two decimals moves a value by at most half a hundredth. */
  lemma Fixed2Close(x: real)
    ensures Abs(Fixed2(x) - x) <= 0.005
  {
    var y := if x >= 0.0 then x else -x;
    var n := (y * 100.0 + 0.5).Floor as real;
    assert n <= y * 100.0 + 0.5 < n + 1.0;
    assert y - 0.005 < n / 100.0 <= y + 0.005;
  }

  /** A value that already has at most two decimals is left unchanged by rounding. */
  lemma Fixed2Exact(k: int)
    ensures Fixed2(k as real / 100.0) == k as real / 100.0
  {
    var x := k as real / 100.0;
    if x >= 0.0 {
      assert x * 100.0 + 0.5 == k as real + 0.5;
      assert (x * 100.0 + 0.5).Floor == k;
    } else {
      assert (-x) * 100.0 + 0.5 == (-k) as real + 0.5;
      assert ((-x) * 100.0 + 0.5).Floor == -k;
    }
  }

  /** JavaScript truthiness of a number (NaN is not modelled). */
  predicate Truthy(x: real)
  {
    x != 0.0
  }
}

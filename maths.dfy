/**
 * The engine maths the flight core relies on, on exact reals: three-component
 * vectors, and the scalar helpers of Unity's Mathf (Clamp, Clamp01, Lerp,
 * Repeat, LerpAngle) and of C#'s floating-point remainder.
 *
 * Quantities that need a square root or a trigonometric function are not
 * computed here; the modules that use them receive them from the engine as
 * parameters, constrained by predicates such as IsMagnitude.
 */
module Maths {

  /** A Unity Vector3. */
  datatype Vec3 = Vec3(x: real, y: real, z: real)

  const Zero: Vec3 := Vec3(0.0, 0.0, 0.0)

  function Add(a: Vec3, b: Vec3): Vec3 {
    Vec3(a.x + b.x, a.y + b.y, a.z + b.z)
  }

  function Sub(a: Vec3, b: Vec3): Vec3 {
    Vec3(a.x - b.x, a.y - b.y, a.z - b.z)
  }

  function Neg(a: Vec3): Vec3 {
    Vec3(-a.x, -a.y, -a.z)
  }

  function Scale(k: real, a: Vec3): Vec3 {
    Vec3(k * a.x, k * a.y, k * a.z)
  }

  /** Scaling twice is scaling once by the product. */
  lemma ScaleScale(a: real, b: real, v: Vec3)
    ensures Scale(a, Scale(b, v)) == Scale(a * b, v)
  {
    assert a * (b * v.x) == (a * b) * v.x;
    assert a * (b * v.y) == (a * b) * v.y;
    assert a * (b * v.z) == (a * b) * v.z;
  }

  /** Vector3.sqrMagnitude: the squared length, which needs no square root. */
  function SqrMagnitude(v: Vec3): real {
    v.x * v.x + v.y * v.y + v.z * v.z
  }

  /**
   * `m` is what the engine's `Vector3.magnitude` returns for `v`: a
   * non-negative number whose square is the squared length, and which is zero
   * exactly for the zero vector.
   */
  predicate IsMagnitude(v: Vec3, m: real) {
    && m >= 0.0
    && m * m == SqrMagnitude(v)
    && (m == 0.0 <==> v == Zero)
  }

  // Small facts of nonlinear real arithmetic that the solver needs spelled out.

  lemma MulNonNeg(a: real, b: real)
    requires a >= 0.0 && b >= 0.0
    ensures a * b >= 0.0
  {
  }

  lemma MulPos(a: real, b: real)
    requires a > 0.0 && b > 0.0
    ensures a * b > 0.0
  {
  }

  lemma SquareNonNeg(a: real)
    ensures a * a >= 0.0
  {
    if a >= 0.0 {
      MulNonNeg(a, a);
    } else {
      MulNonNeg(-a, -a);
    }
  }

  /** A product is zero only if a factor is: cancel the non-zero one through its inverse. */
  lemma MulZero(a: real, b: real)
    requires b != 0.0 && a * b == 0.0
    ensures a == 0.0
  {
    var inv := 1.0 / b;
    assert b * inv == 1.0;
    assert (a * b) * inv == a * (b * inv);
  }

  lemma SquareZero(a: real)
    ensures a * a == 0.0 ==> a == 0.0
  {
    if a != 0.0 && a * a == 0.0 {
      MulZero(a, a);
    }
  }

  /** Only the zero vector has squared length zero. */
  lemma SqrMagnitudePos(v: Vec3)
    requires v != Zero
    ensures SqrMagnitude(v) > 0.0
  {
    SquareNonNeg(v.x);
    SquareNonNeg(v.y);
    SquareNonNeg(v.z);
    SquareZero(v.x);
    SquareZero(v.y);
    SquareZero(v.z);
  }

  lemma SqrMagnitudeNonNeg(v: Vec3)
    ensures SqrMagnitude(v) >= 0.0
  {
    SquareNonNeg(v.x);
    SquareNonNeg(v.y);
    SquareNonNeg(v.z);
  }

  /** Scaling by a factor in [0, 1] moves a value toward zero without crossing it. */
  lemma ScaleWithin(d: real, c: real)
    requires 0.0 <= c <= 1.0
    ensures d >= 0.0 ==> 0.0 <= d * c <= d
    ensures d <= 0.0 ==> d <= d * c <= 0.0
  {
    if d >= 0.0 {
      MulNonNeg(d, c);
      MulNonNeg(d, 1.0 - c);
    } else {
      MulNonNeg(-d, c);
      MulNonNeg(-d, 1.0 - c);
    }
  }

  /** Scaling by a factor in [0, 1] never increases the magnitude. */
  lemma AbsScaleWithin(d: real, c: real)
    requires 0.0 <= c <= 1.0
    ensures Abs(c * d) <= Abs(d)
  {
    if d >= 0.0 {
      MulNonNeg(d, c);
      MulNonNeg(d, 1.0 - c);
      assert d * (1.0 - c) == d - c * d;
    } else {
      MulNonNeg(-d, c);
      MulNonNeg(-d, 1.0 - c);
      assert (-d) * c == -(c * d);
      assert (-d) * (1.0 - c) == c * d - d;
    }
  }

  lemma ScaleComponentsWithin(c: real, v: Vec3)
    requires 0.0 <= c <= 1.0
    ensures Abs(Scale(c, v).x) <= Abs(v.x)
    ensures Abs(Scale(c, v).y) <= Abs(v.y)
    ensures Abs(Scale(c, v).z) <= Abs(v.z)
  {
    var s := Scale(c, v);
    AbsScaleWithin(v.x, c);
    AbsScaleWithin(v.y, c);
    AbsScaleWithin(v.z, c);
    assert s == Vec3(c * v.x, c * v.y, c * v.z);
  }

  /** Scaling a non-negative value by a factor in [-1, 1] stays within it. */
  lemma ScaleBounded(c: real, p: real)
    requires -1.0 <= c <= 1.0 && p >= 0.0
    ensures -p <= c * p <= p
  {
    MulNonNeg(1.0 - c, p);
    MulNonNeg(1.0 + c, p);
  }

  /** Scaling by a factor in [-1, 1] never increases the magnitude. */
  lemma AbsScaleBounded(c: real, m: real)
    requires -1.0 <= c <= 1.0
    ensures -Abs(m) <= c * m <= Abs(m)
  {
    if m >= 0.0 {
      ScaleBounded(c, m);
    } else {
      ScaleBounded(c, -m);
      assert c * (-m) == -(c * m);
    }
  }

  /** The magnitude of a product with a non-negative factor. */
  lemma AbsMulNonNeg(a: real, b: real)
    requires b >= 0.0
    ensures Abs(a * b) == Abs(a) * b
  {
    if a >= 0.0 {
      MulNonNeg(a, b);
    } else {
      MulNonNeg(-a, b);
      assert (-a) * b == -(a * b);
    }
  }

  function Abs(x: real): (r: real)
    ensures r >= 0.0 && (r == x || r == -x)
  {
    if x < 0.0 then -x else x
  }

  /** Mathf.Clamp: the lower bound is tested first, then the upper one. */
  function Clamp(value: real, min: real, max: real): (r: real)
    ensures min <= max ==> min <= r <= max
    ensures min <= value <= max ==> r == value
    ensures value < min ==> r == min
    ensures min <= value && value > max ==> r == max
  {
    if value < min then min
    else if value > max then max
    else value
  }

  /** Mathf.Clamp01. */
  function Clamp01(value: real): (r: real)
    ensures 0.0 <= r <= 1.0
    ensures 0.0 <= value <= 1.0 ==> r == value
    ensures value <= 0.0 ==> r == 0.0
    ensures value >= 1.0 ==> r == 1.0
  {
    if value < 0.0 then 0.0
    else if value > 1.0 then 1.0
    else value
  }

  /** One interpolation step with a parameter in [0, 1] stays between the two ends. */
  lemma LerpStepBetween(a: real, b: real, c: real)
    requires 0.0 <= c <= 1.0
    ensures a <= b ==> a <= a + (b - a) * c <= b
    ensures b <= a ==> b <= a + (b - a) * c <= a
  {
    var d := b - a;
    if d >= 0.0 {
      MulNonNeg(d, c);
      MulNonNeg(d, 1.0 - c);
      assert d * (1.0 - c) == d - d * c;
    } else {
      MulNonNeg(-d, c);
      MulNonNeg(-d, 1.0 - c);
      assert (-d) * c == -(d * c);
      assert (-d) * (1.0 - c) == d * c - d;
    }
  }

  /** Mathf.Lerp: the interpolation parameter is clamped to [0, 1] first. */
  function Lerp(a: real, b: real, t: real): real {
    a + (b - a) * Clamp01(t)
  }

  /**
   * Lerp stays between its two ends, is the start at t <= 0 and the end at
   * t >= 1.
   */
  lemma LerpBetween(a: real, b: real, t: real)
    ensures a <= b ==> a <= Lerp(a, b, t) <= b
    ensures b <= a ==> b <= Lerp(a, b, t) <= a
    ensures t <= 0.0 ==> Lerp(a, b, t) == a
    ensures t >= 1.0 ==> Lerp(a, b, t) == b
  {
    LerpStepBetween(a, b, Clamp01(t));
  }

  /** Mathf.Repeat: wraps `t` into [0, length). */
  function Repeat(t: real, length: real): real
    requires length > 0.0
  {
    Clamp(t - ((t / length).Floor as real) * length, 0.0, length)
  }

  /** `d` is a whole number of turns of 360 degrees. */
  predicate IsWholeTurns(d: real) {
    (d / 360.0).Floor as real == d / 360.0
  }

  /** A whole number `n` of turns is whole turns. */
  lemma WholeTurns(n: int)
    ensures IsWholeTurns((n as real) * 360.0)
  {
    assert (n as real) * 360.0 / 360.0 == n as real;
  }

  /**
   * Repeat over a full turn leaves a value in [0, 360) that differs from `t`
   * by `k` whole turns.
   */
  lemma RepeatTurn(t: real) returns (k: int)
    ensures 0.0 <= Repeat(t, 360.0) < 360.0
    ensures t - Repeat(t, 360.0) == (k as real) * 360.0
  {
    k := (t / 360.0).Floor;
    assert (k as real) * 360.0 <= t < (k as real) * 360.0 + 360.0;
  }

  /**
   * The signed step of Mathf.LerpAngle: the difference `b - a` wrapped into
   * (-180, 180].
   */
  function ShortestDelta(a: real, b: real): real {
    var wrapped := Repeat(b - a, 360.0);
    if wrapped > 180.0 then wrapped - 360.0 else wrapped
  }

  /** The shortest step lies in (-180, 180] and differs from `b - a` by `n` whole turns. */
  lemma ShortestDeltaTurns(a: real, b: real) returns (n: int)
    ensures -180.0 < ShortestDelta(a, b) <= 180.0
    ensures b - a - ShortestDelta(a, b) == (n as real) * 360.0
  {
    var k := RepeatTurn(b - a);
    n := if Repeat(b - a, 360.0) > 180.0 then k + 1 else k;
  }

  /** The shortest step lies in (-180, 180] and differs from `b - a` by whole turns. */
  lemma ShortestDeltaIsShortest(a: real, b: real)
    ensures -180.0 < ShortestDelta(a, b) <= 180.0
    ensures IsWholeTurns(b - a - ShortestDelta(a, b))
  {
    var n := ShortestDeltaTurns(a, b);
    WholeTurns(n);
  }

  /**
   * Mathf.LerpAngle: interpolates from `a` toward `b` along the shorter way
   * round the circle.
   */
  function LerpAngle(a: real, b: real, t: real): real {
    a + ShortestDelta(a, b) * Clamp01(t)
  }

  /** LerpAngle never moves more than half a turn, and stays put at t <= 0. */
  lemma LerpAngleStep(a: real, b: real, t: real)
    ensures Abs(LerpAngle(a, b, t) - a) <= 180.0
    ensures t <= 0.0 ==> LerpAngle(a, b, t) == a
  {
    var n := ShortestDeltaTurns(a, b);
    ScaleWithin(ShortestDelta(a, b), Clamp01(t));
  }

  /**
   * At t >= 1 LerpAngle lands on the target up to whole turns: a large
   * elapsed time makes the applied angle reach the target in one step.
   */
  lemma LerpAngleReachesTarget(a: real, b: real, t: real)
    requires t >= 1.0
    ensures IsWholeTurns(LerpAngle(a, b, t) - b)
  {
    var n := ShortestDeltaTurns(a, b);
    assert LerpAngle(a, b, t) - b == ((-n) as real) * 360.0;
    WholeTurns(-n);
  }

  /** Truncation toward zero, as C# rounds the quotient of `%`. */
  function Trunc(x: real): int {
    if x >= 0.0 then x.Floor else -((-x).Floor)
  }

  /**
   * C#'s `%` on floating-point operands: the remainder of a division whose
   * quotient is truncated toward zero, so that it takes the sign of `x`.
   */
  function FMod(x: real, y: real): real
    requires y != 0.0
  {
    x - y * (Trunc(x / y) as real)
  }

  /**
   * The remainder takes the sign of `x` and is smaller than `y` in
   * magnitude, and `x` differs from it by a whole multiple of `y`.
   */
  lemma FModRange(x: real, y: real)
    requires y > 0.0
    ensures x >= 0.0 ==> 0.0 <= FMod(x, y) < y
    ensures x < 0.0 ==> -y < FMod(x, y) <= 0.0
    ensures x - FMod(x, y) == y * (Trunc(x / y) as real)
  {
    var q := x / y;
    var k := Trunc(q) as real;
    assert FMod(x, y) == x - y * k;
    assert y * q == x;
    if x >= 0.0 {
      // q lies in [k, k + 1)
      var below, above := q - k, k + 1.0 - q;
      MulNonNeg(y, below);
      MulPos(y, above);
      assert y * below == x - y * k;
      assert y * above == y * k + y - x;
    } else {
      // q lies in (k - 1, k]
      var below, above := q - k + 1.0, k - q;
      MulPos(y, below);
      MulNonNeg(y, above);
      assert y * below == x - y * k + y;
      assert y * above == y * k - x;
    }
  }
}

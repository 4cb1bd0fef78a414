/**
 * The scalar arithmetic the heat sources rely on, over exact reals:
 * deal.II's PI, C's truncating `std::fmod` for a positive divisor, and the
 * coordinate axes of a `dim`-dimensional point.
 */
module Numerics {

  /** `dealii::numbers::PI`, taken as the exact decimal it is written as. */
  const PI: real := 3.14159265358979323846

  function Sq(x: real): real { x * x }

  lemma SqNonnegative(x: real)
    ensures Sq(x) >= 0.0
  {
    ProductSign(x, x);
  }

  lemma SqPositive(x: real)
    requires x != 0.0
    ensures Sq(x) > 0.0
  {
    ProductSign(x, x);
  }

  lemma ProductSign(a: real, b: real)
    ensures a * b > 0.0 <==> (a > 0.0 && b > 0.0) || (a < 0.0 && b < 0.0)
    ensures a * b == 0.0 <==> a == 0.0 || b == 0.0
  {
    if a > 0.0 && b < 0.0 {
      assert a * -b > 0.0;
    } else if a < 0.0 && b > 0.0 {
      assert -a * b > 0.0;
    } else if a < 0.0 && b < 0.0 {
      assert -a * -b > 0.0;
    }
  }


  /** Truncation toward zero, the integer C's `fmod` takes away. */
  function Trunc(q: real): (n: int)
    ensures q >= 0.0 ==> n as real <= q < n as real + 1.0
    ensures q <= 0.0 ==> n as real - 1.0 < q <= n as real
    ensures q >= 0.0 ==> n >= 0
    ensures q <= 0.0 ==> n <= 0
  {
    if q >= 0.0 then q.Floor else -((-q).Floor)
  }

  /** `d` is an integer multiple of `m`. */
  ghost predicate IsMultiple(d: real, m: real)
    requires m > 0.0
  {
    (d / m).Floor as real == d / m
  }

  lemma MultipleOf(d: real, m: real, k: int)
    requires m > 0.0 && d == k as real * m
    ensures IsMultiple(d, m)
  {
    assert d / m == k as real;
  }

  /** Adding a whole turn keeps a multiple a multiple. */
  lemma MultipleShift(d: real, m: real, k: int)
    requires m > 0.0 && IsMultiple(d, m)
    ensures IsMultiple(d + k as real * m, m)
  {
    var n := (d / m).Floor;
    assert d == n as real * m;
    MultipleOf(d + k as real * m, m, n + k);
  }

  lemma MultipleSum(d1: real, d2: real, m: real)
    requires m > 0.0 && IsMultiple(d1, m) && IsMultiple(d2, m)
    ensures IsMultiple(d1 + d2, m) && IsMultiple(-d1, m)
  {
    var n1, n2 := (d1 / m).Floor, (d2 / m).Floor;
    assert d1 == n1 as real * m;
    assert d2 == n2 as real * m;
    MultipleOf(d1 + d2, m, n1 + n2);
    MultipleOf(-d1, m, -n1);
  }

  /** The only multiple of `m` strictly between -m and m is zero. */
  lemma {:induction false} SmallMultipleIsZero(d: real, m: real)
    requires m > 0.0 && IsMultiple(d, m) && -m < d < m
    ensures d == 0.0
  {
    var n := (d / m).Floor;
    assert d == n as real * m;
    if n >= 1 {
      MulMonotone(1.0, n as real, m);
    } else if n <= -1 {
      MulMonotone(n as real, -1.0, m);
    }
  }

  lemma MulMonotone(a: real, b: real, m: real)
    requires m > 0.0 && a <= b
    ensures a * m <= b * m
  {
    assert b * m - a * m == (b - a) * m;
  }

  /**
   * C's `std::fmod(x, y)` for y > 0: `x - y * trunc(x / y)`. The result keeps
   * the sign of `x`, is smaller than `y` in magnitude and differs from `x` by
   * a whole number of `y`; an `x` already inside (-y, y) is returned as is.
   */
  function Fmod(x: real, y: real): (r: real)
    requires y > 0.0
    ensures -y < r < y
    ensures x >= 0.0 ==> r >= 0.0
    ensures x <= 0.0 ==> r <= 0.0
    ensures IsMultiple(x - r, y)
    ensures -y < x < y ==> r == x
  {
    var n := Trunc(x / y);
    FmodRemainder(x, y, n);
    x - y * n as real
  }

  lemma FmodRemainder(x: real, y: real, n: int)
    requires y > 0.0 && n == Trunc(x / y)
    ensures -y < x - y * n as real < y
    ensures x >= 0.0 ==> x - y * n as real >= 0.0
    ensures x <= 0.0 ==> x - y * n as real <= 0.0
    ensures IsMultiple(x - (x - y * n as real), y)
    ensures -y < x < y ==> x - y * n as real == x
  {
    var f := TruncFraction(x, y, n);
    ScaledFraction(y, f);
    assert -y < x - y * n as real < y;
    assert x - (x - y * n as real) == n as real * y;
    MultipleOf(n as real * y, y, n);
    if -y < x < y {
      TruncInsideUnit(x, y);
    }
  }

  lemma TruncInsideUnit(x: real, y: real)
    requires y > 0.0 && -y < x < y
    ensures Trunc(x / y) == 0
  {
    QuotientInUnit(x, y);
  }

  /** What truncation leaves of `x / y`, as a fraction of `y`. */
  lemma TruncFraction(x: real, y: real, n: int) returns (f: real)
    requires y > 0.0 && n == Trunc(x / y)
    ensures -1.0 < f < 1.0
    ensures x >= 0.0 ==> f >= 0.0
    ensures x <= 0.0 ==> f <= 0.0
    ensures x - y * n as real == y * f
  {
    var q := x / y;
    f := q - n as real;
    QuotientSign(x, y);
    assert x == q * y;
  }

  lemma QuotientSign(x: real, y: real)
    requires y > 0.0
    ensures x >= 0.0 <==> x / y >= 0.0
    ensures x <= 0.0 <==> x / y <= 0.0
  {
    assert x == (x / y) * y;
  }

  lemma ScaledFraction(y: real, f: real)
    requires y > 0.0 && -1.0 < f < 1.0
    ensures -y < y * f < y
    ensures f >= 0.0 ==> y * f >= 0.0
    ensures f <= 0.0 ==> y * f <= 0.0
  {
    assert y * (1.0 - f) > 0.0 && y * (1.0 + f) > 0.0;
    assert y * (1.0 - f) == y - y * f && y * (1.0 + f) == y + y * f;
  }

  lemma QuotientInUnit(x: real, y: real)
    requires y > 0.0 && -y < x < y
    ensures -1.0 < x / y < 1.0
  {
    var q := x / y;
    assert x == q * y;
    if q >= 1.0 {
      MulMonotone(1.0, q, y);
    } else if q <= -1.0 {
      MulMonotone(q, -1.0, y);
    }
  }

  /**
   * The representative of the direction `a` in (-PI, PI]: `a` less a whole
   * number of turns. This is the convention the advancing/retreating split
   * is evidently meant to use.
   */
  function NormalisedAngle(a: real): (n: real)
    ensures -PI < n <= PI
    ensures IsMultiple(a - n, 2.0 * PI)
  {
    var r := Fmod(a, 2.0 * PI);
    if r > PI then
      MultipleShift(a - r, 2.0 * PI, 1);
      r - 2.0 * PI
    else if r <= -PI then
      MultipleShift(a - r, 2.0 * PI, -1);
      r + 2.0 * PI
    else
      r
  }

  /** An integer `k` with `d == k * m`, for a multiple `d` of `m`. */
  lemma Quotient(d: real, m: real) returns (k: int)
    requires m > 0.0 && IsMultiple(d, m)
    ensures d == k as real * m
  {
    k := (d / m).Floor;
  }

  /** Two directions a whole number of turns apart normalise to the same angle. */
  lemma {:induction false} NormalisedAngleOfSameDirection(a: real, b: real)
    requires IsMultiple(a - b, 2.0 * PI)
    ensures NormalisedAngle(a) == NormalisedAngle(b)
  {
    var na, nb := NormalisedAngle(a), NormalisedAngle(b);
    var kab := Quotient(a - b, 2.0 * PI);
    var ka := Quotient(a - na, 2.0 * PI);
    var kb := Quotient(b - nb, 2.0 * PI);
    assert na - nb == (kab + kb - ka) as real * (2.0 * PI);
    MultipleOf(na - nb, 2.0 * PI, kab + kb - ka);
    SmallMultipleIsZero(na - nb, 2.0 * PI);
  }
}

/**
 * `axis<dim>` of the source's utility header: x is component 0 and z the last
 * component; a y component exists only in three dimensions.
 */
module Axes {

  predicate SupportedDim(dim: nat) { dim == 2 || dim == 3 }

  const X: nat := 0
  const Y: nat := 1

  function Z(dim: nat): (z: nat)
    requires SupportedDim(dim)
    ensures z < dim && z != X && (dim == 3 ==> z != Y)
  {
    dim - 1
  }
}

/** Integer and real arithmetic as the C ports and the Python originals perform it.
    Floats are modelled as `real`; the conversions and remainders that differ between
    the two languages are written out here once. */
module Numeric {

  /** C's `(int)r` and Python's `int(r)`: truncation toward zero. */
  function Trunc(r: real): (n: int)
    ensures 0.0 <= r ==> n as real <= r < n as real + 1.0
    ensures r < 0.0 ==> n as real - 1.0 < r <= n as real
  {
    if r >= 0.0 then r.Floor else -((-r).Floor)
  }

  /** C's `a % b` on `int` for a positive divisor: the remainder takes the sign of `a`,
      and adding `b` to a negative remainder gives the floored (Python) remainder. */
  function CRem(a: int, b: int): (r: int)
    requires b > 0
    ensures -b < r < b
    ensures 0 <= a ==> r == a % b
    ensures a <= 0 ==> r <= 0
    ensures (if r < 0 then r + b else r) == a % b
  {
    if a >= 0 then a % b
    else
      var q, m := (-a) / b, (-a) % b;
      if m == 0 then
        ModUnique(a, b, -q, 0);
        0
      else
        ModUnique(a, b, -q - 1, b - m);
        -m
  }

  /** Euclidean division is unique: `a == b * k + s` with `0 <= s < b` fixes `a % b` and `a / b`. */
  lemma ModUnique(a: int, b: int, k: int, s: int)
    requires b > 0 && 0 <= s < b && a == b * k + s
    ensures a % b == s && a / b == k
  {
    var d := k - a / b;
    assert b * d == a % b - s;
    IntMulBounds(b, d);
  }

  lemma IntMulBounds(b: int, d: int)
    requires b > 0
    ensures d >= 1 ==> b * d >= b
    ensures d <= -1 ==> b * d <= -b
  {
  }

  /** C's `fmodf(a, b)` for a positive divisor: `a - b * trunc(a / b)`, with the sign of `a`.
      For a non-negative `a` it agrees with Python's float remainder. */
  function CFmod(a: real, b: real): (r: real)
    requires b > 0.0
    ensures -b < r < b
    ensures 0.0 <= a ==> 0.0 <= r && r == PyFmod(a, b)
    ensures a <= 0.0 ==> r <= 0.0
    ensures 0.0 <= a < b ==> r == a
  {
    if a >= 0.0 then PyFmod(a, b)
    else
      CeilRemainder(a, b);
      a - b * -((-a / b).Floor as real)
  }

  /** Python's `a % b` on floats for a positive divisor: `a - b * floor(a / b)`, in `[0, b)`. */
  function PyFmod(a: real, b: real): (r: real)
    requires b > 0.0
    ensures 0.0 <= r < b
    ensures 0.0 <= a < b ==> r == a
  {
    var q := (a / b).Floor as real;
    ScaleBelow(a, b, q);
    ScaleAbove(a, b, q + 1.0);
    Distrib(b, q, 1.0);
    if 0.0 <= a < b then UnitRatio(a, b); assert q == 0.0; a - b * q
    else a - b * q
  }

  /** `a - b * ceil(a / b)` lies in `(-b, 0]` for a negative `a`. */
  lemma CeilRemainder(a: real, b: real)
    requires b > 0.0 && a < 0.0
    ensures var q := -((-a / b).Floor as real); -b < a - b * q <= 0.0
  {
    var q := -((-a / b).Floor as real);
    DivNeg(a, b);
    ScaleAboveEq(a, b, q);
    ScaleBelowStrict(a, b, q - 1.0);
    Distrib(b, q, -1.0);
  }

  lemma DivNeg(a: real, b: real)
    requires b > 0.0
    ensures -a / b == -(a / b)
  {
    var x, y := -a / b, a / b;
    assert b * x == -a && b * y == a;
    if x + y > 0.0 { MulLt(0.0, x + y, b); assert false; }
    if x + y < 0.0 { MulLt(x + y, 0.0, b); assert false; }
  }

  /** Multiplication by a positive real is monotone. */
  lemma MulLe(x: real, y: real, b: real)
    requires b > 0.0 && x <= y
    ensures b * x <= b * y
  {
    assert b * y - b * x == b * (y - x);
  }
  lemma MulLt(x: real, y: real, b: real)
    requires b > 0.0 && x < y
    ensures b * x < b * y
  {
    assert b * y - b * x == b * (y - x);
  }
  /** The four ways of scaling a bound on `a / b` by a positive `b`. */
  lemma ScaleBelow(a: real, b: real, r: real)
    requires b > 0.0 && r <= a / b
    ensures b * r <= a
  {
    MulLe(r, a / b, b);
  }
  lemma ScaleAbove(a: real, b: real, r: real)
    requires b > 0.0 && a / b < r
    ensures a < b * r
  {
    MulLt(a / b, r, b);
  }
  lemma ScaleAboveEq(a: real, b: real, r: real)
    requires b > 0.0 && a / b <= r
    ensures a <= b * r
  {
    MulLe(a / b, r, b);
  }
  lemma ScaleBelowStrict(a: real, b: real, r: real)
    requires b > 0.0 && r < a / b
    ensures b * r < a
  {
    MulLt(r, a / b, b);
  }
  lemma Distrib(b: real, r: real, c: real)
    ensures b * (r + c) == b * r + b * c
  {}
  /** A non-negative `a` below a positive `b` has a ratio in `[0, 1)`. */
  lemma UnitRatio(a: real, b: real)
    requires b > 0.0 && 0.0 <= a < b
    ensures 0.0 <= a / b < 1.0
  {
    if a / b >= 1.0 { MulLe(1.0, a / b, b); assert false; }
  }

  /** The whole number of steps of length `b` in `a`: `floor(a / b) * b <= a < (floor(a / b) + 1) * b`. */
  lemma FloorSteps(a: real, b: real)
    requires b > 0.0
    ensures var f := (a / b).Floor; f as real * b <= a < (f + 1) as real * b
  {
    var q := a / b;
    var f := q.Floor;
    ScaleBelow(a, b, f as real);
    ScaleAbove(a, b, f as real + 1.0);
    assert (f + 1) as real == f as real + 1.0;
  }

  /** A quotient of a value below `n * b` by `b` is below `n`. */
  lemma QuotBelow(a: real, b: real, n: real)
    requires b > 0.0 && 0.0 <= a < n * b
    ensures 0.0 <= a / b < n
  {
    ScaleBelow(a, b, 0.0);
    if a / b >= n { ScaleBelow(a, b, n); assert false; }
  }

  /** One more step of length `d`: from `z == k * d`, the next position `z' == z + d` is
      `(k + 1) * d`. */
  lemma StepOn(k: int, d: real, z: real, k': int, z': real)
    requires z == k as real * d && k' == k + 1 && z' == z + d
    ensures z' == k' as real * d
  {
    assert (k + 1) as real * d == k as real * d + d;
  }

  /** Linear interpolation `a + (b - a) * t`, as every version blends curve and pitch. */
  function Lerp(a: real, b: real, t: real): (r: real)
    ensures t == 0.0 ==> r == a
    ensures t == 1.0 ==> r == b
    ensures a == b ==> r == a
  {
    a + (b - a) * t
  }

  /** For a ratio in `[0, 1]` the interpolated value lies between the two ends. */
  lemma LerpBetween(a: real, b: real, t: real)
    requires 0.0 <= t <= 1.0
    ensures a <= b ==> a <= Lerp(a, b, t) <= b
    ensures b <= a ==> b <= Lerp(a, b, t) <= a
  {
    assert Lerp(a, b, t) == a + (b - a) * t;
    if a <= b {
      ProdBounds(b - a, t);
    } else {
      ProdBoundsNeg(b - a, t);
    }
  }

  lemma ProdBoundsNeg(d: real, t: real)
    requires d <= 0.0 && 0.0 <= t <= 1.0
    ensures d <= d * t <= 0.0
  {
    if t > 0.0 { MulLe(d, 0.0, t); }
    if t < 1.0 { MulLe(d, 0.0, 1.0 - t); assert (1.0 - t) * d == d - d * t; }
  }

  lemma ProdBounds(d: real, t: real)
    requires d >= 0.0 && 0.0 <= t <= 1.0
    ensures 0.0 <= d * t <= d
  {
    if d > 0.0 { MulLe(t, 1.0, d); MulLe(0.0, t, d); }
  }
}

/** Scalar helpers shared by the whole viewer: clamping, the rounding
    JavaScript's `%` uses, and the angle constants of hoshizora.js. */
module Numeric {

  datatype Option<T> = None | Some(value: T)

  /** Math.PI, written as the decimal the viewer's double prints as. */
  const Pi: real := 3.141592653589793
  const TwoPi: real := 2.0 * Pi
  const Deg2Rad: real := Pi / 180.0

  /** Length of a day in seconds (SEC24H). */
  const Sec24h: real := 86400.0

  /** Radians of sidereal rotation per second of sidereal time (SEC2RAD). */
  const Sec2Rad: real := TwoPi / Sec24h

  predicate IsInteger(x: real) { x.Floor as real == x }

  /** clamp(x, lower, upper): below the interval gives `lower`, above it
      gives `upper`, inside it gives x back. */
  function Clamp(x: real, lower: real, upper: real): (r: real)
    ensures lower <= upper ==> lower <= r <= upper
    ensures lower <= x <= upper ==> r == x
    ensures r == x || r == lower || r == upper
  {
    if x < lower then lower else if x > upper then upper else x
  }

  /** Clamping twice is clamping once. */
  lemma ClampIdempotent(x: real, lower: real, upper: real)
    requires lower <= upper
    ensures Clamp(Clamp(x, lower, upper), lower, upper) == Clamp(x, lower, upper)
  {
  }

  /** Clamping never reverses the order of two values. */
  lemma ClampMonotone(x: real, y: real, lower: real, upper: real)
    requires lower <= upper && x <= y
    ensures Clamp(x, lower, upper) <= Clamp(y, lower, upper)
  {
  }

  /** The integer part of x, rounding toward zero, as JavaScript's `%`
      rounds its quotient. */
  function Trunc(x: real): (n: int)
    ensures 0.0 <= x ==> 0 <= n && n as real <= x < n as real + 1.0
    ensures x <= 0.0 ==> n <= 0 && n as real - 1.0 < x <= n as real
  {
    if x >= 0.0 then x.Floor else -((-x).Floor)
  }

  /** JavaScript's remainder `a % b` on numbers: the result has the sign of
      the dividend and a magnitude below |b|.  (For b == 0 JavaScript gives
      NaN; no caller divides by zero.) */
  function JsRem(a: real, b: real): (r: real)
    requires b != 0.0
    ensures 0.0 < b && 0.0 <= a ==> 0.0 <= r < b
    ensures 0.0 < b && a <= 0.0 ==> -b < r <= 0.0
    ensures IsInteger((a - r) / b)
  {
    var m := Trunc(a / b) as real;
    RemainderIsMultiple(a, b, m);
    if 0.0 < b then RemainderBounds(a, b, m); a - b * m else a - b * m
  }

  /** a - b*m differs from a by m copies of b. */
  lemma RemainderIsMultiple(a: real, b: real, m: real)
    requires b != 0.0
    ensures (a - (a - b * m)) / b == m
  {
    assert a - (a - b * m) == b * m;
  }

  /** The fraction q - Trunc(q) of the quotient, scaled back by b, is the
      remainder, and it keeps the sign of the dividend. */
  lemma RemainderBounds(a: real, b: real, m: real)
    requires 0.0 < b && m == Trunc(a / b) as real
    ensures 0.0 <= a ==> 0.0 <= a - b * m < b
    ensures a <= 0.0 ==> -b < a - b * m <= 0.0
  {
    var q := a / b;
    var t := q - m;
    QuotientSign(a, b);
    RemainderAsProduct(a, b, q, m, t);
    ScaleUp(b, t, a - b * m);
    ScaleDown(b, t, a - b * m);
  }

  lemma RemainderAsProduct(a: real, b: real, q: real, m: real, t: real)
    requires b != 0.0 && q == a / b && t == q - m
    ensures a - b * m == b * t
  {
    assert a == b * q;
  }

  lemma QuotientSign(a: real, b: real)
    requires 0.0 < b
    ensures 0.0 <= a ==> 0.0 <= a / b
    ensures a <= 0.0 ==> a / b <= 0.0
  {
  }

  lemma ScaleUp(b: real, t: real, p: real)
    requires 0.0 < b && p == b * t
    ensures 0.0 <= t < 1.0 ==> 0.0 <= p < b
  {
  }

  lemma ScaleDown(b: real, t: real, p: real)
    requires 0.0 < b && p == b * t
    ensures -1.0 < t <= 0.0 ==> -b < p <= 0.0
  {
  }

  // ---------------------------------------------------------------------
  // Division facts, one step each

  lemma DivSplit(a: real, r: real, b: real)
    requires b != 0.0
    ensures a / b == (a - r) / b + r / b
  {
    assert (a - r) / b + r / b == ((a - r) + r) / b;
  }

  lemma DivShiftOne(a: real, b: real)
    requires b != 0.0
    ensures (a - b) / b == a / b - 1.0
  {
    DivSplit(a, b, b);
    assert b / b == 1.0;
  }

  lemma DivBelowOne(r: real, b: real)
    requires 0.0 < b && 0.0 <= r < b
    ensures 0.0 <= r / b < 1.0
  {
    QuotientSign(r, b);
    PositiveQuotient(b - r, b);
    DivSplit(b, r, b);
    assert b / b == 1.0;
  }

  lemma PositiveQuotient(a: real, b: real)
    requires 0.0 < a && 0.0 < b
    ensures 0.0 < a / b
  {
  }

  lemma DivTimes(a: real, b: real, k: real)
    requires b != 0.0 && k == a / b
    ensures b * k == a
  {
  }

  lemma IntegerMinusOne(k: real)
    requires IsInteger(k)
    ensures IsInteger(k - 1.0)
  {
  }

  /** If r is in [0, b) and differs from g by a whole number of b, then it
      is g minus b times floor(g / b). */
  lemma FlooredRemainder(g: real, r: real, b: real)
    requires 0.0 < b && 0.0 <= r < b && IsInteger((g - r) / b)
    ensures (g / b).Floor as real == (g - r) / b
    ensures r == g - b * (g / b).Floor as real
  {
    var k := (g - r) / b;
    var q := g / b;
    DivSplit(g, r, b);
    DivBelowOne(r, b);
    assert k <= q < k + 1.0;
    FloorBetween(q, k);
    DivTimes(g - r, b, k);
  }

  lemma FloorBetween(q: real, k: real)
    requires IsInteger(k) && k <= q < k + 1.0
    ensures q.Floor as real == k
  {
    var m, n := k.Floor, q.Floor;
    assert m as real == k;
    assert n as real <= q < n as real + 1.0;
    assert m < n + 1;
    assert n < m + 1;
  }
}

/** Real-number stand-ins for the parts of the C maths library the filter calls.

    `sqrtf`, `sinf`, `cosf`, `asinf`, `atan2f` and `fmodf` are left
    uninterpreted: they are the fields of a `Libm` value that every operation
    using them receives, and `Lawful` lists the only facts about them that the
    proofs rely on. `fabsf` is exact and is defined here, and so is the
    remainder that `fmodf` computes, against which `Lawful` pins it down. */
module MathLib {

  /** The transcendental functions of <math.h> used by the filter. */
  datatype Libm = Libm(
    sqrt: real -> real,
    sin: real -> real,
    cos: real -> real,
    asin: real -> real,
    atan2: (real, real) -> real,
    fmod: (real, real) -> real)

  /** What every conforming maths library satisfies and the proofs need:
      square roots of non-negative numbers are non-negative, the square root
      of zero is zero, cosine and sine lie on the unit circle, and fmodf,
      which C requires to be exact, is the truncated remainder FModF. */
  ghost predicate Lawful(m: Libm) {
    && (forall x :: 0.0 <= x ==> 0.0 <= m.sqrt(x))
    && m.sqrt(0.0) == 0.0
    && (forall a :: m.cos(a) * m.cos(a) + m.sin(a) * m.sin(a) == 1.0)
    && (forall x, y :: 0.0 < y ==> m.fmod(x, y) == FModF(x, y))
  }

  /** M_PI, and the wrap-around period `2 * (float)M_PI` of headings. */
  const Pi: real := 3.14159265358979323846
  const TwoPi: real := 2.0 * Pi

  /** fabsf */
  function Abs(x: real): real {
    if x < 0.0 then -x else x
  }

  /** C's conversion of a real quotient to an integer, toward zero. */
  function Trunc(r: real): int {
    if 0.0 <= r then r.Floor else -((-r).Floor)
  }

  /** The value of fmodf(x, y) for a positive divisor: x minus the multiple of y obtained
      by truncating x / y toward zero, so the result keeps the sign of x. */
  function FModF(x: real, y: real): real
    requires 0.0 < y
  {
    x - (Trunc(x / y) as real) * y
  }

  /** fmodf stays strictly inside (-y, y), has the sign of its dividend and
      leaves a value of (-y, y) unchanged. */
  lemma FModFRange(x: real, y: real)
    requires 0.0 < y
    ensures -y < FModF(x, y) < y
    ensures 0.0 <= x ==> 0.0 <= FModF(x, y)
    ensures x <= 0.0 ==> FModF(x, y) <= 0.0
    ensures -y < x < y ==> FModF(x, y) == x
  {
    var q := x / y;
    var n := Trunc(q);
    assert x == q * y;
    assert FModF(x, y) == x - (n as real) * y;
    if 0.0 <= x {
      DividendAbove(x, y, q, n);
    } else {
      DividendBelow(x, y, q, n);
    }
  }

  /** For x >= 0 the truncated multiple n*y is the largest multiple of y not above x. */
  lemma DividendAbove(x: real, y: real, q: real, n: int)
    requires 0.0 < y && 0.0 <= x && x == q * y && n == Trunc(q)
    ensures (n as real) * y <= x < (n as real) * y + y
    ensures x < y ==> n == 0
  {
    if q < 0.0 {
      MulMonotone(q, 0.0, y);
    }
    assert n as real <= q < n as real + 1.0;
    MulMonotone(n as real, q, y);
    BelowNext(q, n as real, y);
    calc { x; == q * y; < (n as real) * y + y; }
    if x < y && 1 <= n {
      MulMonotone(1.0, n as real, y);
      calc { y; <= (n as real) * y; <= q * y; == x; }
      assert false;
    }
  }

  /** For x < 0 the truncated multiple n*y is the smallest multiple of y not below x. */
  lemma DividendBelow(x: real, y: real, q: real, n: int)
    requires 0.0 < y && x < 0.0 && x == q * y && n == Trunc(q)
    ensures (n as real) * y - y < x <= (n as real) * y
    ensures -y < x ==> n == 0
  {
    if 0.0 <= q {
      MulMonotone(0.0, q, y);
    }
    assert q < 0.0;
    assert n as real - 1.0 < q <= n as real;
    MulMonotone(q, n as real, y);
    BelowNext(n as real - 1.0, q - 1.0, y);
    calc {
      (n as real) * y - y;
      == (n as real - 1.0) * y;
      < (q - 1.0) * y + y;
      == q * y;
      == x;
    }
    if -y < x {
      calc { -1.0 * y; == -y; < x; == q * y; }
      MulCancelStrict(-1.0, q, y);
    }
  }

  lemma MulMonotone(a: real, b: real, c: real)
    requires a <= b && 0.0 < c
    ensures a * c <= b * c
  {}

  lemma MulCancelStrict(a: real, b: real, c: real)
    requires 0.0 < c && a * c < b * c
    ensures a < b
  {}

  lemma BelowNext(a: real, b: real, c: real)
    requires a < b + 1.0 && 0.0 < c
    ensures a * c < b * c + c
  {
    assert (b + 1.0) * c == b * c + c;
    assert a * c < (b + 1.0) * c;
  }

  /** fmodf does not wrap a negative dividend into [0, 2*pi): a heading that
      a small negative noise draw pushes below zero stays negative. */
  lemma NegativeHeadingStaysNegative(m: Libm)
    requires Lawful(m)
    ensures m.fmod(-0.5, TwoPi) == -0.5
  {
    FModFRange(-0.5, TwoPi);
    assert -0.5 / TwoPi > -1.0;
  }
}

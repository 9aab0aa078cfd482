/**
 * The parts of java.lang.Math (and of Java's numeric casts) that the
 * controller relies on, over exact reals.
 *
 * Math.cos, Math.sin, Math.pow and Math.sqrt are calls into the platform
 * library; the model receives them as functions supplied by the caller
 * (a Numerics value) and knows of them only the laws stated below.
 */
module JavaMath {

  /** The library functions the controller calls, supplied from outside. */
  datatype Numerics = Numerics(
    cos: real -> real,
    sin: real -> real,
    pow: (real, real) -> real,
    sqrt: real -> real)

  /** Math.sqrt on a non-negative argument is non-negative, and zero only at zero. */
  ghost predicate SqrtLaw(sqrt: real -> real)
  {
    forall y :: y >= 0.0 ==> sqrt(y) >= 0.0 && (sqrt(y) == 0.0 <==> y == 0.0)
  }

  /**
   * Math.sqrt on a non-negative argument squares back to it (exact reals).
   * Kept apart from SqrtLaw: the controller's proofs do not need it.
   */
  ghost predicate SqrtSquares(sqrt: real -> real)
  {
    forall y :: y >= 0.0 ==> sqrt(y) * sqrt(y) == y
  }

  /** Math.pow with a positive exponent: 0^e = 0, and a base in [0, 1] stays in [0, 1]. */
  ghost predicate PowLaw(pow: (real, real) -> real)
  {
    && (forall e :: e > 0.0 ==> pow(0.0, e) == 0.0)
    && (forall x, e :: 0.0 <= x <= 1.0 && e > 0.0 ==> 0.0 <= pow(x, e) <= 1.0)
  }

  /** The laws the controller's proofs use (nothing is assumed of cos and sin). */
  ghost predicate Lawful(m: Numerics)
  {
    SqrtLaw(m.sqrt) && PowLaw(m.pow)
  }

  /** Java's (int) cast of a double: truncation toward zero (overflow not modelled). */
  function Trunc(x: real): (r: int)
    ensures x >= 0.0 ==> r as real <= x < r as real + 1.0
    ensures x < 0.0 ==> r as real - 1.0 < x <= r as real
  {
    if x >= 0.0 then x.Floor else -((-x).Floor)
  }

  function Min(a: real, b: real): real { if a <= b then a else b }

  function Max(a: real, b: real): real { if a >= b then a else b }

  function IMin(a: int, b: int): int { if a <= b then a else b }

  function IMax(a: int, b: int): int { if a >= b then a else b }

  function Abs(x: real): real { if x >= 0.0 then x else -x }

  /** Dividing a multiple of a value is scaling the quotient: if t is k times s, t / n is k times s / n. */
  lemma QuotientOfMultiple(s: real, t: real, n: real, k: real)
    requires n != 0.0 && t == k * s
    ensures t / n == k * (s / n)
  {
    var q := s / n;
    assert q * n == s;
    assert (k * q) * n == t;
  }

  /** A common non-zero factor cancels from a quotient. */
  lemma CancelFactor(a: real, n: real, k: real)
    requires n != 0.0 && k != 0.0
    ensures (k * a) / (k * n) == a / n
  {
    var x := a / n;
    assert x * n == a;
    assert x * (k * n) == k * a;
  }

  /** Multiplying by a factor in [0, 1] keeps the sign and does not grow the size. */
  lemma ScaleByFraction(x: real, f: real)
    requires 0.0 <= f <= 1.0
    ensures Abs(x * f) <= Abs(x)
    ensures x >= 0.0 ==> x * f >= 0.0
    ensures x <= 0.0 ==> x * f <= 0.0
  {
    var a, g := Abs(x), 1.0 - f;
    assert a >= 0.0 && g >= 0.0;
    assert a * f >= 0.0;
    assert a - a * f == a * g;
    assert a * g >= 0.0;
    assert x * f == a * f || x * f == -(a * f);
  }
}

/**
 * The immutable complex value the controller computes its wave components
 * with. Doubles are exact reals here; Java's equals (exact comparison of
 * both parts, no tolerance) is datatype equality.
 */
module ComplexNumbers {
  import opened JavaMath

  datatype Complex = Complex(re: real, im: real)
  {
    /** zero(): both parts 0. */
    static function Zero(): (z: Complex)
      ensures z.re == 0.0 && z.im == 0.0
    {
      Complex(0.0, 0.0)
    }

    /** real(x): the complex number x + 0i. */
    static function Real(x: real): (c: Complex)
      ensures c.re == x && c.im == 0.0
    {
      Complex(x, 0.0)
    }

    /**
     * divideBy(double): both parts divided by the scalar, so that scaling
     * the quotient back by the divisor gives the original parts.
     */
    function DivideByReal(d: real): (r: Complex)
      requires d != 0.0
      ensures r.re * d == re && r.im * d == im
    {
      Complex(re / d, im / d)
    }

    /** The squared magnitude, real^2 + imaginary^2. */
    function NormSquared(): (n: real)
      ensures n >= 0.0
      ensures n == 0.0 <==> this == Zero()
    {
      SumOfSquares(re, im);
      re * re + im * im
    }

    /** abs(): the magnitude sqrt(real^2 + imaginary^2), by the naive formula. */
    function Abs(sqrt: real -> real): (r: real)
      requires SqrtLaw(sqrt)
      ensures r >= 0.0
      ensures r == 0.0 <==> this == Zero()
    {
      sqrt(NormSquared())
    }

    /**
     * divideBy(Complex): division through the divisor's squared magnitude.
     * The quotient times the divisor is the dividend.
     */
    function DivideBy(divisor: Complex): (r: Complex)
      requires divisor != Zero()
      ensures r.MultiplyBy(divisor) == this
    {
      var denominator := divisor.NormSquared();
      var q := Complex((re * divisor.re + im * divisor.im) / denominator,
                       (-re * divisor.im + im * divisor.re) / denominator);
      DivisionRoundTrip(this, divisor, denominator, q);
      q
    }

    /** multiplyBy: the complex product; a real multiplier scales both parts. */
    function MultiplyBy(multiplier: Complex): (r: Complex)
      ensures multiplier.im == 0.0 ==> r.re == multiplier.re * re && r.im == multiplier.re * im
    {
      Complex(re * multiplier.re - im * multiplier.im,
              re * multiplier.im + im * multiplier.re)
    }

    /** minus: componentwise difference. */
    function Minus(other: Complex): (r: Complex)
      ensures r.re == re - other.re && r.im == im - other.im
    {
      Complex(re - other.re, im - other.im)
    }

    /** equals: exact componentwise comparison, with no tolerance. */
    function Equals(other: Complex): (b: bool)
      ensures b <==> this == other
    {
      re == other.re && im == other.im
    }
  }

  /** A real quotient by a non-zero real is zero exactly when its dividend is. */
  lemma QuotientIsZero(x: real, d: real)
    requires d != 0.0
    ensures x / d == 0.0 <==> x == 0.0
  {
    assert (x / d) * d == x;
  }

  /** divideBy(double) gives the zero number exactly for the zero number. */
  lemma QuotientByRealIsZero(a: Complex, d: real)
    requires d != 0.0
    ensures a.DivideByReal(d) == Complex.Zero() <==> a == Complex.Zero()
  {
    QuotientIsZero(a.re, d);
    QuotientIsZero(a.im, d);
  }

  /** abs() squared is real^2 + imaginary^2. */
  lemma AbsSquared(a: Complex, sqrt: real -> real)
    requires SqrtLaw(sqrt) && SqrtSquares(sqrt)
    ensures a.Abs(sqrt) * a.Abs(sqrt) == a.re * a.re + a.im * a.im
  {
  }

  /** The quotient computed by DivideBy, multiplied back by the divisor, gives the dividend. */
  lemma DivisionRoundTrip(a: Complex, b: Complex, n: real, q: Complex)
    requires n == b.re * b.re + b.im * b.im && n != 0.0
    requires q.re == (a.re * b.re + a.im * b.im) / n
    requires q.im == (-a.re * b.im + a.im * b.re) / n
    ensures q.MultiplyBy(b) == a
  {
    var x := a.re * b.re + a.im * b.im;
    var y := -a.re * b.im + a.im * b.re;
    assert q.re * n == x && q.im * n == y;
    calc {
      (q.re * b.re - q.im * b.im) * n;
      x * b.re - y * b.im;
      a.re * (b.re * b.re + b.im * b.im);
      a.re * n;
    }
    calc {
      (q.re * b.im + q.im * b.re) * n;
      x * b.im + y * b.re;
      a.im * (b.re * b.re + b.im * b.im);
      a.im * n;
    }
  }

  /** Multiplying and then dividing by the same non-zero value gives back the original. */
  lemma MultiplyThenDivide(a: Complex, b: Complex)
    requires b != Complex.Zero()
    ensures a.MultiplyBy(b).DivideBy(b) == a
  {
    var p := a.MultiplyBy(b);
    var q := p.DivideBy(b);
    var n := b.NormSquared();
    assert q.MultiplyBy(b) == p;
    // (q - a) * b == 0 with b != 0 forces q == a
    var dr, di := q.re - a.re, q.im - a.im;
    assert dr * b.re - di * b.im == 0.0;
    assert dr * b.im + di * b.re == 0.0;
    assert dr * n == (dr * b.re - di * b.im) * b.re + (dr * b.im + di * b.re) * b.im;
    assert di * n == (dr * b.im + di * b.re) * b.re - (dr * b.re - di * b.im) * b.im;
  }

  /** A product with a non-zero factor is zero only when the other factor is. */
  lemma ProductIsZero(a: Complex, b: Complex)
    requires b != Complex.Zero() && a.MultiplyBy(b) == Complex.Zero()
    ensures a == Complex.Zero()
  {
    MultiplyThenDivide(a, b);
    assert Complex.Zero().DivideBy(b) == Complex.Zero();
  }

  /** Subtracting zero is the identity, and a value minus itself is zero. */
  lemma MinusIdentities(x: Complex)
    ensures x.Minus(Complex.Zero()) == x
    ensures x.Minus(x) == Complex.Zero()
  {
  }

  /** Multiplying by real(k) scales both parts by k. */
  lemma MultiplyByReal(x: Complex, k: real)
    ensures x.MultiplyBy(Complex.Real(k)) == Complex(k * x.re, k * x.im)
  {
  }

  /** The magnitude is multiplicative: |a * b| == |a| * |b|. */
  lemma AbsOfProduct(a: Complex, b: Complex, sqrt: real -> real)
    requires SqrtLaw(sqrt) && SqrtSquares(sqrt)
    ensures a.MultiplyBy(b).Abs(sqrt) == a.Abs(sqrt) * b.Abs(sqrt)
  {
    var p := a.MultiplyBy(b);
    var r, s, t := p.Abs(sqrt), a.Abs(sqrt), b.Abs(sqrt);
    AbsSquared(p, sqrt);
    AbsSquared(a, sqrt);
    AbsSquared(b, sqrt);
    NormOfProduct(a, b);
    RootOfProduct(r, s, t, a.NormSquared(), b.NormSquared());
  }

  /** The root of a product of two non-negative reals is the product of their roots. */
  lemma RootOfProduct(r: real, s: real, t: real, m: real, n: real)
    requires r >= 0.0 && s >= 0.0 && t >= 0.0
    requires r * r == m * n && s * s == m && t * t == n
    ensures r == s * t
  {
    assert (s * t) * (s * t) == (s * s) * (t * t);
    assert s * t >= 0.0;
    SquareRootUnique(r, s * t);
  }

  /** The squared magnitude of a product is the product of the factors' squared magnitudes. */
  lemma NormOfProduct(a: Complex, b: Complex)
    ensures a.MultiplyBy(b).NormSquared() == a.NormSquared() * b.NormSquared()
  {
    calc {
      a.MultiplyBy(b).NormSquared();
      (a.re * b.re - a.im * b.im) * (a.re * b.re - a.im * b.im)
        + (a.re * b.im + a.im * b.re) * (a.re * b.im + a.im * b.re);
      (a.re * a.re + a.im * a.im) * (b.re * b.re + b.im * b.im);
    }
  }

  /** Scaling by a non-zero real scales the magnitude by its absolute value. */
  lemma AbsOfScalarDivision(a: Complex, d: real, sqrt: real -> real)
    requires SqrtLaw(sqrt) && SqrtSquares(sqrt) && d != 0.0
    ensures a.DivideByReal(d).Abs(sqrt) * Abs(d) == a.Abs(sqrt)
  {
    var q := a.DivideByReal(d);
    var r, s := q.Abs(sqrt), a.Abs(sqrt);
    AbsSquared(q, sqrt);
    AbsSquared(a, sqrt);
    assert a.NormSquared() == q.NormSquared() * (d * d);
    assert (r * Abs(d)) * (r * Abs(d)) == (r * r) * (d * d);
    SquareRootUnique(r * Abs(d), s);
  }

  /** Two non-negative reals with the same square are equal. */
  lemma SquareRootUnique(x: real, y: real)
    requires x >= 0.0 && y >= 0.0 && x * x == y * y
    ensures x == y
  {
    if x < y {
      SquareStrictlyMonotone(x, y);
    } else if y < x {
      SquareStrictlyMonotone(y, x);
    }
  }

  /** Squaring is strictly increasing on the non-negative reals. */
  lemma SquareStrictlyMonotone(x: real, y: real)
    requires 0.0 <= x < y
    ensures x * x < y * y
  {
    assert x * (y - x) >= 0.0;
    assert y * (y - x) > 0.0;
  }

  /** A sum of two squares is non-negative, and zero only when both terms are. */
  lemma SumOfSquares(a: real, b: real)
    ensures a * a + b * b >= 0.0
    ensures a * a + b * b == 0.0 <==> a == 0.0 && b == 0.0
  {
    if a != 0.0 {
      SquareStrictlyMonotone(0.0, Abs(a));
      assert a * a == Abs(a) * Abs(a);
    }
    if b != 0.0 {
      SquareStrictlyMonotone(0.0, Abs(b));
      assert b * b == Abs(b) * Abs(b);
    }
    assert a * a == Abs(a) * Abs(a) >= 0.0;
    assert b * b == Abs(b) * Abs(b) >= 0.0;
  }

  /** The magnitudes asserted by the unit tests of the Java class. */
  lemma UnitTestMagnitudes(sqrt: real -> real)
    requires SqrtLaw(sqrt) && SqrtSquares(sqrt)
    ensures Complex.Real(4.0).Abs(sqrt) == 4.0
    ensures Complex(3.0, 4.0).Abs(sqrt) == 5.0
    ensures 1.41421 - 0.00001 <= Complex(1.0, 1.0).Abs(sqrt) <= 1.41421 + 0.00001
  {
    var four := Complex.Real(4.0).Abs(sqrt);
    AbsSquared(Complex.Real(4.0), sqrt);
    assert four * four == 4.0 * 4.0;
    SquareRootUnique(four, 4.0);
    var five := Complex(3.0, 4.0).Abs(sqrt);
    AbsSquared(Complex(3.0, 4.0), sqrt);
    assert five * five == 5.0 * 5.0;
    SquareRootUnique(five, 5.0);
    var r := Complex(1.0, 1.0).Abs(sqrt);
    AbsSquared(Complex(1.0, 1.0), sqrt);
    assert r * r == 2.0;
    if r < 1.41420 {
      SquareStrictlyMonotone(r, 1.41420);
    }
    if r > 1.41422 {
      SquareStrictlyMonotone(1.41422, r);
    }
  }

  /** The quotient by a real divisor asserted by the Java unit test testDivideBy. */
  lemma UnitTestRealQuotient()
    ensures Complex.Real(4.0).DivideByReal(2.0) == Complex.Real(2.0)
  {
    var q := Complex.Real(4.0).DivideByReal(2.0);
    assert q == Complex(4.0 / 2.0, 0.0 / 2.0);
  }

  /** Dividing a real-valued complex number by another is real division. */
  lemma QuotientOfReals(x: real, d: real)
    requires d != 0.0
    ensures Complex.Real(x).DivideBy(Complex.Real(d)) == Complex.Real(x / d)
  {
    var q := Complex.Real(x).DivideBy(Complex.Real(d));
    assert q.MultiplyBy(Complex.Real(d)) == Complex.Real(x);
    assert d * q.re == x && d * q.im == 0.0;
  }

  /** The quotient by a real-valued complex divisor asserted by the Java unit test testDivideBy. */
  lemma UnitTestRealValuedQuotient()
    ensures Complex.Real(4.0).DivideBy(Complex.Real(2.0)) == Complex.Real(2.0)
  {
    QuotientOfReals(4.0, 2.0);
  }

  /** The quotient of two complex values asserted by the Java unit test testDivideBy. */
  lemma UnitTestComplexQuotient()
    ensures Complex(5.0, 1.0).DivideBy(Complex(2.0, 2.0)) == Complex(1.5, -1.0)
  {
    assert Complex(1.5, -1.0).MultiplyBy(Complex(2.0, 2.0)) == Complex(5.0, 1.0);
    MultiplyThenDivide(Complex(1.5, -1.0), Complex(2.0, 2.0));
  }

  /** The products asserted by the Java unit test testMultiplyBy. */
  lemma UnitTestProducts()
    ensures Complex(1.0, 1.0).MultiplyBy(Complex.Real(2.0)) == Complex(2.0, 2.0)
    ensures Complex(1.0, 2.0).MultiplyBy(Complex(3.0, 4.0)) == Complex(-5.0, 10.0)
  {
  }

  /** The differences asserted by the Java unit test testMinus. */
  lemma UnitTestDifferences()
    ensures Complex.Real(5.0).Minus(Complex.Real(3.0)) == Complex.Real(2.0)
    ensures Complex(7.0, 7.0).Minus(Complex(5.0, 4.0)) == Complex(2.0, 3.0)
  {
  }
}

/**
 * Single-bin Fourier extraction (the Goertzel recurrence) over a window of
 * samples, and the periods of the two Fourier bands next to the wave's.
 * Only the recurrence and its linearity are modelled; what the coefficient
 * means spectrally is not.
 */
module Goertzel {
  import opened JavaMath
  import opened ComplexNumbers
  import opened SampleRing

  /** The constant PI of HillClimbing, as a real. */
  const PI: real := 3.141592653589793

  /** The two running values of the recurrence, q1 (latest) and q2 (the one before). */
  datatype GoertzelState = GoertzelState(q1: real, q2: real)

  /** The first n samples are all zero. */
  predicate Silent(samples: seq<real>, n: nat)
    requires n <= |samples|
  {
    forall i :: 0 <= i < n ==> samples[i] == 0.0
  }

  /**
   * The recurrence q0 = coefficient * q1 - q2 + sample; q2 = q1; q1 = q0,
   * run over the first n samples, oldest first, from q1 = q2 = 0.
   */
  function Recurrence(samples: seq<real>, n: nat, coefficient: real): GoertzelState
    requires n <= |samples|
  {
    if n == 0 then GoertzelState(0.0, 0.0)
    else
      var s := Recurrence(samples, n - 1, coefficient);
      GoertzelState(coefficient * s.q1 - s.q2 + samples[n - 1], s.q1)
  }

  /**
   * computeWaveComponent on an already-extracted window: the coefficient at
   * `period`, (q1 - q2 cos w, q2 sin w) / sampleCount with w = 2 PI / period.
   * Its requires are the two assertions of the Java method. A window of
   * silence has no wave component at any period.
   */
  function WaveComponent(window: seq<real>, period: real, m: Numerics): (c: Complex)
    requires 2.0 <= period <= |window| as real
    ensures Silent(window, |window|) ==> c == Complex.Zero()
  {
    var w := 2.0 * PI / period;
    Coefficient(window, m.cos(w), m.sin(w))
  }

  /**
   * The Goertzel coefficient of a non-empty window for given cos w and
   * sin w: (q1 - q2 cos w, q2 sin w), averaged over the window's length;
   * zero for a window of silence.
   */
  function Coefficient(window: seq<real>, cosine: real, sine: real): (c: Complex)
    requires |window| > 0
    ensures Silent(window, |window|) ==> c == Complex.Zero()
  {
    RecurrenceOfSilence(window, |window|, 2.0 * cosine);
    Finish(Recurrence(window, |window|, 2.0 * cosine), cosine, sine, |window| as real)
  }

  /**
   * The coefficient read off the recurrence's final state, divided by the
   * window length n; the starting state gives zero.
   */
  function Finish(s: GoertzelState, cosine: real, sine: real, n: real): (c: Complex)
    requires n != 0.0
    ensures s == GoertzelState(0.0, 0.0) ==> c == Complex.Zero()
  {
    Complex(s.q1 - s.q2 * cosine, s.q2 * sine).DivideByReal(n)
  }

  /** Over silence the recurrence never leaves its starting state. */
  lemma {:induction false} RecurrenceOfSilence(samples: seq<real>, n: nat, coefficient: real)
    requires n <= |samples|
    ensures Silent(samples, n) ==> Recurrence(samples, n, coefficient) == GoertzelState(0.0, 0.0)
  {
    if n > 0 {
      RecurrenceOfSilence(samples, n - 1, coefficient);
    }
  }

  /** The wave component read off a run of the recurrence at 2 cos w, w = 2 PI / period. */
  lemma WaveComponentFrom(window: seq<real>, period: real, m: Numerics, w: real, s: GoertzelState)
    requires 2.0 <= period <= |window| as real && w == 2.0 * PI / period
    requires s == Recurrence(window, |window|, 2.0 * m.cos(w))
    ensures WaveComponent(window, period, m) == Finish(s, m.cos(w), m.sin(w), |window| as real)
  {
  }

  /** The recurrence is linear: scaling the samples scales both running values. */
  lemma RecurrenceScales(samples: seq<real>, n: nat, coefficient: real, k: real)
    requires n <= |samples|
    ensures var s := Recurrence(samples, n, coefficient);
      Recurrence(Scale(samples, k), n, coefficient) == GoertzelState(k * s.q1, k * s.q2)
  {
    RecurrenceOfMultiple(samples, Scale(samples, k), n, coefficient, k);
  }

  /** Over samples that are k times others, the recurrence's state is k times theirs. */
  lemma {:induction false} RecurrenceOfMultiple(xs: seq<real>, ys: seq<real>, n: nat, coefficient: real, k: real)
    requires n <= |xs| == |ys|
    requires forall i :: 0 <= i < |xs| ==> ys[i] == k * xs[i]
    ensures var s := Recurrence(xs, n, coefficient);
      Recurrence(ys, n, coefficient) == GoertzelState(k * s.q1, k * s.q2)
  {
    if n > 0 {
      RecurrenceOfMultiple(xs, ys, n - 1, coefficient, k);
      var s := Recurrence(xs, n - 1, coefficient);
      StepScales(coefficient, s.q1, s.q2, xs[n - 1], k);
    }
  }

  /** One step of the recurrence commutes with scaling its inputs. */
  lemma StepScales(coefficient: real, q1: real, q2: real, x: real, k: real)
    ensures coefficient * (k * q1) - k * q2 + k * x == k * (coefficient * q1 - q2 + x)
  {
  }

  /** Scaling the window scales its wave component. */
  lemma WaveComponentScales(window: seq<real>, period: real, m: Numerics, k: real)
    requires 2.0 <= period <= |window| as real
    ensures var c := WaveComponent(window, period, m);
      WaveComponent(Scale(window, k), period, m) == Complex(k * c.re, k * c.im)
  {
    var w := 2.0 * PI / period;
    CoefficientScales(window, m.cos(w), m.sin(w), k);
  }

  /** Scaling the window scales its Goertzel coefficient. */
  lemma CoefficientScales(window: seq<real>, cosine: real, sine: real, k: real)
    requires |window| > 0
    ensures var c := Coefficient(window, cosine, sine);
      Coefficient(Scale(window, k), cosine, sine) == Complex(k * c.re, k * c.im)
  {
    var s := Recurrence(window, |window|, 2.0 * cosine);
    RecurrenceScales(window, |window|, 2.0 * cosine, k);
    var scaled := Scale(window, k);
    assert |scaled| == |window|;
    assert Recurrence(scaled, |scaled|, 2.0 * cosine) == GoertzelState(k * s.q1, k * s.q2);
    assert Coefficient(scaled, cosine, sine)
        == Finish(GoertzelState(k * s.q1, k * s.q2), cosine, sine, |window| as real);
    assert Coefficient(window, cosine, sine) == Finish(s, cosine, sine, |window| as real);
    FinishScales(s, cosine, sine, |window| as real, k);
  }

  /** Scaling the recurrence's state scales the coefficient read off it. */
  lemma FinishScales(s: GoertzelState, cosine: real, sine: real, n: real, k: real)
    requires n != 0.0
    ensures var c := Finish(s, cosine, sine, n);
      Finish(GoertzelState(k * s.q1, k * s.q2), cosine, sine, n) == Complex(k * c.re, k * c.im)
  {
    var x, y := s.q1 - s.q2 * cosine, s.q2 * sine;
    var t := GoertzelState(k * s.q1, k * s.q2);
    FinishParts(s, cosine, sine, n);
    FinishParts(t, cosine, sine, n);
    Factor(k, s.q1, s.q2, cosine, sine);
    QuotientOfMultiple(x, k * x, n, k);
    QuotientOfMultiple(y, k * y, n, k);
  }

  /** The two parts of the coefficient read off a state. */
  lemma FinishParts(s: GoertzelState, cosine: real, sine: real, n: real)
    requires n != 0.0
    ensures Finish(s, cosine, sine, n) == Complex((s.q1 - s.q2 * cosine) / n, (s.q2 * sine) / n)
  {
  }

  /** The common factor k of the recurrence's state comes out of the coefficient's parts. */
  lemma Factor(k: real, q1: real, q2: real, cosine: real, sine: real)
    ensures k * q1 - (k * q2) * cosine == k * (q1 - q2 * cosine)
    ensures (k * q2) * sine == k * (q2 * sine)
  {
  }


  /**
   * The normalisation by the average is what makes the component unit-free:
   * scaling every sample by k > 0 (and so the average by k) leaves the
   * normalised component unchanged.
   */
  lemma NormalisedWaveIsUnitFree(window: seq<real>, period: real, m: Numerics, k: real, average: real)
    requires 2.0 <= period <= |window| as real
    requires k > 0.0 && average != 0.0
    ensures WaveComponent(Scale(window, k), period, m).DivideByReal(k * average)
         == WaveComponent(window, period, m).DivideByReal(average)
  {
    WaveComponentScales(window, period, m, k);
    var c := WaveComponent(window, period, m);
    CancelFactor(c.re, average, k);
    CancelFactor(c.im, average, k);
  }

  /**
   * adjacentPeriod1: the period of the Fourier band one bin above the wave's
   * frequency in a window of sampleCount samples, so shorter than the wave
   * period.
   */
  function AdjacentPeriod1(sampleCount: int, wavePeriod: int): (r: real)
    requires sampleCount >= 0 && wavePeriod > 0
    ensures sampleCount > 0 ==> 0.0 < r < wavePeriod as real
  {
    var bins := sampleCount as real / wavePeriod as real;
    BinAbove(sampleCount as real, wavePeriod as real, bins);
    sampleCount as real / (bins + 1.0)
  }

  /** adjacentPeriod2: the period of the band one bin below the wave's frequency, so longer than the wave period. */
  function AdjacentPeriod2(sampleCount: int, wavePeriod: int): (r: real)
    requires sampleCount > wavePeriod > 0
    ensures wavePeriod as real < r
  {
    var bins := sampleCount as real / wavePeriod as real;
    BinBelow(sampleCount as real, wavePeriod as real, bins);
    sampleCount as real / (bins - 1.0)
  }

  /** n / (n/p + 1) lies strictly between 0 and p for positive n and p. */
  lemma BinAbove(n: real, p: real, bins: real)
    requires p > 0.0 && n >= 0.0 && bins == n / p
    ensures n > 0.0 ==> 0.0 < n / (bins + 1.0) < p
  {
    assert bins * p == n;
    MultiplyNonNegative(bins, p);
    if n > 0.0 {
      var d := bins + 1.0;
      var r := n / d;
      assert d >= 1.0 && r * d == n;
      assert p * d == n + p;
      if r >= p {
        MultiplyNonNegative(r - p, d);
        assert false;
      }
      if r <= 0.0 {
        MultiplyNonNegative(-r, d);
        assert false;
      }
    }
  }

  /** n / (n/p - 1) exceeds p for n > p > 0. */
  lemma BinBelow(n: real, p: real, bins: real)
    requires n > p > 0.0 && bins == n / p
    ensures p < n / (bins - 1.0)
  {
    assert bins * p == n;
    var d := bins - 1.0;
    assert d > 0.0 by {
      if bins <= 1.0 {
        MultiplyNonNegative(1.0 - bins, p);
        assert false;
      }
    }
    var r := n / d;
    assert r * d == n;
    assert p * d == n - p;
    if r <= p {
      MultiplyNonNegative(p - r, d);
      assert false;
    }
  }

  /**
   * With a window of k >= 2 whole wave periods and a wave period of at least
   * 3, both neighbouring periods satisfy the extractor's assertions
   * (2 <= period <= sampleCount) and bracket the wave period. In particular
   * the source's test `adjacentPeriod2 <= sampleCount` never fails.
   */
  lemma AdjacentPeriodsFit(sampleCount: int, wavePeriod: int)
    requires wavePeriod >= 3 && sampleCount > wavePeriod && sampleCount % wavePeriod == 0
    ensures 2.0 <= AdjacentPeriod1(sampleCount, wavePeriod) < wavePeriod as real
    ensures wavePeriod as real < AdjacentPeriod2(sampleCount, wavePeriod) <= sampleCount as real
  {
    var k := sampleCount / wavePeriod;
    assert sampleCount == k * wavePeriod;
    assert k >= 2 by {
      ProductBounds(k - 1, wavePeriod);
    }
    var kr, p := k as real, wavePeriod as real;
    assert sampleCount as real == kr * p;
    assert sampleCount as real / p == kr;
    BandAbove(kr, p);
    BandBelow(kr, p);
  }

  /** kp / (k + 1) lies in [2, p) for k >= 2 and p >= 3. */
  lemma BandAbove(k: real, p: real)
    requires k >= 2.0 && p >= 3.0
    ensures 2.0 <= k * p / (k + 1.0) < p
  {
    var a := k * p / (k + 1.0);
    assert a * (k + 1.0) == k * p;
    assert k * p - 2.0 * (k + 1.0) == k * (p - 2.0) - 2.0;
    assert k * (p - 2.0) >= 2.0 * (p - 2.0);
  }

  /** kp / (k - 1) lies in (p, kp] for k >= 2 and p >= 3. */
  lemma BandBelow(k: real, p: real)
    requires k >= 2.0 && p >= 3.0
    ensures p < k * p / (k - 1.0) <= k * p
  {
    var b := k * p / (k - 1.0);
    assert b * (k - 1.0) == k * p;
  }

  /**
   * With a wave period of 2, the band above the wave's frequency lies beyond
   * the Nyquist frequency: adjacentPeriod1 = 2k / (k + 1) < 2, so the
   * extractor's assertion `period >= 2` fails on every analysed window.
   */
  lemma NyquistViolatedAtWavePeriodTwo(sampleCount: int)
    requires sampleCount > 2 && sampleCount % 2 == 0
    ensures AdjacentPeriod1(sampleCount, 2) < 2.0
  {
    var n := sampleCount as real;
    var d := n / 2.0 + 1.0;
    var ap1 := AdjacentPeriod1(sampleCount, 2);
    assert d > 0.0 && 2.0 * d == n + 2.0;
    assert ap1 * d == n;
    assert (2.0 - ap1) * d == 2.0;
    if ap1 >= 2.0 {
      MultiplyNonNegative(ap1 - 2.0, d);
      assert false;
    }
  }

  /** The product of two non-negative reals is non-negative. */
  lemma MultiplyNonNegative(x: real, y: real)
    requires x >= 0.0 && y >= 0.0
    ensures x * y >= 0.0
  {
  }
}

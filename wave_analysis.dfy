/**
 * The frequency analysis of HillClimbing.update: from the window of recent
 * throughputs and thread counts, the throughput/thread-count ratio at the
 * wave's frequency, the confidence in it, the smoothed noise level and the
 * state transition that is reported.
 */
module WaveAnalysis {
  import opened JavaMath
  import opened ComplexNumbers
  import opened SampleRing
  import opened Goertzel
  import opened HillClimbingOptions

  /** The transitions the controller reports (only the four the source declares). */
  datatype StateTransition = Warmup | Initializing | ClimbingMove | Stabilizing

  /** The outcome of one analysis. */
  datatype Analysis = Analysis(ratio: Complex, confidence: real, noise: real, transition: StateTransition)

  /** The magnitude of the normalised component at `period`: the noise in that band. */
  function BandNoise(window: seq<real>, period: real, average: real, m: Numerics): (r: real)
    requires 2.0 <= period <= |window| as real && average != 0.0 && SqrtLaw(m.sqrt)
    ensures r >= 0.0
    ensures r == 0.0 <==> WaveComponent(window, period, m) == Complex.Zero()
  {
    var c := WaveComponent(window, period, m);
    var d := c.DivideByReal(average);
    assert d == Complex.Zero() <==> c == Complex.Zero();
    d.Abs(m.sqrt)
  }

  /**
   * throughputErrorEstimate: the noise in the band above the wave's
   * frequency, replaced by the noise in the band below when that is larger
   * and its period fits in the window. It always fits, so the estimate is
   * the larger of the two.
   */
  function ErrorEstimate(window: seq<real>, wavePeriod: int, average: real, m: Numerics): (e: real)
    requires wavePeriod >= 3 && |window| > wavePeriod && |window| % wavePeriod == 0
    requires average != 0.0 && SqrtLaw(m.sqrt)
    ensures 2.0 <= AdjacentPeriod1(|window|, wavePeriod) < AdjacentPeriod2(|window|, wavePeriod) <= |window| as real
    ensures e == Max(BandNoise(window, AdjacentPeriod1(|window|, wavePeriod), average, m),
                     BandNoise(window, AdjacentPeriod2(|window|, wavePeriod), average, m))
    ensures e >= 0.0
  {
    var sampleCount := |window|;
    AdjacentPeriodsFit(sampleCount, wavePeriod);
    var adjacentPeriod1 := AdjacentPeriod1(sampleCount, wavePeriod);
    var adjacentPeriod2 := AdjacentPeriod2(sampleCount, wavePeriod);
    var estimate := BandNoise(window, adjacentPeriod1, average, m);
    if adjacentPeriod2 <= sampleCount as real then
      Max(estimate, BandNoise(window, adjacentPeriod2, average, m))
    else
      estimate
  }

  /**
   * The moving average of the throughput noise. It is seeded by the first
   * estimate; after that, with a factor in [0, 1], the new average lies
   * between the old average and the estimate, so it stays non-negative
   * when both are.
   */
  function SmoothedNoise(previous: real, estimate: real, smoothingFactor: real): (r: real)
    ensures previous == 0.0 ==> r == estimate
    ensures previous != 0.0 && 0.0 <= smoothingFactor <= 1.0 ==> Min(previous, estimate) <= r <= Max(previous, estimate)
    ensures previous >= 0.0 && estimate >= 0.0 && 0.0 <= smoothingFactor <= 1.0 ==> r >= 0.0
  {
    BetweenEnds(previous, estimate, smoothingFactor);
    if previous == 0.0 then estimate
    else smoothingFactor * estimate + (1.0 - smoothingFactor) * previous
  }

  /** A convex combination of two reals lies between them. */
  lemma BetweenEnds(a: real, b: real, f: real)
    ensures 0.0 <= f <= 1.0 ==> Min(a, b) <= f * b + (1.0 - f) * a <= Max(a, b)
  {
    if 0.0 <= f <= 1.0 {
      var d := b - a;
      assert f * b + (1.0 - f) * a == a + f * d;
      ScaleByFraction(d, f);
    }
  }

  /**
   * The confidence in the ratio: the thread wave's magnitude over the
   * larger of the two noise figures, relative to the target
   * signal-to-noise ratio; 1 when there is no noise at all.
   */
  function ConfidenceOf(signal: real, noise: real, estimate: real, targetSignalToNoiseRatio: real): (r: real)
    requires targetSignalToNoiseRatio != 0.0
    ensures Max(noise, estimate) <= 0.0 ==> r == 1.0
    ensures signal >= 0.0 && targetSignalToNoiseRatio > 0.0 ==> r >= 0.0
  {
    var noiseForConfidence := Max(noise, estimate);
    if noiseForConfidence > 0.0 then
      (signal / noiseForConfidence) / targetSignalToNoiseRatio
    else
      1.0
  }

  /**
   * With some noise, the confidence is the factor by which the signal
   * exceeds the noise, relative to the target signal-to-noise ratio.
   */
  lemma ConfidenceIsSignalToNoise(signal: real, noise: real, estimate: real, targetSignalToNoiseRatio: real)
    requires targetSignalToNoiseRatio != 0.0 && Max(noise, estimate) > 0.0
    ensures ConfidenceOf(signal, noise, estimate, targetSignalToNoiseRatio) * targetSignalToNoiseRatio
              * Max(noise, estimate) == signal
  {
    var r := ConfidenceOf(signal, noise, estimate, targetSignalToNoiseRatio);
    assert r * targetSignalToNoiseRatio == signal / Max(noise, estimate);
  }

  /**
   * The ratio: the throughput wave re-centred on the target wave
   * (targetThroughputRatio times the thread wave), divided by the thread
   * wave. The ratio times the thread wave is the re-centred throughput
   * wave, and the ratio is zero exactly when the throughput wave is on
   * target.
   */
  function RatioOf(throughputWave: Complex, threadWave: Complex, targetThroughputRatio: real): (r: Complex)
    requires threadWave != Complex.Zero()
    ensures var target := Complex(targetThroughputRatio * threadWave.re, targetThroughputRatio * threadWave.im);
      && r.MultiplyBy(threadWave) == throughputWave.Minus(target)
      && (r == Complex.Zero() <==> throughputWave == target)
  {
    var offset := throughputWave.Minus(threadWave.MultiplyBy(Complex.Real(targetThroughputRatio)));
    var r := offset.DivideBy(threadWave);
    QuotientRecentres(throughputWave, threadWave, targetThroughputRatio, offset, r);
    r
  }

  /** The facts RatioOf states, for the quotient r of the re-centred wave by the thread wave. */
  lemma QuotientRecentres(throughputWave: Complex, threadWave: Complex, k: real, offset: Complex, r: Complex)
    requires threadWave != Complex.Zero()
    requires offset == throughputWave.Minus(threadWave.MultiplyBy(Complex.Real(k)))
    requires r.MultiplyBy(threadWave) == offset
    ensures var target := Complex(k * threadWave.re, k * threadWave.im);
      && offset == throughputWave.Minus(target)
      && (r == Complex.Zero() <==> throughputWave == target)
  {
    var target := Complex(k * threadWave.re, k * threadWave.im);
    MultiplyByReal(threadWave, k);
    if r == Complex.Zero() {
      assert Complex.Zero().MultiplyBy(threadWave) == Complex.Zero();
    }
    if throughputWave == target {
      assert offset == Complex.Zero();
      ProductIsZero(r, threadWave);
    }
  }

  /**
   * The assessment step of update, given the three measured figures: the
   * normalised throughput wave, the noise estimate of the neighbouring
   * bands and the normalised thread wave.
   */
  function Assess(o: Options, m: Numerics, throughputWave: Complex, estimate: real, threadWave: Complex,
                  noise: real): (r: Analysis)
    requires o.targetSignalToNoiseRatio != 0.0 && SqrtLaw(m.sqrt)
    ensures r.transition == ClimbingMove || r.transition == Stabilizing
  {
    var newNoise := SmoothedNoise(noise, estimate, o.throughputErrorSmoothingFactor);
    var signal := threadWave.Abs(m.sqrt);
    var confidence := ConfidenceOf(signal, newNoise, estimate, o.targetSignalToNoiseRatio);
    if signal > 0.0 then
      Analysis(RatioOf(throughputWave, threadWave, o.targetThroughputRatio), confidence, newNoise, ClimbingMove)
    else
      Analysis(Complex.Zero(), confidence, newNoise, Stabilizing)
  }

  /**
   * The assessment reports a climbing move exactly when the thread wave has
   * a non-zero magnitude, and takes the ratio then; otherwise the ratio is
   * zero.
   */
  lemma AssessTransition(o: Options, m: Numerics, throughputWave: Complex, estimate: real, threadWave: Complex,
                         noise: real)
    requires o.targetSignalToNoiseRatio != 0.0 && SqrtLaw(m.sqrt)
    ensures var r := Assess(o, m, throughputWave, estimate, threadWave, noise);
      && (r.transition == ClimbingMove <==> threadWave != Complex.Zero())
      && (threadWave == Complex.Zero() ==> r.ratio == Complex.Zero())
      && (threadWave != Complex.Zero() ==> r.ratio == RatioOf(throughputWave, threadWave, o.targetThroughputRatio))
  {
    var signal := threadWave.Abs(m.sqrt);
    assert signal > 0.0 <==> threadWave != Complex.Zero();
  }

  /**
   * The assessment's noise is the smoothed estimate, and its confidence is
   * the signal-to-noise figure of ConfidenceOf, never negative for a
   * positive target signal-to-noise ratio.
   */
  lemma AssessConfidence(o: Options, m: Numerics, throughputWave: Complex, estimate: real, threadWave: Complex,
                         noise: real)
    requires o.targetSignalToNoiseRatio != 0.0 && SqrtLaw(m.sqrt)
    ensures var r := Assess(o, m, throughputWave, estimate, threadWave, noise);
      && r.noise == SmoothedNoise(noise, estimate, o.throughputErrorSmoothingFactor)
      && r.confidence == ConfidenceOf(threadWave.Abs(m.sqrt), r.noise, estimate, o.targetSignalToNoiseRatio)
      && (o.targetSignalToNoiseRatio > 0.0 ==> r.confidence >= 0.0)
  {
  }

  /**
   * The ratio is non-zero only on a climbing move and zero on
   * stabilisation, and the confidence is never negative for a positive
   * target signal-to-noise ratio.
   */
  lemma AssessSigns(o: Options, m: Numerics, throughputWave: Complex, estimate: real, threadWave: Complex,
                    noise: real)
    requires o.targetSignalToNoiseRatio != 0.0 && SqrtLaw(m.sqrt)
    ensures var r := Assess(o, m, throughputWave, estimate, threadWave, noise);
      && (r.ratio != Complex.Zero() ==> r.transition == ClimbingMove)
      && (r.transition == Stabilizing ==> r.ratio == Complex.Zero())
      && (o.targetSignalToNoiseRatio > 0.0 ==> r.confidence >= 0.0)
  {
    AssessTransition(o, m, throughputWave, estimate, threadWave, noise);
    AssessConfidence(o, m, throughputWave, estimate, threadWave, noise);
  }

  /**
   * With a smoothing factor in [0, 1], the noise average stays non-negative
   * when the previous average and the new estimate are.
   */
  lemma AssessNoise(o: Options, m: Numerics, throughputWave: Complex, estimate: real, threadWave: Complex,
                    noise: real)
    requires o.targetSignalToNoiseRatio != 0.0 && SqrtLaw(m.sqrt) && estimate >= 0.0
    ensures 0.0 <= o.throughputErrorSmoothingFactor <= 1.0 && noise >= 0.0
        ==> Assess(o, m, throughputWave, estimate, threadWave, noise).noise >= 0.0
  {
    AssessConfidence(o, m, throughputWave, estimate, threadWave, noise);
  }

  /**
   * The measurement step of update: the analysis proper, once the window spans more
   * than one wave period and both averages are positive: the throughput
   * wave at the wave period and the noise of the neighbouring bands (each
   * normalised by the average throughput), and the thread wave at the wave
   * period (normalised by the average thread count).
   */
  function Measure(o: Options, m: Numerics, throughputs: seq<real>, threads: seq<real>, noise: real,
                   averageThroughput: real, averageThreadCount: real): (r: Analysis)
    requires ControllerAdmits(o) && SqrtLaw(m.sqrt)
    requires |throughputs| == |threads| > o.wavePeriod && |throughputs| % o.wavePeriod == 0
    requires averageThroughput > 0.0 && averageThreadCount > 0.0
    ensures r.ratio != Complex.Zero() ==> r.transition == ClimbingMove
    ensures r.transition == Stabilizing ==> r.ratio == Complex.Zero()
    ensures o.targetSignalToNoiseRatio > 0.0 ==> r.confidence >= 0.0
    ensures 0.0 <= o.throughputErrorSmoothingFactor <= 1.0 && noise >= 0.0 ==> r.noise >= 0.0
  {
    var period := o.wavePeriod as real;
    var throughputWave := WaveComponent(throughputs, period, m).DivideByReal(averageThroughput);
    var estimate := ErrorEstimate(throughputs, o.wavePeriod, averageThroughput, m);
    var threadWave := WaveComponent(threads, period, m).DivideByReal(averageThreadCount);
    AssessSigns(o, m, throughputWave, estimate, threadWave, noise);
    AssessNoise(o, m, throughputWave, estimate, threadWave, noise);
    Assess(o, m, throughputWave, estimate, threadWave, noise)
  }

  /**
   * The analysis step of update as a function of the analysed window (oldest
   * first) and the previous noise average. Below two whole wave periods, or
   * when an average is not positive, nothing is measured: the warm-up
   * result. Otherwise the ratio is non-zero only on a climbing move, and the
   * confidence and (with a smoothing factor in [0, 1]) the noise average
   * are never negative.
   */
  function Analyze(o: Options, m: Numerics, throughputs: seq<real>, threads: seq<real>, noise: real): (r: Analysis)
    requires ControllerAdmits(o) && SqrtLaw(m.sqrt)
    requires |throughputs| == |threads| && |throughputs| % o.wavePeriod == 0
    ensures |throughputs| <= o.wavePeriod ==> r == Analysis(Complex.Zero(), 0.0, noise, Warmup)
    ensures r.transition != Initializing
    ensures r.transition == Warmup ==> r == Analysis(Complex.Zero(), 0.0, noise, Warmup)
  {
    var sampleCount := |throughputs|;
    var warmup := Analysis(Complex.Zero(), 0.0, noise, Warmup);
    if sampleCount <= o.wavePeriod then warmup
    else
      var averageThroughput := Sum(throughputs) / sampleCount as real;
      var averageThreadCount := Sum(threads) / sampleCount as real;
      if averageThroughput > 0.0 && averageThreadCount > 0.0 then
        Measure(o, m, throughputs, threads, noise, averageThroughput, averageThreadCount)
      else
        warmup
  }

  /**
   * Whatever the window, the ratio is non-zero only on a climbing move and
   * zero on stabilisation; the confidence is never negative for a positive
   * target signal-to-noise ratio, and with a smoothing factor in [0, 1] a
   * non-negative noise average stays non-negative.
   */
  lemma AnalyzeSigns(o: Options, m: Numerics, throughputs: seq<real>, threads: seq<real>, noise: real)
    requires ControllerAdmits(o) && SqrtLaw(m.sqrt)
    requires |throughputs| == |threads| && |throughputs| % o.wavePeriod == 0
    ensures var r := Analyze(o, m, throughputs, threads, noise);
      && (r.ratio != Complex.Zero() ==> r.transition == ClimbingMove)
      && (r.transition == Stabilizing ==> r.ratio == Complex.Zero())
      && (o.targetSignalToNoiseRatio > 0.0 ==> r.confidence >= 0.0)
      && (0.0 <= o.throughputErrorSmoothingFactor <= 1.0 && noise >= 0.0 ==> r.noise >= 0.0)
  {
    var sampleCount := |throughputs|;
    if sampleCount > o.wavePeriod {
      var averageThroughput := Sum(throughputs) / sampleCount as real;
      var averageThreadCount := Sum(threads) / sampleCount as real;
      if averageThroughput > 0.0 && averageThreadCount > 0.0 {
        assert Analyze(o, m, throughputs, threads, noise)
            == Measure(o, m, throughputs, threads, noise, averageThroughput, averageThreadCount);
      }
    }
  }

  /**
   * Every wave is normalised by its own average, so a measured window does
   * not depend on the units of either series: scaling all throughputs (and
   * their average) by k1 > 0 and all thread counts (and their average) by
   * k2 > 0 gives the same analysis.
   */
  lemma MeasureIsUnitFree(o: Options, m: Numerics, throughputs: seq<real>, threads: seq<real>, noise: real,
                          k1: real, k2: real, averageThroughput: real, averageThreadCount: real)
    requires ControllerAdmits(o) && SqrtLaw(m.sqrt)
    requires |throughputs| == |threads| > o.wavePeriod && |throughputs| % o.wavePeriod == 0
    requires k1 > 0.0 && k2 > 0.0 && averageThroughput > 0.0 && averageThreadCount > 0.0
    ensures Measure(o, m, Scale(throughputs, k1), Scale(threads, k2), noise, k1 * averageThroughput, k2 * averageThreadCount)
         == Measure(o, m, throughputs, threads, noise, averageThroughput, averageThreadCount)
  {
    var period := o.wavePeriod as real;
    NormalisedWaveIsUnitFree(throughputs, period, m, k1, averageThroughput);
    NormalisedWaveIsUnitFree(threads, period, m, k2, averageThreadCount);
    ErrorEstimateIsUnitFree(throughputs, o.wavePeriod, m, k1, averageThroughput);
  }

  /**
   * The averages that normalise the waves scale with their samples:
   * scaling every sample by k scales the average by k. With
   * MeasureIsUnitFree this makes the analysis independent of the units of
   * either series.
   */
  lemma AverageScales(xs: seq<real>, k: real)
    requires |xs| > 0
    ensures var ys := Scale(xs, k);
      |ys| == |xs| && Sum(ys) / |ys| as real == k * (Sum(xs) / |xs| as real)
  {
    SumScales(xs, k);
    QuotientOfMultiple(Sum(xs), Sum(Scale(xs, k)), |xs| as real, k);
  }

  /** The noise estimate, too, does not depend on the unit of the throughputs. */
  lemma ErrorEstimateIsUnitFree(window: seq<real>, wavePeriod: int, m: Numerics, k: real, average: real)
    requires wavePeriod >= 3 && |window| > wavePeriod && |window| % wavePeriod == 0
    requires average != 0.0 && SqrtLaw(m.sqrt) && k > 0.0
    ensures ErrorEstimate(Scale(window, k), wavePeriod, k * average, m) == ErrorEstimate(window, wavePeriod, average, m)
  {
    var sampleCount := |window|;
    AdjacentPeriodsFit(sampleCount, wavePeriod);
    NormalisedWaveIsUnitFree(window, AdjacentPeriod1(sampleCount, wavePeriod), m, k, average);
    NormalisedWaveIsUnitFree(window, AdjacentPeriod2(sampleCount, wavePeriod), m, k, average);
  }
}

/**
 * The arithmetic stages of HillClimbing.update that follow the frequency
 * analysis, each as a function of its inputs: the accuracy gate, the window
 * size, the move (clamp, confidence, non-linear gain, CPU guard), the
 * injected square wave, the clamps on the control setting and the thread
 * count, and the sample-interval back-off.
 */
module ControlLaw {
  import opened JavaMath
  import opened HillClimbingOptions
  import SampleRing

  /** currentCpuUtilization(): a stub that always reports 0 percent, a valid percentage. */
  function CurrentCpuUtilization(): (percent: int)
    ensures 0 <= percent <= 100
  {
    0
  }

  /**
   * The accuracy test of update: the relative count error
   * (threadCount - 1) / completions is at least maxSampleError. A zero
   * completion count follows IEEE-754 double division: +infinity (which
   * passes any threshold) when threadCount > 1, -infinity when
   * threadCount < 1, and NaN (which fails every comparison) when
   * threadCount == 1. So without completions only more than one thread
   * holds a sample back; with a positive completion count the gate is the
   * cross-multiplied inequality: fewer than maxSampleError * completions
   * extra threads let the sample through.
   */
  function TooInaccurate(threadCount: int, completions: int, maxSampleError: real): (tooInaccurate: bool)
    ensures completions == 0 ==> (tooInaccurate <==> threadCount > 1)
    ensures completions > 0
        ==> (tooInaccurate <==> threadCount as real - 1.0 >= maxSampleError * completions as real)
  {
    if completions == 0 then threadCount > 1
    else
      CrossMultiplied(threadCount as real - 1.0, completions as real, maxSampleError);
      (threadCount as real - 1.0) / completions as real >= maxSampleError
  }

  /** For a positive n, x / n >= e exactly when x >= e * n. */
  lemma CrossMultiplied(x: real, n: real, e: real)
    ensures n > 0.0 ==> (x / n >= e <==> x >= e * n)
  {
    if n > 0.0 {
      var q := x / n;
      assert q * n == x;
      if q >= e {
        assert (q - e) * n >= 0.0;
      } else {
        assert (e - q) * n > 0.0;
      }
    }
  }

  /**
   * The gate at the default maxSampleError of 0.15 with ten threads: 60
   * completions (9/60 = 0.15) are still too few, 61 are enough, and with no
   * completion at all the sample is always held back.
   */
  lemma GateAtDefaults()
    ensures TooInaccurate(10, 60, 0.15)
    ensures !TooInaccurate(10, 61, 0.15)
    ensures TooInaccurate(10, 0, 0.15) && !TooInaccurate(1, 0, 0.15)
  {
  }

  /**
   * The number of samples analysed: the largest multiple of the wave period
   * that fits both in the samples taken before this one and in the ring.
   */
  function SampleCount(totalSamples: int, samplesToMeasure: int, wavePeriod: int): (sc: int)
    requires totalSamples >= 1 && samplesToMeasure > 0 && wavePeriod > 0
    ensures 0 <= sc <= totalSamples - 1 && sc <= samplesToMeasure
    ensures sc % wavePeriod == 0
    ensures IMin(totalSamples - 1, samplesToMeasure) < sc + wavePeriod
  {
    var available := IMin(totalSamples - 1, samplesToMeasure);
    WholeMultipleBelow(available, wavePeriod);
    available / wavePeriod * wavePeriod
  }

  /** Rounding down to a multiple of d gives a multiple of d within d below. */
  lemma WholeMultipleBelow(a: int, d: int)
    requires a >= 0 && d > 0
    ensures 0 <= a / d * d <= a < a / d * d + d
    ensures (a / d * d) % d == 0
  {
    var q := a / d;
    assert a == q * d + a % d;
    assert q >= 0;
    SampleRing.ProductBounds(q, d);
    QuotientOf(q * d, d, q, 0);
    assert q * d == (q * d) / d * d + (q * d) % d;
  }

  /**
   * The frequency analysis runs (sampleCount > wavePeriod) exactly when at
   * least two whole wave periods of earlier samples fit in the ring.
   */
  lemma {:induction false} AnalysisStartsAtTwoPeriods(totalSamples: int, samplesToMeasure: int, wavePeriod: int)
    requires totalSamples >= 1 && samplesToMeasure > 0 && wavePeriod > 0
    ensures SampleCount(totalSamples, samplesToMeasure, wavePeriod) > wavePeriod
        <==> IMin(totalSamples - 1, samplesToMeasure) >= 2 * wavePeriod
  {
    var available := IMin(totalSamples - 1, samplesToMeasure);
    var q := available / wavePeriod;
    assert q * wavePeriod <= available < (q + 1) * wavePeriod;
    if q >= 2 {
      assert q * wavePeriod >= 2 * wavePeriod;
    } else {
      assert (q + 1) * wavePeriod <= 2 * wavePeriod;
    }
  }

  /** Once the ring is full, a ring made of whole wave periods is analysed in full. */
  lemma SteadyStateWindow(totalSamples: int, samplesToMeasure: int, wavePeriod: int)
    requires samplesToMeasure > 0 && wavePeriod > 0 && samplesToMeasure % wavePeriod == 0
    requires totalSamples > samplesToMeasure
    ensures SampleCount(totalSamples, samplesToMeasure, wavePeriod) == samplesToMeasure
  {
    var q := samplesToMeasure / wavePeriod;
    assert samplesToMeasure == q * wavePeriod;
  }

  /**
   * The move before gain: the real part of the ratio clamped to [-1, 1],
   * times the confidence clamped to [0, 1]. It never leaves [-1, 1], never
   * exceeds the ratio in size, keeps the ratio's sign, and vanishes without
   * confidence.
   */
  function PreGainMove(ratioReal: real, confidence: real): (move: real)
    ensures -1.0 <= move <= 1.0
    ensures Abs(move) <= Abs(ratioReal)
    ensures ratioReal >= 0.0 ==> move >= 0.0
    ensures ratioReal <= 0.0 ==> move <= 0.0
    ensures confidence <= 0.0 ==> move == 0.0
    ensures confidence >= 1.0 && -1.0 <= ratioReal <= 1.0 ==> move == ratioReal
  {
    var clamped := Min(1.0, Max(-1.0, ratioReal));
    var factor := Min(1.0, Max(0.0, confidence));
    ScaleByFraction(clamped, factor);
    clamped * factor
  }

  /**
   * The gain stage: |move|^gainExponent, with the sign of move, times
   * maxChangePerSecond * sampleDuration, then capped from above (only) by
   * maxChangePerSample.
   */
  function GainedMove(move: real, sampleDuration: real, o: Options, pow: (real, real) -> real): (r: real)
    ensures r <= o.maxChangePerSample as real
  {
    var gain := o.maxChangePerSecond as real * sampleDuration;
    Min(SignedGain(pow(Abs(move), o.gainExponent), move >= 0.0, gain), o.maxChangePerSample as real)
  }

  /**
   * With a lawful pow and a positive exponent, a move in [-1, 1] stays
   * within the gain and keeps its direction, and a zero move stays zero
   * unless the cap itself is negative.
   */
  lemma GainedMoveBounds(move: real, sampleDuration: real, o: Options, pow: (real, real) -> real)
    requires PowLaw(pow) && o.gainExponent > 0.0
    ensures move == 0.0 ==> GainedMove(move, sampleDuration, o, pow) == Min(0.0, o.maxChangePerSample as real)
    ensures -1.0 <= move <= 1.0 && o.maxChangePerSecond as real * sampleDuration >= 0.0
        ==> var r := GainedMove(move, sampleDuration, o, pow);
            && Min(-(o.maxChangePerSecond as real * sampleDuration), o.maxChangePerSample as real) <= r
            && r <= o.maxChangePerSecond as real * sampleDuration
            && (move < 0.0 ==> r <= 0.0)
            && (move > 0.0 && o.maxChangePerSample >= 0 ==> r >= 0.0)
  {
    var gain := o.maxChangePerSecond as real * sampleDuration;
    var magnitude := pow(Abs(move), o.gainExponent);
    PowOfFraction(pow, Abs(move), o.gainExponent);
  }

  /** The two laws of Math.pow the gain stage relies on, at one point. */
  lemma PowOfFraction(pow: (real, real) -> real, x: real, e: real)
    ensures PowLaw(pow) && e > 0.0 && x == 0.0 ==> pow(x, e) == 0.0
    ensures PowLaw(pow) && e > 0.0 && 0.0 <= x <= 1.0 ==> 0.0 <= pow(x, e) <= 1.0
  {
  }

  /**
   * magnitude * (positive ? 1 : -1) * gain. A zero magnitude gives no move;
   * a fraction in [0, 1] of a non-negative gain, in the given direction,
   * lies within the gain.
   */
  function SignedGain(magnitude: real, positive: bool, gain: real): (r: real)
    ensures magnitude == 0.0 ==> r == 0.0
    ensures 0.0 <= magnitude <= 1.0 && gain >= 0.0
        ==> -gain <= r <= gain && (positive ==> r >= 0.0) && (!positive ==> r <= 0.0)
  {
    FractionOfGain(magnitude, gain);
    magnitude * (if positive then 1.0 else -1.0) * gain
  }

  /** A fraction in [0, 1] of a non-negative gain lies between 0 and the gain. */
  lemma FractionOfGain(magnitude: real, gain: real)
    ensures 0.0 <= magnitude <= 1.0 && gain >= 0.0 ==> 0.0 <= magnitude * gain <= gain
  {
    if 0.0 <= magnitude <= 1.0 && gain >= 0.0 {
      assert 0.0 <= magnitude * gain <= 1.0 * gain;
    }
  }

  /**
   * The CPU guard: a positive move is refused when the utilisation exceeds
   * the threshold. Utilisation is the constant 0, so the guard only ever
   * acts when the threshold is negative, and then it cancels exactly the
   * positive moves.
   */
  function CpuGuard(move: real, cpuUtilizationThreshold: int): (r: real)
    ensures cpuUtilizationThreshold >= 0 ==> r == move
    ensures cpuUtilizationThreshold < 0 ==> r == Min(move, 0.0)
  {
    if move > 0.0 && CurrentCpuUtilization() > cpuUtilizationThreshold then 0.0 else move
  }

  /**
   * The quantity the wave magnitude is rounded from: the control setting
   * times the noise average, the target signal-to-noise ratio, the
   * magnitude multiplier and 2. Without noise there is no drive, and with
   * non-negative factors it is never negative.
   */
  function WaveDrive(setting: real, noise: real, o: Options): (drive: real)
    ensures noise == 0.0 ==> drive == 0.0
    ensures (&& setting >= 0.0 && noise >= 0.0
             && o.targetSignalToNoiseRatio >= 0.0 && o.threadMagnitudeMultiplier >= 0.0) ==> drive >= 0.0
  {
    var a := setting * noise;
    var b := a * o.targetSignalToNoiseRatio;
    var c := b * o.threadMagnitudeMultiplier;
    NonNegativeProduct(setting, noise);
    NonNegativeProduct(a, o.targetSignalToNoiseRatio);
    NonNegativeProduct(b, o.threadMagnitudeMultiplier);
    c * 2.0
  }

  /** The product of two non-negative reals is non-negative. */
  lemma NonNegativeProduct(x: real, y: real)
    ensures x >= 0.0 && y >= 0.0 ==> x * y >= 0.0
  {
  }

  /**
   * newThreadWaveMagnitude: the drive rounded half-up by (int)(0.5 + x),
   * capped by maxThreadWaveMagnitude and then raised to at least 1.
   */
  function WaveMagnitude(setting: real, noise: real, o: Options): (r: int)
    ensures r >= 1
    ensures o.maxThreadWaveMagnitude >= 1 ==> r <= o.maxThreadWaveMagnitude
  {
    IMax(IMin(Trunc(0.5 + WaveDrive(setting, noise, o)), o.maxThreadWaveMagnitude), 1)
  }

  /**
   * A drive below 1.5 gives the minimum magnitude 1; strictly between the
   * two limits the magnitude is the drive rounded to the nearest integer.
   */
  lemma WaveMagnitudeRounds(setting: real, noise: real, o: Options)
    ensures WaveDrive(setting, noise, o) < 1.5 ==> WaveMagnitude(setting, noise, o) == 1
    ensures var r := WaveMagnitude(setting, noise, o);
            1 < r < o.maxThreadWaveMagnitude ==> r as real - 0.5 <= WaveDrive(setting, noise, o) < r as real + 0.5
  {
  }

  /**
   * The noise average starts at 0, so the first waves have magnitude 1: the
   * "nice safe little wave".
   */
  lemma InitialWaveIsSmall(setting: real, o: Options)
    ensures WaveMagnitude(setting, 0.0, o) == 1
  {
    assert WaveDrive(setting, 0.0, o) == 0.0;
  }

  /**
   * The control setting kept within the pool's limits: at most
   * maxThreadsCount - magnitude (so the wave fits), then at least
   * minThreadsCount, which wins when the two conflict.
   */
  function ClampSetting(setting: real, magnitude: int, o: Options): (r: real)
    ensures r >= o.minThreadsCount as real
    ensures o.minThreadsCount <= o.maxThreadsCount - magnitude ==> r <= (o.maxThreadsCount - magnitude) as real
    ensures o.minThreadsCount as real <= setting <= (o.maxThreadsCount - magnitude) as real ==> r == setting
  {
    Max(o.minThreadsCount as real, Min((o.maxThreadsCount - magnitude) as real, setting))
  }

  /**
   * The injected square wave: 0 or 1, switching every wavePeriod / 2
   * samples (integer halving, as in the source).
   */
  function SquareWave(totalSamples: int, wavePeriod: int): (r: int)
    requires totalSamples >= 0 && wavePeriod >= 2
    ensures r == 0 || r == 1
  {
    (totalSamples / (wavePeriod / 2)) % 2
  }

  /** Half a wave later the square wave has flipped. */
  lemma SquareWaveFlips(totalSamples: int, wavePeriod: int)
    requires totalSamples >= 0 && wavePeriod >= 2
    ensures SquareWave(totalSamples + wavePeriod / 2, wavePeriod) == 1 - SquareWave(totalSamples, wavePeriod)
  {
    var h := wavePeriod / 2;
    var q, s := totalSamples / h, totalSamples % h;
    assert totalSamples == q * h + s;
    assert totalSamples + h == (q + 1) * h + s;
    QuotientOf(totalSamples + h, h, q + 1, s);
  }

  /**
   * The square wave repeats every 2 * (wavePeriod / 2) samples: wavePeriod
   * itself when it is even, but wavePeriod - 1 when it is odd.
   */
  lemma SquareWavePeriod(totalSamples: int, wavePeriod: int)
    requires totalSamples >= 0 && wavePeriod >= 2
    ensures SquareWave(totalSamples + 2 * (wavePeriod / 2), wavePeriod) == SquareWave(totalSamples, wavePeriod)
  {
    SquareWaveFlips(totalSamples, wavePeriod);
    SquareWaveFlips(totalSamples + wavePeriod / 2, wavePeriod);
  }

  /** Division with remainder determines the quotient. */
  lemma QuotientOf(n: int, d: int, q: int, s: int)
    requires d > 0 && 0 <= s < d && n == q * d + s
    ensures n / d == q
  {
    var q', s' := n / d, n % d;
    assert n == q' * d + s';
    assert (q - q') * d == s' - s;
    assert (q' - q) * d == s - s';
    SampleRing.ProductBounds(q - q', d);
    SampleRing.ProductBounds(q' - q, d);
  }

  /** Math.max(lo, Math.min(hi, n)): the lower limit wins when the two conflict. */
  function Clamp(n: int, lo: int, hi: int): (r: int)
    ensures r >= lo
    ensures lo <= hi ==> r <= hi
    ensures lo <= n <= hi ==> r == n
  {
    IMax(lo, IMin(hi, n))
  }

  /**
   * The new thread count: the control setting plus the wave magnitude when
   * the square wave is high, truncated, and clamped to the pool's limits.
   * The source multiplies the magnitude by the 0/1 wave; WaveTerm shows the
   * two forms agree.
   */
  function NextThreadCount(setting: real, magnitude: int, high: bool, o: Options): (r: int)
    ensures r >= o.minThreadsCount
    ensures o.minThreadsCount <= o.maxThreadsCount ==> r <= o.maxThreadsCount
  {
    Clamp(Trunc(setting + (if high then magnitude else 0) as real), o.minThreadsCount, o.maxThreadsCount)
  }

  /** magnitude * wave, for the square wave's value, is the magnitude when high and 0 when low. */
  lemma WaveTerm(magnitude: int, totalSamples: int, wavePeriod: int)
    requires totalSamples >= 0 && wavePeriod >= 2
    ensures var wave := SquareWave(totalSamples, wavePeriod);
            magnitude * wave == if wave == 1 then magnitude else 0
  {
  }

  /** Within the pool's limits the new thread count is the truncated sum itself. */
  lemma NextThreadCountExact(setting: real, magnitude: int, wave: int, o: Options)
    requires wave == 0 || wave == 1
    ensures var t := Trunc(setting + (magnitude * wave) as real);
            o.minThreadsCount <= t <= o.maxThreadsCount ==> NextThreadCount(setting, magnitude, wave == 1, o) == t
  {
  }

  /**
   * For a non-negative setting, truncation commutes with adding the
   * (integral, non-negative) wave: the wave adds exactly its magnitude to
   * the thread count when high and nothing when low.
   */
  lemma WaveAddsMagnitude(setting: real, k: int)
    requires setting >= 0.0 && k >= 0
    ensures Trunc(setting + k as real) == Trunc(setting) + k
  {
    var t := Trunc(setting);
    assert t as real + k as real <= setting + k as real < (t + k) as real + 1.0;
  }

  /**
   * The interval before the next sample: the drawn interval, except when
   * the ratio is negative and the pool is at its minimum, where the
   * interval is stretched by 10 * max(-ratio, 1) and rounded half-up.
   */
  function NextSampleInterval(ratioReal: real, newThreadCount: int, minThreadsCount: int, interval: int): (r: int)
    ensures !(ratioReal < 0.0 && newThreadCount == minThreadsCount) ==> r == interval
    ensures ratioReal < 0.0 && newThreadCount == minThreadsCount && interval >= 0 ==> r >= 10 * interval
    ensures ratioReal < 0.0 && newThreadCount == minThreadsCount && -1.0 <= ratioReal && interval >= 0
        ==> r == 10 * interval
  {
    if ratioReal < 0.0 && newThreadCount == minThreadsCount then
      var stretch := 10.0 * Max(-ratioReal, 1.0);
      StretchAtLeastTenfold(interval, stretch);
      Trunc(0.5 + interval as real * stretch)
    else
      interval
  }

  /** A stretch of at least 10 on a non-negative interval, rounded half-up, is at least ten intervals. */
  lemma StretchAtLeastTenfold(interval: int, stretch: real)
    requires stretch >= 10.0
    ensures interval >= 0 ==> Trunc(0.5 + interval as real * stretch) >= 10 * interval
    ensures stretch == 10.0 && interval >= 0 ==> Trunc(0.5 + interval as real * stretch) == 10 * interval
  {
    if interval >= 0 {
      assert interval as real * stretch >= interval as real * 10.0 == (10 * interval) as real;
    }
  }

  /** What update decides after the frequency analysis. */
  datatype Step = Step(move: real, setting: real, magnitude: int, threadCount: int)

  /**
   * The stages of update from the move to the new thread count, composed:
   * the move within the per-sample cap, a wave magnitude in range, a
   * control setting at least the minimum, and a thread count within the
   * pool's limits.
   */
  function NextStep(o: Options, pow: (real, real) -> real, ratioReal: real, confidence: real,
                    noise: real, setting: real, sampleDuration: real, totalSamples: int): (s: Step)
    requires o.wavePeriod >= 2 && totalSamples >= 0
    ensures s.move <= o.maxChangePerSample as real
    ensures 1 <= s.magnitude && (o.maxThreadWaveMagnitude >= 1 ==> s.magnitude <= o.maxThreadWaveMagnitude)
    ensures s.setting >= o.minThreadsCount as real
    ensures o.minThreadsCount <= s.threadCount
    ensures o.minThreadsCount <= o.maxThreadsCount ==> s.threadCount <= o.maxThreadsCount
  {
    var move := CpuGuard(GainedMove(PreGainMove(ratioReal, confidence), sampleDuration, o, pow), o.cpuUtilizationThreshold);
    var moved := setting + move;
    var magnitude := WaveMagnitude(moved, noise, o);
    var clamped := ClampSetting(moved, magnitude, o);
    Step(move, clamped, magnitude, NextThreadCount(clamped, magnitude, SquareWave(totalSamples, o.wavePeriod) == 1, o))
  }

  /**
   * Without a ratio and without confidence (the warm-up defaults) the
   * controller does not move, given a lawful pow, a positive exponent and a
   * non-negative per-sample cap.
   */
  lemma WarmupDoesNotMove(o: Options, pow: (real, real) -> real, noise: real, setting: real,
                          sampleDuration: real, totalSamples: int)
    requires o.wavePeriod >= 2 && totalSamples >= 0
    requires PowLaw(pow) && o.gainExponent > 0.0 && o.maxChangePerSample >= 0
    ensures NextStep(o, pow, 0.0, 0.0, noise, setting, sampleDuration, totalSamples).move == 0.0
  {
    GainedMoveBounds(PreGainMove(0.0, 0.0), sampleDuration, o, pow);
  }
}

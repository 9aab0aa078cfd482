/**
 * The controller itself: the HillClimbing object with its two ring buffers
 * of recent throughputs and thread counts, its control setting, its
 * carry-over accumulators for samples that are too noisy, and the
 * randomised sample interval.
 *
 * Random.nextInt is an oracle `nextInt(k, n)` giving the k-th draw with
 * bound n; the object counts its draws. The full history of accepted
 * samples is kept as ghost state, and the rings are proved to hold its most
 * recent entries.
 */
module Controller {
  import opened JavaMath
  import opened ComplexNumbers
  import opened HillClimbingOptions
  import opened SampleRing
  import opened Goertzel
  import opened WaveAnalysis
  import opened ControlLaw

  /** Random.nextInt(n) for n > 0 returns a value in [0, n). */
  ghost predicate RandomLaw(nextInt: (nat, int) -> int)
  {
    forall k: nat, n: int :: n > 0 ==> 0 <= nextInt(k, n) < n
  }

  /**
   * The control setting after drift reconciliation: a thread count changed
   * behind the controller's back moves the setting by the same amount.
   */
  function DriftedSetting(setting: real, lastThreadCount: int, currentThreadCount: int): (r: real)
    ensures r - setting == (currentThreadCount - lastThreadCount) as real
  {
    if currentThreadCount != lastThreadCount then setting + (currentThreadCount - lastThreadCount) as real
    else setting
  }

  /**
   * The statistics changeThreadsCount restarts, with the number of random
   * draws and the sample interval it draws.
   */
  datatype ChangeLog = ChangeLog(elapsed: real, completions: real, draws: nat, interval: int)

  /** The change log after a thread count change (when `changed`) or without one. */
  function Recorded(log: ChangeLog, changed: bool, o: Options, nextInt: (nat, int) -> int): ChangeLog
  {
    if changed then ChangeLog(0.0, 0.0, log.draws + 1, o.sampleIntervalLow + nextInt(log.draws, o.sampleIntervalHigh + 1))
    else log
  }

  /** The change log once a sample's duration and completions are counted. */
  function Counted(log: ChangeLog, sampleDuration: real, numCompletions: int): ChangeLog
  {
    log.(elapsed := log.elapsed + sampleDuration, completions := log.completions + numCompletions as real)
  }

  /**
   * The analysis update applies to the last `count` slots of the rings is
   * the analysis of the last `count` accepted samples: while the rings
   * hold the histories, the window read out of them is the histories'
   * most recent stretch.
   */
  lemma AnalysisOfRecentHistory(o: Options, m: Numerics, throughputRing: seq<real>, threadRing: seq<real>,
                                throughputs: seq<real>, threads: seq<real>, count: int, noise: real)
    requires ControllerAdmits(o) && SqrtLaw(m.sqrt)
    requires RingHolds(throughputRing, throughputs) && RingHolds(threadRing, threads)
    requires |throughputRing| == |threadRing| && |throughputs| == |threads|
    requires 0 <= count <= |throughputRing| && count <= |throughputs| && count % o.wavePeriod == 0
    ensures Analyze(o, m, Window(throughputRing, |throughputs|, count), Window(threadRing, |threads|, count), noise)
         == Analyze(o, m, throughputs[|throughputs| - count..], threads[|threads| - count..], noise)
  {
    WindowIsRecentHistory(throughputRing, throughputs, count);
    WindowIsRecentHistory(threadRing, threads, count);
  }

  class HillClimbing {
    const options: Options
    const numerics: Numerics
    const nextInt: (nat, int) -> int

    const samples: array<real>
    const threadCounts: array<real>

    var pNewSampleInterval: int
    var currentControlSetting: real
    var totalSamples: int
    var lastThreadCount: int
    var elapsedSinceLastChange: real
    var completionsSinceLastChange: real
    var averageThroughputNoise: real
    var currentSampleInterval: int
    var accumulatedCompletionCount: int
    var accumulatedSampleDuration: real

    /** How many values have been drawn from the random oracle. */
    var draws: nat

    /** Every accepted throughput and thread count, oldest first. */
    ghost var throughputHistory: seq<real>
    ghost var threadHistory: seq<real>

    /**
     * The object invariant: admissible options and lawful oracles, two
     * distinct rings of samplesToMeasure slots that hold the most recent
     * accepted samples, a sample interval within the drawn range, and a
     * non-negative carried-over duration.
     */
    ghost predicate Valid()
      reads this, samples, threadCounts
    {
      && ControllerAdmits(options) && Lawful(numerics) && RandomLaw(nextInt)
      && samples != threadCounts
      && samples.Length == threadCounts.Length == options.samplesToMeasure
      && totalSamples == |throughputHistory| == |threadHistory|
      && RingHolds(samples[..], throughputHistory)
      && RingHolds(threadCounts[..], threadHistory)
      && options.sampleIntervalLow <= currentSampleInterval <= options.sampleIntervalLow + options.sampleIntervalHigh
      && accumulatedSampleDuration >= 0.0
    }

    /** The change log of the controller's current state. */
    ghost function Log(): ChangeLog
      reads this
    {
      ChangeLog(elapsedSinceLastChange, completionsSinceLastChange, draws, currentSampleInterval)
    }

    /**
     * A fresh controller: everything zero, two rings of samplesToMeasure
     * slots, and a first sample interval drawn from
     * [sampleIntervalLow, sampleIntervalLow + sampleIntervalHigh].
     */
    constructor (options: Options, numerics: Numerics, nextInt: (nat, int) -> int)
      requires ControllerAdmits(options) && Lawful(numerics) && RandomLaw(nextInt)
      ensures Valid() && fresh(samples) && fresh(threadCounts)
      ensures this.options == options && this.numerics == numerics && this.nextInt == nextInt
      ensures currentControlSetting == 0.0 && totalSamples == 0 && lastThreadCount == 0
      ensures averageThroughputNoise == 0.0 && elapsedSinceLastChange == 0.0 && completionsSinceLastChange == 0.0
      ensures accumulatedCompletionCount == 0 && accumulatedSampleDuration == 0.0 && pNewSampleInterval == 0
      ensures currentSampleInterval == options.sampleIntervalLow + nextInt(0, options.sampleIntervalHigh + 1)
      ensures draws == 1 && throughputHistory == [] && threadHistory == []
    {
      this.options := options;
      this.numerics := numerics;
      this.nextInt := nextInt;
      pNewSampleInterval := 0;
      currentControlSetting := 0.0;
      totalSamples := 0;
      lastThreadCount := 0;
      averageThroughputNoise := 0.0;
      elapsedSinceLastChange := 0.0;
      completionsSinceLastChange := 0.0;
      accumulatedCompletionCount := 0;
      accumulatedSampleDuration := 0.0;
      samples := new real[options.samplesToMeasure](_ => 0.0);
      threadCounts := new real[options.samplesToMeasure](_ => 0.0);
      currentSampleInterval := options.sampleIntervalLow + nextInt(0, options.sampleIntervalHigh + 1);
      draws := 1;
      throughputHistory := [];
      threadHistory := [];
      new;
      EmptyRingHolds(samples[..]);
      EmptyRingHolds(threadCounts[..]);
    }

    /**
     * forceChange: a thread count other than the last one moves the control
     * setting by the difference and is recorded as a change; the same
     * thread count changes nothing.
     */
    method ForceChange(newThreadCount: int, transition: StateTransition)
      requires Valid()
      modifies this
      ensures Valid()
      ensures newThreadCount == old(lastThreadCount) ==> unchanged(this)
      ensures newThreadCount != old(lastThreadCount) ==>
        && currentControlSetting == old(currentControlSetting) + (newThreadCount - old(lastThreadCount)) as real
        && lastThreadCount == newThreadCount
        && elapsedSinceLastChange == 0.0 && completionsSinceLastChange == 0.0
        && currentSampleInterval == options.sampleIntervalLow + nextInt(old(draws), options.sampleIntervalHigh + 1)
        && draws == old(draws) + 1
        && pNewSampleInterval == old(pNewSampleInterval) && totalSamples == old(totalSamples)
        && averageThroughputNoise == old(averageThroughputNoise)
        && accumulatedCompletionCount == old(accumulatedCompletionCount)
        && accumulatedSampleDuration == old(accumulatedSampleDuration)
        && throughputHistory == old(throughputHistory) && threadHistory == old(threadHistory)
    {
      if newThreadCount != lastThreadCount {
        currentControlSetting := currentControlSetting + (newThreadCount - lastThreadCount) as real;
        ChangeThreadsCount(newThreadCount, transition);
      }
    }

    /**
     * changeThreadsCount: records the new thread count, draws a fresh
     * sample interval and restarts the per-thread-count statistics.
     */
    method ChangeThreadsCount(newThreadCount: int, transition: StateTransition)
      requires Valid()
      modifies this
      ensures Valid()
      ensures lastThreadCount == newThreadCount
      ensures currentSampleInterval == options.sampleIntervalLow + nextInt(old(draws), options.sampleIntervalHigh + 1)
      ensures draws == old(draws) + 1
      ensures elapsedSinceLastChange == 0.0 && completionsSinceLastChange == 0.0
      ensures currentControlSetting == old(currentControlSetting) && pNewSampleInterval == old(pNewSampleInterval)
      ensures totalSamples == old(totalSamples) && averageThroughputNoise == old(averageThroughputNoise)
      ensures accumulatedCompletionCount == old(accumulatedCompletionCount)
      ensures accumulatedSampleDuration == old(accumulatedSampleDuration)
      ensures throughputHistory == old(throughputHistory) && threadHistory == old(threadHistory)
    {
      lastThreadCount := newThreadCount;
      currentSampleInterval := options.sampleIntervalLow + nextInt(draws, options.sampleIntervalHigh + 1);
      draws := draws + 1;
      elapsedSinceLastChange := 0.0;
      completionsSinceLastChange := 0.0;
    }

    /**
     * The reconciliation step of update: a thread count changed behind the controller's
     * back is forced through as a change first, then the sample's duration
     * and completions are counted toward the current thread count.
     */
    method Reconcile(currentThreadCount: int, sampleDuration: real, numCompletions: int)
      requires Valid()
      modifies this
      ensures Valid()
      ensures lastThreadCount == currentThreadCount
      ensures currentControlSetting == DriftedSetting(old(currentControlSetting), old(lastThreadCount), currentThreadCount)
      ensures Log() == Counted(Recorded(old(Log()), currentThreadCount != old(lastThreadCount), options, nextInt),
                               sampleDuration, numCompletions)
      ensures pNewSampleInterval == old(pNewSampleInterval) && totalSamples == old(totalSamples)
      ensures averageThroughputNoise == old(averageThroughputNoise)
      ensures accumulatedSampleDuration == old(accumulatedSampleDuration)
      ensures accumulatedCompletionCount == old(accumulatedCompletionCount)
      ensures throughputHistory == old(throughputHistory) && threadHistory == old(threadHistory)
    {
      if currentThreadCount != lastThreadCount {
        ForceChange(currentThreadCount, Initializing);
      }
      elapsedSinceLastChange := elapsedSinceLastChange + sampleDuration;
      completionsSinceLastChange := completionsSinceLastChange + numCompletions as real;
    }

    /**
     * update: reconciles a thread count changed behind the controller's
     * back, then either holds back a sample that is too inaccurate (its
     * duration and completions are carried over, the thread count stays and
     * the next sample comes after 10 units) or accepts it: the sample enters
     * the rings and the history, the window is analysed, and the control
     * setting, the thread count and the next sample interval follow from
     * the analysis. In every case the controller remembers the thread count
     * it returns.
     */
    method Update(currentThreadCount: int, sampleDuration: real, numCompletions: int) returns (newThreadCount: int)
      requires Valid() && sampleDuration > 0.0
      modifies this, samples, threadCounts
      ensures Valid()
      ensures lastThreadCount == newThreadCount
      ensures Log() == Recorded(Counted(Recorded(old(Log()), currentThreadCount != old(lastThreadCount), options, nextInt),
                                        sampleDuration, numCompletions),
                                newThreadCount != currentThreadCount, options, nextInt)
      ensures var completions := numCompletions + old(accumulatedCompletionCount);
        old(totalSamples) > 0 && TooInaccurate(currentThreadCount, completions, options.maxSampleError) ==>
          && newThreadCount == currentThreadCount && pNewSampleInterval == 10
          && accumulatedSampleDuration == sampleDuration + old(accumulatedSampleDuration)
          && accumulatedCompletionCount == completions
          && totalSamples == old(totalSamples)
          && samples[..] == old(samples[..]) && threadCounts[..] == old(threadCounts[..])
          && throughputHistory == old(throughputHistory) && threadHistory == old(threadHistory)
          && currentControlSetting == DriftedSetting(old(currentControlSetting), old(lastThreadCount), currentThreadCount)
          && averageThroughputNoise == old(averageThroughputNoise)
      ensures var completions := numCompletions + old(accumulatedCompletionCount);
        var throughput := completions as real / (sampleDuration + old(accumulatedSampleDuration));
        !(old(totalSamples) > 0 && TooInaccurate(currentThreadCount, completions, options.maxSampleError)) ==>
          && accumulatedSampleDuration == 0.0 && accumulatedCompletionCount == 0
          && totalSamples == old(totalSamples) + 1
          && samples[..] == old(samples[..])[old(totalSamples) % options.samplesToMeasure := throughput]
          && threadCounts[..] == old(threadCounts[..])[old(totalSamples) % options.samplesToMeasure := currentThreadCount as real]
          && throughputHistory == old(throughputHistory) + [throughput]
          && threadHistory == old(threadHistory) + [currentThreadCount as real]
      ensures var completions := numCompletions + old(accumulatedCompletionCount);
        !(old(totalSamples) > 0 && TooInaccurate(currentThreadCount, completions, options.maxSampleError)) ==>
          var sampleCount := SampleCount(totalSamples, options.samplesToMeasure, options.wavePeriod);
          var analysis := Analyze(options, numerics, Window(samples[..], totalSamples, sampleCount),
                                  Window(threadCounts[..], totalSamples, sampleCount), old(averageThroughputNoise));
          var step := NextStep(options, numerics.pow, analysis.ratio.re, analysis.confidence, analysis.noise,
                               DriftedSetting(old(currentControlSetting), old(lastThreadCount), currentThreadCount),
                               sampleDuration + old(accumulatedSampleDuration), totalSamples);
          && averageThroughputNoise == analysis.noise
          && currentControlSetting == step.setting
          && newThreadCount == step.threadCount
          && pNewSampleInterval
             == NextSampleInterval(analysis.ratio.re, newThreadCount, options.minThreadsCount, currentSampleInterval)
    {
      Reconcile(currentThreadCount, sampleDuration, numCompletions);
      var duration := sampleDuration + accumulatedSampleDuration;
      var completions := numCompletions + accumulatedCompletionCount;
      assert duration == sampleDuration + old(accumulatedSampleDuration);
      assert completions == numCompletions + old(accumulatedCompletionCount);
      assert totalSamples == old(totalSamples);
      var heldBack := totalSamples > 0 && TooInaccurate(currentThreadCount, completions, options.maxSampleError);
      assert heldBack == (old(totalSamples) > 0 && TooInaccurate(currentThreadCount, numCompletions + old(accumulatedCompletionCount), options.maxSampleError));
      if heldBack {
        HoldBack(duration, completions);
        newThreadCount := currentThreadCount;
      } else {
        ghost var setting := currentControlSetting;
        ghost var noise := averageThroughputNoise;
        assert setting == DriftedSetting(old(currentControlSetting), old(lastThreadCount), currentThreadCount);
        assert noise == old(averageThroughputNoise);
        newThreadCount := Accept(currentThreadCount, duration, completions, setting, noise);
      }
    }

    /**
     * The carry-over of a sample that is too inaccurate: its duration and
     * completions are kept for the next sample, which is asked for after 10
     * units; nothing else changes.
     */
    method HoldBack(duration: real, completions: int)
      requires Valid() && duration >= 0.0
      modifies this
      ensures Valid()
      ensures accumulatedSampleDuration == duration && accumulatedCompletionCount == completions
      ensures pNewSampleInterval == 10
      ensures Log() == old(Log()) && lastThreadCount == old(lastThreadCount)
      ensures totalSamples == old(totalSamples) && currentControlSetting == old(currentControlSetting)
      ensures averageThroughputNoise == old(averageThroughputNoise)
      ensures throughputHistory == old(throughputHistory) && threadHistory == old(threadHistory)
    {
      accumulatedSampleDuration := duration;
      accumulatedCompletionCount := completions;
      pNewSampleInterval := 10;
    }

    /**
     * The acceptance step of update, for a sample that passed the accuracy test:
     * the carried-over accumulators are cleared, the sample's throughput
     * (all completions over all the time since the last accepted sample)
     * enters the rings, and the controller adjusts to the analysis of the
     * window.
     */
    method Accept(currentThreadCount: int, duration: real, completions: int, ghost setting: real, ghost noise: real)
      returns (newThreadCount: int)
      requires Valid() && lastThreadCount == currentThreadCount && duration > 0.0
      requires setting == currentControlSetting && noise == averageThroughputNoise
      modifies this, samples, threadCounts
      ensures Valid()
      ensures lastThreadCount == newThreadCount
      ensures accumulatedSampleDuration == 0.0 && accumulatedCompletionCount == 0
      ensures totalSamples == old(totalSamples) + 1
      ensures samples[..] == old(samples[..])[old(totalSamples) % options.samplesToMeasure := completions as real / duration]
      ensures threadCounts[..] == old(threadCounts[..])[old(totalSamples) % options.samplesToMeasure := currentThreadCount as real]
      ensures throughputHistory == old(throughputHistory) + [completions as real / duration]
      ensures threadHistory == old(threadHistory) + [currentThreadCount as real]
      ensures Log() == Recorded(old(Log()), newThreadCount != currentThreadCount, options, nextInt)
      ensures var sampleCount := SampleCount(totalSamples, options.samplesToMeasure, options.wavePeriod);
        var analysis := Analyze(options, numerics, Window(samples[..], totalSamples, sampleCount),
                                Window(threadCounts[..], totalSamples, sampleCount), noise);
        var step := NextStep(options, numerics.pow, analysis.ratio.re, analysis.confidence, analysis.noise,
                             setting, duration, totalSamples);
        && averageThroughputNoise == analysis.noise
        && currentControlSetting == step.setting
        && newThreadCount == step.threadCount
        && pNewSampleInterval
           == NextSampleInterval(analysis.ratio.re, newThreadCount, options.minThreadsCount, currentSampleInterval)
    {
      accumulatedSampleDuration := 0.0;
      accumulatedCompletionCount := 0;
      AddSample(completions as real / duration, currentThreadCount as real);
      assert Log() == old(Log());
      ghost var analysis;
      newThreadCount, analysis := Adjust(currentThreadCount, duration, setting, noise);
    }

    /**
     * The adjustment step of update, once the sample is in the rings: the
     * analysis of the window, the move of the control setting, the new
     * thread count (recorded as a change when it differs from the current
     * one) and the interval before the next sample.
     */
    method Adjust(currentThreadCount: int, duration: real, ghost setting: real, ghost noise: real)
      returns (newThreadCount: int, ghost analysis: Analysis)
      requires Valid() && totalSamples >= 1 && lastThreadCount == currentThreadCount
      requires setting == currentControlSetting && noise == averageThroughputNoise
      modifies this
      ensures Valid()
      ensures lastThreadCount == newThreadCount
      ensures totalSamples == old(totalSamples)
      ensures throughputHistory == old(throughputHistory) && threadHistory == old(threadHistory)
      ensures accumulatedSampleDuration == old(accumulatedSampleDuration)
      ensures accumulatedCompletionCount == old(accumulatedCompletionCount)
      ensures Log() == Recorded(old(Log()), newThreadCount != currentThreadCount, options, nextInt)
      ensures analysis == Analyze(options, numerics,
                                     Window(samples[..], totalSamples, SampleCount(totalSamples, options.samplesToMeasure, options.wavePeriod)),
                                     Window(threadCounts[..], totalSamples, SampleCount(totalSamples, options.samplesToMeasure, options.wavePeriod)),
                                     noise)
      ensures var step := NextStep(options, numerics.pow, analysis.ratio.re, analysis.confidence, analysis.noise,
                                   setting, duration, totalSamples);
        && averageThroughputNoise == analysis.noise
        && currentControlSetting == step.setting
        && newThreadCount == step.threadCount
        && pNewSampleInterval
           == NextSampleInterval(analysis.ratio.re, newThreadCount, options.minThreadsCount, currentSampleInterval)
    {
      var sampleCount := SampleCount(totalSamples, options.samplesToMeasure, options.wavePeriod);
      var a := AnalyzeWindow(sampleCount);
      analysis := a;
      newThreadCount := Move(currentThreadCount, duration, a);
    }

    /**
     * The move step of update, given the analysis of the window: the noise
     * average, the move of the control setting, the new thread count
     * (recorded as a change when it differs from the current one) and the
     * interval before the next sample.
     */
    method Move(currentThreadCount: int, duration: real, analysis: Analysis) returns (newThreadCount: int)
      requires Valid() && totalSamples >= 1 && lastThreadCount == currentThreadCount
      modifies this
      ensures Valid()
      ensures lastThreadCount == newThreadCount
      ensures totalSamples == old(totalSamples)
      ensures throughputHistory == old(throughputHistory) && threadHistory == old(threadHistory)
      ensures accumulatedSampleDuration == old(accumulatedSampleDuration)
      ensures accumulatedCompletionCount == old(accumulatedCompletionCount)
      ensures Log() == Recorded(old(Log()), newThreadCount != currentThreadCount, options, nextInt)
      ensures var step := NextStep(options, numerics.pow, analysis.ratio.re, analysis.confidence, analysis.noise,
                                   old(currentControlSetting), duration, totalSamples);
        && averageThroughputNoise == analysis.noise
        && currentControlSetting == step.setting
        && newThreadCount == step.threadCount
        && pNewSampleInterval
           == NextSampleInterval(analysis.ratio.re, newThreadCount, options.minThreadsCount, currentSampleInterval)
    {
      averageThroughputNoise := analysis.noise;
      var step := NextStep(options, numerics.pow, analysis.ratio.re, analysis.confidence, averageThroughputNoise,
                           currentControlSetting, duration, totalSamples);
      currentControlSetting := step.setting;
      newThreadCount := step.threadCount;
      if newThreadCount != currentThreadCount {
        ChangeThreadsCount(newThreadCount, analysis.transition);
      }
      pNewSampleInterval := NextSampleInterval(analysis.ratio.re, newThreadCount, options.minThreadsCount,
                                               currentSampleInterval);
    }

    /**
     * The ring append of update: exactly slot totalSamples % samplesToMeasure
     * of each ring receives the new sample, and totalSamples grows by one.
     */
    method AddSample(throughput: real, threadCount: real)
      requires Valid()
      modifies this`totalSamples, this`throughputHistory, this`threadHistory, samples, threadCounts
      ensures Valid()
      ensures samples[..] == old(samples[..])[old(totalSamples) % options.samplesToMeasure := throughput]
      ensures threadCounts[..] == old(threadCounts[..])[old(totalSamples) % options.samplesToMeasure := threadCount]
      ensures totalSamples == old(totalSamples) + 1
      ensures throughputHistory == old(throughputHistory) + [throughput]
      ensures threadHistory == old(threadHistory) + [threadCount]
    {
      var sampleIndex := totalSamples % options.samplesToMeasure;
      RingAppend(samples[..], throughputHistory, throughput);
      RingAppend(threadCounts[..], threadHistory, threadCount);
      samples[sampleIndex] := throughput;
      threadCounts[sampleIndex] := threadCount;
      totalSamples := totalSamples + 1;
      throughputHistory := throughputHistory + [throughput];
      threadHistory := threadHistory + [threadCount];
    }

    /**
     * computeWaveComponent: the Goertzel recurrence run over the last
     * sampleCount entries of a ring, oldest first, giving the wave
     * component of that window at `period`.
     */
    method ComputeWaveComponent(ring: array<real>, sampleCount: int, period: real) returns (c: Complex)
      requires ring.Length == options.samplesToMeasure > 0
      requires 0 <= sampleCount <= totalSamples
      requires 2.0 <= period <= sampleCount as real
      ensures c == WaveComponent(Window(ring[..], totalSamples, sampleCount), period, numerics)
    {
      ghost var window := Window(ring[..], totalSamples, sampleCount);
      var w := 2.0 * PI / period;
      var cosine := numerics.cos(w);
      var sine := numerics.sin(w);
      var coefficient := 2.0 * cosine;
      var q1, q2 := 0.0, 0.0;
      for i := 0 to sampleCount
        invariant GoertzelState(q1, q2) == Recurrence(window, i, coefficient)
      {
        var sample := ring[(totalSamples - sampleCount + i) % options.samplesToMeasure];
        assert sample == window[i];
        var q0 := coefficient * q1 - q2 + sample;
        q2 := q1;
        q1 := q0;
      }
      WaveComponentFrom(window, period, numerics, w, GoertzelState(q1, q2));
      c := Finish(GoertzelState(q1, q2), cosine, sine, sampleCount as real);
    }

    /**
     * The averaging loop of update: the mean throughput and the mean
     * thread count over the last sampleCount entries of the rings.
     */
    method AverageWindows(sampleCount: int) returns (averageThroughput: real, averageThreadCount: real)
      requires samples.Length == threadCounts.Length == options.samplesToMeasure > 0
      requires 0 < sampleCount <= totalSamples
      ensures averageThroughput == Sum(Window(samples[..], totalSamples, sampleCount)) / sampleCount as real
      ensures averageThreadCount == Sum(Window(threadCounts[..], totalSamples, sampleCount)) / sampleCount as real
    {
      ghost var throughputs := Window(samples[..], totalSamples, sampleCount);
      ghost var threads := Window(threadCounts[..], totalSamples, sampleCount);
      var sampleSum, threadSum := 0.0, 0.0;
      for i := 0 to sampleCount
        invariant sampleSum == Sum(throughputs[..i])
        invariant threadSum == Sum(threads[..i])
      {
        assert throughputs[..i + 1][..i] == throughputs[..i];
        assert threads[..i + 1][..i] == threads[..i];
        sampleSum := sampleSum + samples[(totalSamples - sampleCount + i) % options.samplesToMeasure];
        threadSum := threadSum + threadCounts[(totalSamples - sampleCount + i) % options.samplesToMeasure];
      }
      assert throughputs[..sampleCount] == throughputs;
      assert threads[..sampleCount] == threads;
      averageThroughput := sampleSum / sampleCount as real;
      averageThreadCount := threadSum / sampleCount as real;
    }

    /**
     * The analysis step of update: the frequency analysis of the last
     * sampleCount accepted samples against the current noise average.
     */
    method AnalyzeWindow(sampleCount: int) returns (a: Analysis)
      requires ControllerAdmits(options) && SqrtLaw(numerics.sqrt)
      requires samples.Length == threadCounts.Length == options.samplesToMeasure
      requires 0 <= sampleCount <= options.samplesToMeasure && sampleCount <= totalSamples
      requires sampleCount % options.wavePeriod == 0
      ensures a == Analyze(options, numerics, Window(samples[..], totalSamples, sampleCount),
                           Window(threadCounts[..], totalSamples, sampleCount), averageThroughputNoise)
    {
      a := Analysis(Complex.Zero(), 0.0, averageThroughputNoise, Warmup);
      if sampleCount > options.wavePeriod {
        var averageThroughput, averageThreadCount := AverageWindows(sampleCount);
        if averageThroughput > 0.0 && averageThreadCount > 0.0 {
          a := MeasureWindow(sampleCount, averageThroughput, averageThreadCount);
        }
      }
    }

    /**
     * The measurement step of update: the throughput wave, the noise estimate of
     * the neighbouring bands and the thread wave, each normalised by its
     * average, and from them the noise average, the ratio and the
     * confidence.
     */
    method MeasureWindow(sampleCount: int, averageThroughput: real, averageThreadCount: real) returns (a: Analysis)
      requires ControllerAdmits(options) && SqrtLaw(numerics.sqrt)
      requires samples.Length == threadCounts.Length == options.samplesToMeasure
      requires options.wavePeriod < sampleCount <= options.samplesToMeasure && sampleCount <= totalSamples
      requires sampleCount % options.wavePeriod == 0
      requires averageThroughput > 0.0 && averageThreadCount > 0.0
      ensures a == Measure(options, numerics, Window(samples[..], totalSamples, sampleCount),
                           Window(threadCounts[..], totalSamples, sampleCount), averageThroughputNoise,
                           averageThroughput, averageThreadCount)
    {
      var period := options.wavePeriod as real;
      AdjacentPeriodsFit(sampleCount, options.wavePeriod);
      var adjacentPeriod1 := AdjacentPeriod1(sampleCount, options.wavePeriod);
      var adjacentPeriod2 := AdjacentPeriod2(sampleCount, options.wavePeriod);
      var wave := ComputeWaveComponent(samples, sampleCount, period);
      var throughputWave := wave.DivideByReal(averageThroughput);
      var below := ComputeWaveComponent(samples, sampleCount, adjacentPeriod1);
      var estimate := below.DivideByReal(averageThroughput).Abs(numerics.sqrt);
      if adjacentPeriod2 <= sampleCount as real {
        var above := ComputeWaveComponent(samples, sampleCount, adjacentPeriod2);
        estimate := Max(estimate, above.DivideByReal(averageThroughput).Abs(numerics.sqrt));
      }
      var threadComponent := ComputeWaveComponent(threadCounts, sampleCount, period);
      var threadWave := threadComponent.DivideByReal(averageThreadCount);
      a := Assess(options, numerics, throughputWave, estimate, threadWave, averageThroughputNoise);
    }
  }
}

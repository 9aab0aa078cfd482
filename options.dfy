/**
 * The controller's tunables: an immutable record and the mutable builder
 * that produces it. Neither validates anything; the requirements of the
 * controller are stated separately (ControllerAdmits).
 */
module HillClimbingOptions {

  datatype Options = Options(
    cpuUtilizationThreshold: int,
    minThreadsCount: int,
    maxThreadsCount: int,
    wavePeriod: int,
    samplesToMeasure: int,
    targetThroughputRatio: real,
    targetSignalToNoiseRatio: real,
    maxChangePerSecond: int,
    maxChangePerSample: int,
    maxThreadWaveMagnitude: int,
    sampleIntervalLow: int,
    sampleIntervalHigh: int,
    threadMagnitudeMultiplier: real,
    throughputErrorSmoothingFactor: real,
    gainExponent: real,
    maxSampleError: real)

  /**
   * What the controller needs of its options to run without a Java
   * exception or a failed assertion: a ring buffer that is not empty (the
   * ring index is taken modulo its size), a wave period of at least 3 (so
   * that both neighbouring Fourier bands are at or below the Nyquist
   * frequency), a non-negative jitter range (Random.nextInt needs a
   * positive bound), and a non-zero target signal-to-noise ratio (the
   * confidence is divided by it; the IEEE infinities a zero divisor would
   * give are outside the model).
   */
  predicate ControllerAdmits(o: Options)
  {
    && o.samplesToMeasure > 0 && o.wavePeriod >= 3 && o.sampleIntervalHigh >= 0
    && o.targetSignalToNoiseRatio != 0.0
  }

  /**
   * The builder's initial values; availableProcessors stands for the
   * runtime query that gives the default minimum thread count.
   */
  function DefaultOptions(availableProcessors: int): (o: Options)
    ensures o.minThreadsCount == availableProcessors
    ensures o.samplesToMeasure == 8 * o.wavePeriod
    ensures o.minThreadsCount <= o.maxThreadsCount <==> availableProcessors <= 200
    ensures ControllerAdmits(o)
  {
    Options(
      cpuUtilizationThreshold := 95,
      minThreadsCount := availableProcessors,
      maxThreadsCount := 200,
      wavePeriod := 4,
      samplesToMeasure := 4 * 8,
      targetThroughputRatio := 15.0 / 100.0,
      targetSignalToNoiseRatio := 300.0 / 100.0,
      maxChangePerSecond := 4,
      maxChangePerSample := 20,
      maxThreadWaveMagnitude := 20,
      sampleIntervalLow := 10,
      sampleIntervalHigh := 200,
      threadMagnitudeMultiplier := 100.0 / 100.0,
      throughputErrorSmoothingFactor := 1.0 / 100.0,
      gainExponent := 200.0 / 100.0,
      maxSampleError := 15.0 / 100.0)
  }

  /** The default values, field by field, as literals. */
  lemma DefaultValues(availableProcessors: int)
    ensures var o := DefaultOptions(availableProcessors);
      && o.cpuUtilizationThreshold == 95 && o.maxThreadsCount == 200
      && o.wavePeriod == 4 && o.samplesToMeasure == 32
      && o.targetThroughputRatio == 0.15 && o.targetSignalToNoiseRatio == 3.0
      && o.maxChangePerSecond == 4 && o.maxChangePerSample == 20
      && o.maxThreadWaveMagnitude == 20
      && o.sampleIntervalLow == 10 && o.sampleIntervalHigh == 200
      && o.threadMagnitudeMultiplier == 1.0 && o.throughputErrorSmoothingFactor == 0.01
      && o.gainExponent == 2.0 && o.maxSampleError == 0.15
  {
  }

  /** The mutable builder: every setter changes one field and returns the builder itself. */
  class Builder {
    var cpuUtilizationThreshold: int
    var minThreadsCount: int
    var maxThreadsCount: int
    var wavePeriod: int
    var samplesToMeasure: int
    var targetThroughputRatio: real
    var targetSignalToNoiseRatio: real
    var maxChangePerSecond: int
    var maxChangePerSample: int
    var maxThreadWaveMagnitude: int
    var sampleIntervalLow: int
    var sampleIntervalHigh: int
    var threadMagnitudeMultiplier: real
    var throughputErrorSmoothingFactor: real
    var gainExponent: real
    var maxSampleError: real

    /** The record the builder currently describes (build() with no side effect). */
    function Build(): Options
      reads this
    {
      Options(cpuUtilizationThreshold, minThreadsCount, maxThreadsCount, wavePeriod, samplesToMeasure,
        targetThroughputRatio, targetSignalToNoiseRatio, maxChangePerSecond, maxChangePerSample,
        maxThreadWaveMagnitude, sampleIntervalLow, sampleIntervalHigh, threadMagnitudeMultiplier,
        throughputErrorSmoothingFactor, gainExponent, maxSampleError)
    }

    /**
     * The field initialisers; samplesToMeasure is computed here, once,
     * from the initial wave period.
     */
    constructor (availableProcessors: int)
      ensures Build() == DefaultOptions(availableProcessors)
    {
      cpuUtilizationThreshold := 95;
      minThreadsCount := availableProcessors;
      maxThreadsCount := 200;
      var initialWavePeriod := 4;
      wavePeriod := initialWavePeriod;
      samplesToMeasure := initialWavePeriod * 8;
      targetThroughputRatio := 15.0 / 100.0;
      targetSignalToNoiseRatio := 300.0 / 100.0;
      maxChangePerSecond := 4;
      maxChangePerSample := 20;
      maxThreadWaveMagnitude := 20;
      sampleIntervalLow := 10;
      sampleIntervalHigh := 200;
      threadMagnitudeMultiplier := 100.0 / 100.0;
      throughputErrorSmoothingFactor := 1.0 / 100.0;
      gainExponent := 200.0 / 100.0;
      maxSampleError := 15.0 / 100.0;
    }

    method SetCpuUtilizationThreshold(value: int) returns (b: Builder)
      modifies this
      ensures b == this && Build() == old(Build()).(cpuUtilizationThreshold := value)
    {
      cpuUtilizationThreshold := value;
      b := this;
    }

    method SetMinThreadsCount(value: int) returns (b: Builder)
      modifies this
      ensures b == this && Build() == old(Build()).(minThreadsCount := value)
    {
      minThreadsCount := value;
      b := this;
    }

    method SetMaxThreadsCount(value: int) returns (b: Builder)
      modifies this
      ensures b == this && Build() == old(Build()).(maxThreadsCount := value)
    {
      maxThreadsCount := value;
      b := this;
    }

    /** Changes the wave period only: samplesToMeasure keeps the value computed at initialisation. */
    method SetWavePeriod(value: int) returns (b: Builder)
      modifies this
      ensures b == this && Build() == old(Build()).(wavePeriod := value)
      ensures samplesToMeasure == old(samplesToMeasure)
    {
      wavePeriod := value;
      b := this;
    }

    method SetSamplesToMeasure(value: int) returns (b: Builder)
      modifies this
      ensures b == this && Build() == old(Build()).(samplesToMeasure := value)
    {
      samplesToMeasure := value;
      b := this;
    }

    method SetTargetThroughputRatio(value: real) returns (b: Builder)
      modifies this
      ensures b == this && Build() == old(Build()).(targetThroughputRatio := value)
    {
      targetThroughputRatio := value;
      b := this;
    }

    method SetTargetSignalToNoiseRatio(value: real) returns (b: Builder)
      modifies this
      ensures b == this && Build() == old(Build()).(targetSignalToNoiseRatio := value)
    {
      targetSignalToNoiseRatio := value;
      b := this;
    }

    method SetMaxChangePerSecond(value: int) returns (b: Builder)
      modifies this
      ensures b == this && Build() == old(Build()).(maxChangePerSecond := value)
    {
      maxChangePerSecond := value;
      b := this;
    }

    method SetMaxChangePerSample(value: int) returns (b: Builder)
      modifies this
      ensures b == this && Build() == old(Build()).(maxChangePerSample := value)
    {
      maxChangePerSample := value;
      b := this;
    }

    method SetMaxThreadWaveMagnitude(value: int) returns (b: Builder)
      modifies this
      ensures b == this && Build() == old(Build()).(maxThreadWaveMagnitude := value)
    {
      maxThreadWaveMagnitude := value;
      b := this;
    }

    method SetSampleIntervalLow(value: int) returns (b: Builder)
      modifies this
      ensures b == this && Build() == old(Build()).(sampleIntervalLow := value)
    {
      sampleIntervalLow := value;
      b := this;
    }

    method SetSampleIntervalHigh(value: int) returns (b: Builder)
      modifies this
      ensures b == this && Build() == old(Build()).(sampleIntervalHigh := value)
    {
      sampleIntervalHigh := value;
      b := this;
    }

    method SetThreadMagnitudeMultiplier(value: real) returns (b: Builder)
      modifies this
      ensures b == this && Build() == old(Build()).(threadMagnitudeMultiplier := value)
    {
      threadMagnitudeMultiplier := value;
      b := this;
    }

    method SetThroughputErrorSmoothingFactor(value: real) returns (b: Builder)
      modifies this
      ensures b == this && Build() == old(Build()).(throughputErrorSmoothingFactor := value)
    {
      throughputErrorSmoothingFactor := value;
      b := this;
    }

    method SetGainExponent(value: real) returns (b: Builder)
      modifies this
      ensures b == this && Build() == old(Build()).(gainExponent := value)
    {
      gainExponent := value;
      b := this;
    }

    method SetMaxSampleError(value: real) returns (b: Builder)
      modifies this
      ensures b == this && Build() == old(Build()).(maxSampleError := value)
    {
      maxSampleError := value;
      b := this;
    }

    /** build(): a fresh record holding exactly the builder's current fields. */
    method BuildRecord() returns (o: Options)
      ensures o == Build()
      ensures o.wavePeriod == wavePeriod && o.samplesToMeasure == samplesToMeasure
      ensures o.minThreadsCount == minThreadsCount && o.maxThreadsCount == maxThreadsCount
    {
      o := Options(cpuUtilizationThreshold, minThreadsCount, maxThreadsCount, wavePeriod, samplesToMeasure,
        targetThroughputRatio, targetSignalToNoiseRatio, maxChangePerSecond, maxChangePerSample,
        maxThreadWaveMagnitude, sampleIntervalLow, sampleIntervalHigh, threadMagnitudeMultiplier,
        throughputErrorSmoothingFactor, gainExponent, maxSampleError);
    }
  }

  /** DEFAULT_OPTIONS: builder().build(). */
  method DefaultOptionsRecord(availableProcessors: int) returns (o: Options)
    ensures o == DefaultOptions(availableProcessors)
    ensures o.wavePeriod == 4 && o.samplesToMeasure == 32 && o.maxThreadsCount == 200
  {
    var builder := new Builder(availableProcessors);
    o := builder.BuildRecord();
  }

  /**
   * The builder derives samplesToMeasure from the default wave period only:
   * builder().setWavePeriod(p).build() keeps a ring of 32 samples whatever p is.
   */
  method WithWavePeriod(availableProcessors: int, wavePeriod: int) returns (o: Options)
    ensures o == DefaultOptions(availableProcessors).(wavePeriod := wavePeriod)
    ensures o.wavePeriod == wavePeriod && o.samplesToMeasure == 32
  {
    var builder := new Builder(availableProcessors);
    var same := builder.SetWavePeriod(wavePeriod);
    o := same.BuildRecord();
  }
}

# Hill-climbing thread-count controller, modelled in Dafny

This project models the core of a hill-climbing controller. The controller
recommends a worker-thread count for an execution pool from periodic
throughput samples. The model covers these parts:

- **The controller object** (`Controller.HillClimbing`). It holds two ring
  buffers of recent throughputs and thread counts, the running control
  setting, the carry-over accumulators for samples that are too inaccurate,
  the statistics of the current thread count and the randomised sample
  interval. Every method of the class is proved against its specification.
  The class invariant `Valid` says the rings hold the most recent entries of
  the ghost histories of accepted samples.
- **The Goertzel wave extractor** (`Goertzel`, and `ComputeWaveComponent`,
  a loop proved against it). It computes the complex Fourier coefficient of
  a window of the ring at a given period.
- **The frequency analysis** (`WaveAnalysis`). From the window it derives
  the throughput/thread-count ratio, the noise estimate of the two
  neighbouring Fourier bands, the smoothed noise average, the confidence
  and the state transition.
- **The control law** (`ControlLaw`). This covers the accuracy gate, the
  window size, the move (clamp, confidence, non-linear gain, CPU guard),
  the injected square wave and its magnitude, the clamps on the control
  setting and the thread count, and the sample-interval back-off.
- **The complex-number value** (`ComplexNumbers`) and **the options record
  and its builder** (`HillClimbingOptions`).

Java doubles are modelled as exact `real`s. `Math.cos`, `Math.sin`,
`Math.pow` and `Math.sqrt` are oracles held in `JavaMath.Numerics`. Where a
proof needs a law about them, the law is stated as a predicate: `sqrt` gives
the non-negative root, and `pow` maps [0, 1] into [0, 1] for positive
exponents. `Random.nextInt` is an oracle `nextInt(k, n)` that gives the k-th
draw with bound n. The controller counts its draws. `Runtime.availableProcessors()`
is a parameter.

The options record does not validate anything. What the controller needs
from it is the predicate `ControllerAdmits`:

- a non-empty ring;
- a wave period of at least 3 (see Findings);
- a non-negative jitter range;
- a non-zero target signal-to-noise ratio.

In these places the controller behaves differently from what its names and
comments suggest. The model follows the code in each case:

- **State transitions.** The state-transition enumeration has four values:
  Warmup, Initializing, ClimbingMove and Stabilizing.
- **Move cap.** The move is capped by maxChangePerSample from above only. A
  large negative move is not capped.
- **Square wave with an odd period.** The square wave switches every
  `wavePeriod / 2` samples in integer division. With an odd wave period it
  repeats every `wavePeriod - 1` samples, not every `wavePeriod` samples
  (`SquareWavePeriod`).
- **Start of the analysis.** The analysis runs only once two whole wave
  periods of earlier samples fit in the window (`AnalysisStartsAtTwoPeriods`).
  One period plus one sample is not enough.
- **Zero completions.** With zero completions, the accuracy test follows
  IEEE-754. The sample is held back when the thread count exceeds 1. It is
  accepted when the count is 1 (NaN fails the comparison) or below 1
  (minus infinity). So a zero-completion sample is not always rejected.
- **Ring size.** samplesToMeasure need not be a multiple of wavePeriod. The
  window size is rounded down to a multiple of the period.

## Model

| member | source | states |
|---|---|---|
| ComplexNumbers.Complex.Zero | src/main/java/org/hillclimbing/Complex.java:37-39 | both parts of zero() are 0 |
| ComplexNumbers.Complex.Real | src/main/java/org/hillclimbing/Complex.java:41-43 | real(x) is x + 0i |
| ComplexNumbers.Complex.DivideByReal | src/main/java/org/hillclimbing/Complex.java:13-15 | the scalar quotient times the divisor restores each part of the dividend |
| ComplexNumbers.QuotientByRealIsZero | src/main/java/org/hillclimbing/Complex.java:13-15 | dividing by a non-zero scalar gives zero exactly when the dividend is zero |
| ComplexNumbers.Complex.NormSquared | src/main/java/org/hillclimbing/Complex.java:18 | re² + im² is non-negative, and zero exactly for the zero number |
| ComplexNumbers.Complex.Abs | src/main/java/org/hillclimbing/Complex.java:17-19 | abs() is non-negative, and zero exactly for the zero number |
| ComplexNumbers.AbsSquared | src/main/java/org/hillclimbing/Complex.java:17-19 | abs() squared is re² + im² |
| ComplexNumbers.Complex.DivideBy | src/main/java/org/hillclimbing/Complex.java:21-26 | for a non-zero divisor, the quotient times the divisor is the dividend |
| ComplexNumbers.DivisionRoundTrip | src/main/java/org/hillclimbing/Complex.java:21-26 | the conjugate formula of divideBy inverts multiplyBy |
| ComplexNumbers.MultiplyThenDivide | src/main/java/org/hillclimbing/Complex.java:21-31 | (a * b) / b == a for every non-zero b |
| ComplexNumbers.Complex.MultiplyBy | src/main/java/org/hillclimbing/Complex.java:28-31 | a real multiplier scales the real and imaginary parts alike |
| ComplexNumbers.ProductIsZero | src/main/java/org/hillclimbing/Complex.java:21-31 | a product with a non-zero factor is zero only when the other factor is |
| ComplexNumbers.MultiplyByReal | src/main/java/org/hillclimbing/Complex.java:28-31 | multiplying by real(k) scales both parts by k |
| ComplexNumbers.NormOfProduct | src/main/java/org/hillclimbing/Complex.java:17-31 | the squared norm of a product is the product of the squared norms |
| ComplexNumbers.AbsOfProduct | src/main/java/org/hillclimbing/Complex.java:17-31 | abs(a * b) == abs(a) * abs(b) |
| ComplexNumbers.AbsOfScalarDivision | src/main/java/org/hillclimbing/Complex.java:13-19 | abs(a / d) * abs(d) == abs(a) |
| ComplexNumbers.Complex.Minus | src/main/java/org/hillclimbing/Complex.java:33-35 | minus subtracts part by part |
| ComplexNumbers.MinusIdentities | src/main/java/org/hillclimbing/Complex.java:33-39 | x - 0 == x and x - x == 0 |
| ComplexNumbers.Complex.Equals | src/main/java/org/hillclimbing/Complex.java:45-54 | equals holds exactly when both parts are equal |
| ComplexNumbers.UnitTestMagnitudes | src/test/java/org/hillclimbing/ComplexTest.java:11-13 | abs of 4, of 3 + 4i, and of 1 + i within 1e-5 of 1.41421 |
| ComplexNumbers.UnitTestRealQuotient | src/test/java/org/hillclimbing/ComplexTest.java:18 | 4 / 2 == 2 by the scalar divideBy |
| ComplexNumbers.QuotientOfReals | src/main/java/org/hillclimbing/Complex.java:21-26 | dividing real(x) by real(d) gives real(x / d) |
| ComplexNumbers.UnitTestRealValuedQuotient | src/test/java/org/hillclimbing/ComplexTest.java:19 | real(4) / real(2) == real(2) |
| ComplexNumbers.UnitTestComplexQuotient | src/test/java/org/hillclimbing/ComplexTest.java:20 | (5 + i) / (2 + 2i) == 1.5 - i |
| ComplexNumbers.UnitTestProducts | src/test/java/org/hillclimbing/ComplexTest.java:25-26 | (1 + i) * 2 == 2 + 2i and (1 + 2i)(3 + 4i) == -5 + 10i |
| ComplexNumbers.UnitTestDifferences | src/test/java/org/hillclimbing/ComplexTest.java:31-32 | 5 - 3 == 2 and (7 + 7i) - (5 + 4i) == 2 + 3i |
| HillClimbingOptions.DefaultOptions | src/main/java/org/hillclimbing/HillClimbingOptions.java:8-23 | the ring holds 8 wave periods, the minimum is the processor count, min <= max exactly when there are at most 200 processors, and the defaults meet ControllerAdmits |
| HillClimbingOptions.DefaultValues | src/main/java/org/hillclimbing/HillClimbingOptions.java:8-23 | every default field value as a literal |
| HillClimbingOptions.Builder.constructor | src/main/java/org/hillclimbing/HillClimbingOptions.java:8-26 | a new builder describes the default options |
| HillClimbingOptions.Builder.SetCpuUtilizationThreshold | src/main/java/org/hillclimbing/HillClimbingOptions.java:28-31 | changes that one field and returns the same builder |
| HillClimbingOptions.Builder.SetMinThreadsCount | src/main/java/org/hillclimbing/HillClimbingOptions.java:33-36 | changes that one field and returns the same builder |
| HillClimbingOptions.Builder.SetMaxThreadsCount | src/main/java/org/hillclimbing/HillClimbingOptions.java:38-41 | changes that one field and returns the same builder |
| HillClimbingOptions.Builder.SetWavePeriod | src/main/java/org/hillclimbing/HillClimbingOptions.java:43-46 | changes the wave period only; samplesToMeasure keeps its value |
| HillClimbingOptions.Builder.SetSamplesToMeasure | src/main/java/org/hillclimbing/HillClimbingOptions.java:48-51 | changes that one field and returns the same builder |
| HillClimbingOptions.Builder.SetTargetThroughputRatio | src/main/java/org/hillclimbing/HillClimbingOptions.java:53-56 | changes that one field and returns the same builder |
| HillClimbingOptions.Builder.SetTargetSignalToNoiseRatio | src/main/java/org/hillclimbing/HillClimbingOptions.java:58-61 | changes that one field and returns the same builder |
| HillClimbingOptions.Builder.SetMaxChangePerSecond | src/main/java/org/hillclimbing/HillClimbingOptions.java:63-66 | changes that one field and returns the same builder |
| HillClimbingOptions.Builder.SetMaxChangePerSample | src/main/java/org/hillclimbing/HillClimbingOptions.java:68-71 | changes that one field and returns the same builder |
| HillClimbingOptions.Builder.SetMaxThreadWaveMagnitude | src/main/java/org/hillclimbing/HillClimbingOptions.java:73-76 | changes that one field and returns the same builder |
| HillClimbingOptions.Builder.SetSampleIntervalLow | src/main/java/org/hillclimbing/HillClimbingOptions.java:78-81 | changes that one field and returns the same builder |
| HillClimbingOptions.Builder.SetSampleIntervalHigh | src/main/java/org/hillclimbing/HillClimbingOptions.java:83-86 | changes that one field and returns the same builder |
| HillClimbingOptions.Builder.SetThreadMagnitudeMultiplier | src/main/java/org/hillclimbing/HillClimbingOptions.java:88-91 | changes that one field and returns the same builder |
| HillClimbingOptions.Builder.SetThroughputErrorSmoothingFactor | src/main/java/org/hillclimbing/HillClimbingOptions.java:93-96 | changes that one field and returns the same builder |
| HillClimbingOptions.Builder.SetGainExponent | src/main/java/org/hillclimbing/HillClimbingOptions.java:98-101 | changes that one field and returns the same builder |
| HillClimbingOptions.Builder.SetMaxSampleError | src/main/java/org/hillclimbing/HillClimbingOptions.java:103-106 | changes that one field and returns the same builder |
| HillClimbingOptions.Builder.BuildRecord | src/main/java/org/hillclimbing/HillClimbingOptions.java:108-113 | build() copies the builder's current fields into a record |
| HillClimbingOptions.DefaultOptionsRecord | src/main/java/org/hillclimbing/HillClimbingOptions.java:5 | DEFAULT_OPTIONS is the default record: wave period 4, ring of 32, at most 200 threads |
| HillClimbingOptions.WithWavePeriod | src/main/java/org/hillclimbing/HillClimbingOptions.java:11-12 | builder().setWavePeriod(p).build() keeps a ring of 32 samples whatever p is |
| SampleRing.SumScales | src/main/java/org/hillclimbing/HillClimbing.java:139-146 | the sum of a scaled window is the scaled sum |
| SampleRing.SumNonNegative | src/main/java/org/hillclimbing/HillClimbing.java:139-146 | a sum of non-negative samples is non-negative |
| SampleRing.Slot | src/main/java/org/hillclimbing/HillClimbing.java:142-143 | the ring index (total - count + i) mod capacity is within the ring |
| SampleRing.Window | src/main/java/org/hillclimbing/HillClimbing.java:284-285 | the window has count entries, entry i is read from slot i of the ring, and a window no longer than the ring reads each slot once |
| SampleRing.EmptyRingHolds | src/main/java/org/hillclimbing/HillClimbing.java:46-47 | a new ring holds the empty history |
| SampleRing.RingAppend | src/main/java/org/hillclimbing/HillClimbing.java:118-121 | writing slot total mod capacity keeps the ring holding the extended history |
| SampleRing.WindowIsRecentHistory | src/main/java/org/hillclimbing/HillClimbing.java:142-143 | the window read from a ring is exactly the last count entries of its history |
| SampleRing.WindowSlotsDistinct | src/main/java/org/hillclimbing/HillClimbing.java:142-143 | a window of at most capacity entries reads distinct slots |
| Goertzel.RecurrenceScales | src/main/java/org/hillclimbing/HillClimbing.java:284-290 | the recurrence is linear: scaled samples give scaled q1 and q2 |
| Goertzel.RecurrenceOfSilence | src/main/java/org/hillclimbing/HillClimbing.java:276-290 | over all-zero samples the recurrence stays at q1 = q2 = 0 |
| Goertzel.WaveComponent | src/main/java/org/hillclimbing/HillClimbing.java:270-293 | an all-zero window has the zero wave component at every period |
| Goertzel.Coefficient | src/main/java/org/hillclimbing/HillClimbing.java:276-292 | the coefficient of an all-zero window is zero |
| Goertzel.Finish | src/main/java/org/hillclimbing/HillClimbing.java:292 | the recurrence's starting state gives the zero coefficient |
| Goertzel.WaveComponentScales | src/main/java/org/hillclimbing/HillClimbing.java:270-293 | scaling the window scales the wave component |
| Goertzel.CoefficientScales | src/main/java/org/hillclimbing/HillClimbing.java:276-292 | scaling the window scales the finished coefficient |
| Goertzel.FinishScales | src/main/java/org/hillclimbing/HillClimbing.java:292 | scaling q1 and q2 scales (q1 - q2 cos, q2 sin) / n |
| Goertzel.NormalisedWaveIsUnitFree | src/main/java/org/hillclimbing/HillClimbing.java:157 | a wave component divided by its average does not change when window and average scale together |
| Goertzel.AdjacentPeriod1 | src/main/java/org/hillclimbing/HillClimbing.java:151 | for a non-empty window the band above the wave's frequency has a positive period shorter than the wave period |
| Goertzel.AdjacentPeriod2 | src/main/java/org/hillclimbing/HillClimbing.java:152 | for a window longer than the wave period the band below the wave's frequency has a period longer than the wave period |
| Goertzel.AdjacentPeriodsFit | src/main/java/org/hillclimbing/HillClimbing.java:151-152 | for a wave period of at least 3 and a window of several whole periods, the two adjacent periods lie in [2, sampleCount] on either side of the wave period |
| Goertzel.NyquistViolatedAtWavePeriodTwo | src/main/java/org/hillclimbing/HillClimbing.java:151 | with wave period 2 the lower adjacent period is below 2 |
| WaveAnalysis.BandNoise | src/main/java/org/hillclimbing/HillClimbing.java:158 | a band's normalised magnitude is non-negative and zero exactly when its component is zero |
| WaveAnalysis.ErrorEstimate | src/main/java/org/hillclimbing/HillClimbing.java:151-163 | both adjacent periods fit, and the noise estimate is the larger of the two band magnitudes |
| WaveAnalysis.SmoothedNoise | src/main/java/org/hillclimbing/HillClimbing.java:171-177 | the first estimate is taken as is; later averages lie between the old average and the estimate, so they stay non-negative |
| WaveAnalysis.ConfidenceOf | src/main/java/org/hillclimbing/HillClimbing.java:193-199 | without noise the confidence is 1, and it is never negative for a positive target ratio |
| WaveAnalysis.ConfidenceIsSignalToNoise | src/main/java/org/hillclimbing/HillClimbing.java:193-196 | confidence × target × noise == signal |
| WaveAnalysis.RatioOf | src/main/java/org/hillclimbing/HillClimbing.java:179-183 | ratio × threadWave == throughputWave - target × threadWave, and the ratio is zero exactly when the throughput wave equals the target wave |
| WaveAnalysis.Assess | src/main/java/org/hillclimbing/HillClimbing.java:169-199 | the transition is a climbing move or stabilisation |
| WaveAnalysis.AssessTransition | src/main/java/org/hillclimbing/HillClimbing.java:179-189 | a climbing move happens exactly when the thread wave is non-zero, with the recentred ratio; otherwise the ratio is zero |
| WaveAnalysis.AssessConfidence | src/main/java/org/hillclimbing/HillClimbing.java:169-199 | the noise is the smoothed estimate and the confidence is computed from it |
| WaveAnalysis.AssessSigns | src/main/java/org/hillclimbing/HillClimbing.java:179-199 | a non-zero ratio only on a climbing move, zero on stabilisation, non-negative confidence |
| WaveAnalysis.AssessNoise | src/main/java/org/hillclimbing/HillClimbing.java:171-177 | a smoothing factor in [0, 1] keeps the noise average non-negative |
| WaveAnalysis.Measure | src/main/java/org/hillclimbing/HillClimbing.java:148-199 | the sign properties of the measured analysis |
| WaveAnalysis.Analyze | src/main/java/org/hillclimbing/HillClimbing.java:123-201 | below two periods the result is the warm-up default; a warm-up result is that default; the analysis never reports Initializing |
| WaveAnalysis.AnalyzeSigns | src/main/java/org/hillclimbing/HillClimbing.java:123-201 | for every window, the ratio, confidence and noise sign properties hold |
| WaveAnalysis.MeasureIsUnitFree | src/main/java/org/hillclimbing/HillClimbing.java:151-199 | scaling all throughputs by k1 > 0 and all thread counts by k2 > 0 gives the same analysis |
| WaveAnalysis.AverageScales | src/main/java/org/hillclimbing/HillClimbing.java:139-146 | scaling every sample by k scales the window average by k |
| WaveAnalysis.ErrorEstimateIsUnitFree | src/main/java/org/hillclimbing/HillClimbing.java:158-163 | the noise estimate does not change when window and average scale together |
| ControlLaw.TooInaccurate | src/main/java/org/hillclimbing/HillClimbing.java:102 | without completions the sample is held back exactly when there is more than one thread; with completions exactly when threadCount - 1 >= maxSampleError × completions |
| ControlLaw.GateAtDefaults | src/main/java/org/hillclimbing/HillClimbing.java:102 | at the default error 0.15 with 10 threads, 60 completions are held back and 61 pass; a zero count is held back for 10 threads but not for 1 |
| ControlLaw.SampleCount | src/main/java/org/hillclimbing/HillClimbing.java:135 | the window is the largest multiple of the wave period within both the earlier samples and the ring |
| ControlLaw.AnalysisStartsAtTwoPeriods | src/main/java/org/hillclimbing/HillClimbing.java:135-137 | the analysis runs exactly when two whole periods of earlier samples fit in the ring |
| ControlLaw.SteadyStateWindow | src/main/java/org/hillclimbing/HillClimbing.java:135 | once the ring is full, a ring of whole periods is analysed in full |
| ControlLaw.PreGainMove | src/main/java/org/hillclimbing/HillClimbing.java:209-212 | the move lies in [-1, 1], is no larger than the ratio, keeps its sign, is zero without confidence and equals the ratio at full confidence |
| ControlLaw.GainedMove | src/main/java/org/hillclimbing/HillClimbing.java:217-219 | the move never exceeds maxChangePerSample |
| ControlLaw.GainedMoveBounds | src/main/java/org/hillclimbing/HillClimbing.java:217-219 | the gained move stays within ±maxChangePerSecond × duration, keeps its direction, and is zero for a zero move |
| ControlLaw.SignedGain | src/main/java/org/hillclimbing/HillClimbing.java:218 | no magnitude gives no move; a fraction in [0, 1] of a non-negative gain, signed, stays within the gain in the given direction |
| ControlLaw.CpuGuard | src/main/java/org/hillclimbing/HillClimbing.java:222-224 | with the 0 % utilisation stub the guard acts only for a negative threshold, and then it cancels positive moves |
| ControlLaw.CurrentCpuUtilization | src/main/java/org/hillclimbing/HillClimbing.java:266-268 | the stubbed utilisation is a valid percentage |
| ControlLaw.WaveDrive | src/main/java/org/hillclimbing/HillClimbing.java:231-232 | without noise there is no drive, and with non-negative factors it is never negative |
| ControlLaw.WaveMagnitude | src/main/java/org/hillclimbing/HillClimbing.java:231-234 | the magnitude is at least 1 and at most maxThreadWaveMagnitude |
| ControlLaw.WaveMagnitudeRounds | src/main/java/org/hillclimbing/HillClimbing.java:231-234 | strictly inside the limits the magnitude is the drive rounded half-up |
| ControlLaw.InitialWaveIsSmall | src/main/java/org/hillclimbing/HillClimbing.java:229-234 | with the initial noise average 0 the wave magnitude is 1 |
| ControlLaw.ClampSetting | src/main/java/org/hillclimbing/HillClimbing.java:237-238 | the setting is at least the minimum, at most max - magnitude when the limits allow, and unchanged when already in range |
| ControlLaw.SquareWave | src/main/java/org/hillclimbing/HillClimbing.java:241 | the square wave is 0 or 1 |
| ControlLaw.SquareWaveFlips | src/main/java/org/hillclimbing/HillClimbing.java:241 | half a wave later the square wave has flipped |
| ControlLaw.SquareWavePeriod | src/main/java/org/hillclimbing/HillClimbing.java:241 | the square wave repeats every 2 × (wavePeriod / 2) samples |
| ControlLaw.Clamp | src/main/java/org/hillclimbing/HillClimbing.java:244-245 | the clamp keeps the value within the limits, the minimum wins, and a value in range is unchanged |
| ControlLaw.NextThreadCount | src/main/java/org/hillclimbing/HillClimbing.java:241-245 | the new thread count lies within the pool's limits |
| ControlLaw.WaveTerm | src/main/java/org/hillclimbing/HillClimbing.java:241 | magnitude × wave is the magnitude when the wave is high and 0 otherwise |
| ControlLaw.NextThreadCountExact | src/main/java/org/hillclimbing/HillClimbing.java:241-245 | within the limits the thread count is the truncated setting plus the wave term |
| ControlLaw.WaveAddsMagnitude | src/main/java/org/hillclimbing/HillClimbing.java:241 | for a non-negative setting the wave adds exactly its magnitude to the truncated count |
| ControlLaw.NextSampleInterval | src/main/java/org/hillclimbing/HillClimbing.java:256-261 | the interval is unchanged unless the ratio is negative at the minimum, where it grows at least tenfold (exactly tenfold for a ratio in [-1, 0)) |
| ControlLaw.NextStep | src/main/java/org/hillclimbing/HillClimbing.java:209-245 | the move is within the cap, the magnitude within [1, max], the setting at least the minimum and the thread count within the limits |
| ControlLaw.WarmupDoesNotMove | src/main/java/org/hillclimbing/HillClimbing.java:209-227 | with the warm-up ratio and confidence the control setting does not move |
| Controller.DriftedSetting | src/main/java/org/hillclimbing/HillClimbing.java:53-58 | a thread count changed out of band moves the setting by the same amount |
| Controller.AnalysisOfRecentHistory | src/main/java/org/hillclimbing/HillClimbing.java:137-201 | analysing the ring window is analysing the last count accepted samples |
| Controller.HillClimbing.constructor | src/main/java/org/hillclimbing/HillClimbing.java:36-50 | all state zero, two empty rings of samplesToMeasure slots, and the first interval drawn from [low, low + high] |
| Controller.HillClimbing.ForceChange | src/main/java/org/hillclimbing/HillClimbing.java:53-58 | the same count changes nothing; a different one moves the setting by the difference and records a change |
| Controller.HillClimbing.ChangeThreadsCount | src/main/java/org/hillclimbing/HillClimbing.java:60-68 | records the count, draws a new interval and restarts the statistics; nothing else changes |
| Controller.HillClimbing.Reconcile | src/main/java/org/hillclimbing/HillClimbing.java:72-78 | out-of-band changes are forced through, then the sample is counted |
| Controller.HillClimbing.HoldBack | src/main/java/org/hillclimbing/HillClimbing.java:102-109 | the inaccurate sample's duration and completions are carried over and the next interval is 10; the rings, histories, setting and count are unchanged |
| Controller.HillClimbing.Update | src/main/java/org/hillclimbing/HillClimbing.java:70-264 | an inaccurate sample is carried over with interval 10 and the count kept; an accepted one enters the rings and the history, and the setting, the count and the interval follow the analysis of the window |
| Controller.HillClimbing.Accept | src/main/java/org/hillclimbing/HillClimbing.java:111-263 | the accumulators are cleared, throughput = completions / duration enters the rings, and the controller adjusts to the window's analysis |
| Controller.HillClimbing.Adjust | src/main/java/org/hillclimbing/HillClimbing.java:123-263 | the window's analysis is Analyze of the window, and the new state follows NextStep of it |
| Controller.HillClimbing.Move | src/main/java/org/hillclimbing/HillClimbing.java:171-263 | the noise, setting, count and interval are NextStep and NextSampleInterval of the analysis; a change is recorded only when the count differs |
| Controller.HillClimbing.AddSample | src/main/java/org/hillclimbing/HillClimbing.java:118-121 | exactly slot total mod capacity of each ring receives the sample, and the histories grow by it |
| Controller.HillClimbing.ComputeWaveComponent | src/main/java/org/hillclimbing/HillClimbing.java:270-293 | the loop computes WaveComponent of the window, oldest first |
| Controller.HillClimbing.AverageWindows | src/main/java/org/hillclimbing/HillClimbing.java:139-146 | the two loops compute the means of the two windows |
| Controller.HillClimbing.AnalyzeWindow | src/main/java/org/hillclimbing/HillClimbing.java:123-201 | the result is Analyze of the two windows and the noise average |
| Controller.HillClimbing.MeasureWindow | src/main/java/org/hillclimbing/HillClimbing.java:151-199 | the result is Measure of the two windows |

## Left out

- Floating point: doubles are exact reals. Rounding, NaN and the
  infinities are not modelled. The one exception is the accuracy gate at
  zero completions, where the IEEE outcome is written out in
  `TooInaccurate`.
- `Math.cos`, `Math.sin`, `Math.pow` and `Math.sqrt` are oracles. Only the
  laws stated in `JavaMath` are assumed of them. The constant PI is kept
  as the literal of the source.
- Goertzel.WaveComponent: its spectral meaning is not modelled. A sampled
  cosine of the right period gives half its amplitude, and a mismatched
  period gives near zero. Both rest on trigonometric identities that the
  oracle model does not have. The model proves linearity, unit-freedom and
  the zero case instead.
- `Random.nextInt` is an oracle indexed by the draw number. Its
  distribution is not modelled.
- `currentCpuUtilization()` is the source's constant 0. No CPU sampling
  exists to be modelled.
- Integer widths: `int` and `long` are unbounded. Overflow of totalSamples,
  of the counters and of the stretched interval is not modelled.
- ComplexNumbers.Complex.Equals: real equality replaces `Double.compare`,
  which tells -0.0 from 0.0 and equates NaNs. Doubles are reals here.
- `hashCode` and `toString` of Complex are not modelled. They carry no
  behaviour of the controller.
- The transition passed to `changeThreadsCount` only feeds an event report
  that is commented out in the source. It is accepted and ignored.
- ComplexNumbers.Complex.DivideBy requires a non-zero divisor. The source
  would produce NaN parts. The controller only divides by a thread wave of
  non-zero magnitude.
- Controller.HillClimbing.Update requires sampleDuration > 0. A zero
  duration would make the throughput a NaN or an infinity.
- The builder's `samplesToMeasure` initialiser is evaluated once, from the
  initial wave period (`WithWavePeriod`). `availableProcessors` is a
  parameter of the builder's constructor.
- Controller.HillClimbing.Update: the analysis is stated over the ring
  windows. `AnalysisOfRecentHistory` relates those windows to the ghost
  history of accepted samples.
- ControlLaw.NextThreadCount takes the square wave as a boolean.
  `WaveTerm` shows that this equals the source's multiplication by the 0/1
  wave.
- ControlLaw.GainedMove states only the upper cap in its own contract. The
  bounds in terms of the gain need a lawful `pow`, so they are in
  `GainedMoveBounds`.
- WaveAnalysis.Analyze: its independence of units is stated in two halves.
  `AverageScales` shows that the window averages scale with the samples, and
  `MeasureIsUnitFree` shows that the measurement is unchanged when windows
  and averages scale together. The composition through `Analyze` is not a
  lemma of its own.
- Demonstration programs, the benchmark harness and the test runner around
  the controller are not part of this model.

## Findings

| source | as written | input that shows it | evidently intended | confidence | as-written member | corrected member |
|---|---|---|---|---|---|---|
| src/main/java/org/hillclimbing/HillClimbing.java:151,271-272 | nothing stops wavePeriod = 2, and then adjacentPeriod1 = sampleCount / (sampleCount/2 + 1) = 2k/(k+1) is below 2. That breaks the `period >= 2` assertion of computeWaveComponent. | wavePeriod 2 with sampleCount 4 gives adjacentPeriod1 = 4/3 | the band above the wave's frequency (adjacentPeriod1, shorter than the wave period) must be measurable, so a wave period of at least 3 is needed | not executed | Goertzel.NyquistViolatedAtWavePeriodTwo | Goertzel.AdjacentPeriodsFit (with HillClimbingOptions.ControllerAdmits requiring wavePeriod >= 3) |

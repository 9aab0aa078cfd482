/**
 * The controller's sample history: a ring of samplesToMeasure slots written
 * at totalSamples % samplesToMeasure, and the window of the most recent
 * sampleCount samples that the frequency analysis reads back from it.
 */
module SampleRing {

  /** The sum of a sequence, accumulated oldest to newest as the averaging loop does. */
  function Sum(xs: seq<real>): real
  {
    if xs == [] then 0.0 else Sum(xs[..|xs| - 1]) + xs[|xs| - 1]
  }

  /** Every element multiplied by k. */
  function Scale(xs: seq<real>, k: real): (ys: seq<real>)
    ensures |ys| == |xs|
    ensures forall i :: 0 <= i < |xs| ==> ys[i] == k * xs[i]
  {
    seq(|xs|, i requires 0 <= i < |xs| => k * xs[i])
  }

  /** A sum of non-negative samples is non-negative. */
  lemma {:induction false} SumNonNegative(xs: seq<real>)
    requires forall i :: 0 <= i < |xs| ==> xs[i] >= 0.0
    ensures Sum(xs) >= 0.0
  {
    if xs != [] {
      SumNonNegative(xs[..|xs| - 1]);
    }
  }

  /** Scaling every element scales the sum. */
  lemma {:induction false} SumScales(xs: seq<real>, k: real)
    ensures Sum(Scale(xs, k)) == k * Sum(xs)
  {
    if xs != [] {
      var n := |xs|;
      var front, scaledFront := Scale(xs, k)[..n - 1], Scale(xs[..n - 1], k);
      forall i | 0 <= i < n - 1 ensures front[i] == scaledFront[i] {
        assert front[i] == k * xs[i];
      }
      assert front == scaledFront;
      SumScales(xs[..n - 1], k);
    }
  }

  /**
   * The slot that holds the sample with sequence number `total - count + i`:
   * the i-th oldest of the last `count` samples, counted from the ring's
   * write position `total`.
   */
  function Slot(total: int, count: int, i: int, capacity: int): (k: int)
    requires capacity > 0
    ensures 0 <= k < capacity
  {
    (total - count + i) % capacity
  }

  /**
   * The last `count` samples, read from the ring oldest first. A window no
   * longer than the ring reads every slot at most once, so no sample is
   * counted twice.
   */
  function Window(ring: seq<real>, total: int, count: int): (w: seq<real>)
    requires |ring| > 0 && 0 <= count <= total
    ensures |w| == count
    ensures forall i :: 0 <= i < count ==> w[i] == ring[Slot(total, count, i, |ring|)]
    ensures count <= |ring| ==>
      forall i, j :: 0 <= i < j < count ==> Slot(total, count, i, |ring|) != Slot(total, count, j, |ring|)
  {
    WindowSlotsDistinct(total, count, |ring|);
    seq(count, i requires 0 <= i < count => ring[Slot(total, count, i, |ring|)])
  }

  /**
   * The ring invariant: every slot holds the most recent sample whose
   * sequence number is congruent to it, i.e. the last |ring| entries of the
   * full history `history` (sample j lives in slot j % |ring|).
   */
  ghost predicate RingHolds(ring: seq<real>, history: seq<real>)
  {
    && |ring| > 0
    && forall j :: 0 <= j < |history| && |history| - |ring| <= j ==> ring[j % |ring|] == history[j]
  }

  /** Two sequence numbers less than a ring's length apart use different slots. */
  lemma DistinctSlots(i: int, j: int, capacity: int)
    requires capacity > 0 && 0 <= i < j < i + capacity
    ensures i % capacity != j % capacity
  {
    var qi, ri := i / capacity, i % capacity;
    var qj, rj := j / capacity, j % capacity;
    assert i == qi * capacity + ri;
    assert j == qj * capacity + rj;
    if ri == rj {
      var d := qj - qi;
      assert j - i == d * capacity;
      ProductBounds(d, capacity);
    }
  }

  /** A multiple of a positive number is non-positive or at least that number. */
  lemma ProductBounds(d: int, c: int)
    requires c > 0
    ensures d <= 0 ==> d * c <= 0
    ensures d >= 1 ==> d * c >= c
  {
    if d >= 1 {
      assert d * c == (d - 1) * c + c;
      assert (d - 1) * c >= 0;
    }
  }

  /** The empty history is held by any ring. */
  lemma EmptyRingHolds(ring: seq<real>)
    requires |ring| > 0
    ensures RingHolds(ring, [])
  {
  }

  /**
   * Appending a sample: writing it to slot |history| % |ring| keeps the
   * invariant for the longer history (the overwritten slot held a sample
   * that is now more than |ring| samples old).
   */
  lemma {:induction false} RingAppend(ring: seq<real>, history: seq<real>, x: real)
    requires RingHolds(ring, history)
    ensures RingHolds(ring[|history| % |ring| := x], history + [x])
  {
    var n, cap := |history|, |ring|;
    var ring', history' := ring[n % cap := x], history + [x];
    forall j | 0 <= j < |history'| && |history'| - cap <= j
      ensures ring'[j % cap] == history'[j]
    {
      if j < n {
        DistinctSlots(j, n, cap);
        assert ring'[j % cap] == ring[j % cap] == history[j];
      }
    }
  }

  /**
   * The window read from a ring that holds `history` is exactly the last
   * `count` samples of the history, oldest first, as long as the window is
   * no longer than the ring.
   */
  lemma {:induction false} WindowIsRecentHistory(ring: seq<real>, history: seq<real>, count: int)
    requires RingHolds(ring, history)
    requires 0 <= count <= |ring| && count <= |history|
    ensures Window(ring, |history|, count) == history[|history| - count..]
  {
    var n := |history|;
    var w := Window(ring, n, count);
    forall i | 0 <= i < count
      ensures w[i] == history[n - count + i]
    {
      assert w[i] == ring[(n - count + i) % |ring|];
    }
  }

  /** A window no longer than the ring reads each slot at most once. */
  lemma WindowSlotsDistinct(total: int, count: int, capacity: int)
    requires capacity > 0 && 0 <= count <= total
    ensures count <= capacity ==>
      forall i, j :: 0 <= i < j < count ==> Slot(total, count, i, capacity) != Slot(total, count, j, capacity)
  {
    if count <= capacity {
      forall i, j | 0 <= i < j < count
        ensures Slot(total, count, i, capacity) != Slot(total, count, j, capacity)
      {
        DistinctSlots(total - count + i, total - count + j, capacity);
      }
    }
  }
}

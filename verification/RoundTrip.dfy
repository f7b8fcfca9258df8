/**
  The round-trip estimator of keep_track.c: three process-wide integers that `infer_RTT`
  overwrites each time the node carrying the acknowledged number leaves a sent queue.

  The smoothing coefficients 0.85 and 0.25 are taken as exact rationals, and the conversion
  back to `int` truncates toward zero as in C.
 */
module RoundTrip {
  import opened Wrappers

  datatype Estimator = Estimator(rtt: int, deviation: int, rto: int)

  /** The values that `init_tracker` installs (microseconds). */
  const INITIAL := Estimator(800 * 1000, 200 * 1000, 1600 * 1000)

  /** C's conversion of the quotient `a / b` to an integer. */
  function Truncate(a: int, b: int): int
    requires b > 0
  {
    if a >= 0 then a / b else -(-a / b)
  }

  /** Truncation treats both signs alike. */
  lemma TruncateIsOdd(a: int, b: int)
    requires b > 0
    ensures Truncate(-a, b) == -Truncate(a, b)
  {
  }

  function Distance(a: int, b: int): nat
  {
    if a >= b then a - b else b - a
  }

  function Infer(e: Estimator, sample: int): Estimator
  {
    var rtt := Truncate(85 * e.rtt + 15 * sample, 100);
    var deviation := Truncate(e.deviation + 3 * Distance(sample, e.rtt), 4);
    Estimator(rtt, deviation, rtt + 4 * deviation)
  }

  function InferAll(e: Estimator, samples: seq<int>): Estimator
    decreases |samples|
  {
    if samples == [] then e else InferAll(Infer(e, samples[0]), samples[1..])
  }

  /** The globals `RTT`, `deviation` and `RTO`. */
  class Globals {
    var rtt: int
    var deviation: int
    var rto: int

    function Value(): Estimator
      reads this
    {
      Estimator(rtt, deviation, rto)
    }

    constructor ()
      ensures Value() == INITIAL
    {
      rtt, deviation, rto := 800 * 1000, 200 * 1000, 1600 * 1000;
    }

    method InferRTT(timestamp: int, now: int)
      modifies this
      ensures Value() == Infer(old(Value()), now - timestamp)
    {
      var newRTT := now - timestamp;
      var newDev := newRTT - rtt;
      newDev := if newDev >= 0 then newDev else -newDev;
      rtt := Truncate(85 * rtt + 15 * newRTT, 100);
      deviation := Truncate(deviation + 3 * newDev, 4);
      rto := rtt + 4 * deviation;
    }
  }

  // ---------------------------------------------------------------- bounds

  ghost predicate Consistent(e: Estimator)
  {
    e.rto == e.rtt + 4 * e.deviation
  }

  /** What every estimator of a process satisfies, as samples are never negative. */
  ghost predicate Sound(e: Estimator)
  {
    0 <= e.rtt && 0 <= e.deviation && Consistent(e)
  }

  lemma InferKeepsSound(e: Estimator, sample: int)
    requires Sound(e) && 0 <= sample
    ensures Sound(Infer(e, sample))
    ensures 7 <= sample ==> 1 <= Infer(e, sample).rto
  {
  }

  /** A sample that is long enough takes the timeout beyond it by any margin. */
  lemma LongSample(e: Estimator, sample: int, margin: int)
    requires Sound(e) && e.rtt <= sample && margin + 3 * e.rtt + 6 <= 2 * sample
    ensures sample + margin <= Infer(e, sample).rto
  {
  }

  lemma ZeroTimeout(e: Estimator, sample: int)
    requires Sound(e) && 0 <= sample
    ensures Infer(e, sample).rto == 0 <==>
            85 * e.rtt + 15 * sample < 100 && e.deviation + 3 * Distance(sample, e.rtt) < 4
  {
    InferKeepsSound(e, sample);
    var r := Infer(e, sample);
    assert r.rto == 0 <==> r.rtt == 0 && r.deviation == 0;
  }

  /** If a sample leaves a timeout of zero, so does every shorter one. */
  lemma QuickerIsZeroToo(e: Estimator, sample: int, shorter: int)
    requires Sound(e) && 0 <= shorter <= sample && Infer(e, sample).rto == 0
    ensures Infer(e, shorter).rto == 0
  {
    hide Infer;
    ZeroTimeout(e, sample);
    ZeroTimeout(e, shorter);
  }

  lemma InferWithin(e: Estimator, sample: int, lo: int, hi: int, spread: int)
    requires 0 <= lo <= e.rtt <= hi && lo <= sample <= hi
    requires 0 <= e.deviation <= spread && hi - lo <= spread
    ensures var r := Infer(e, sample);
            lo <= r.rtt <= hi && 0 <= r.deviation <= spread && Consistent(r)
  {
  }

  /** As long as every sample lies in an interval that held the first estimate, so do the later
      estimates; the timeout stays between the interval's floor and its ceiling plus four times
      the larger of the first deviation and the interval's width. */
  lemma {:induction false} SamplesBoundTimeout(e: Estimator, samples: seq<int>, lo: int, hi: int)
    requires 0 <= lo <= e.rtt <= hi && 0 <= e.deviation && Consistent(e)
    requires forall i :: 0 <= i < |samples| ==> lo <= samples[i] <= hi
    ensures var r := InferAll(e, samples);
            && lo <= r.rtt <= hi
            && lo <= r.rto <= hi + 4 * Max(e.deviation, hi - lo)
  {
    SamplesBoundAll(e, samples, lo, hi, Max(e.deviation, hi - lo));
  }

  lemma {:induction false} SamplesBoundAll(e: Estimator, samples: seq<int>, lo: int, hi: int, spread: int)
    requires 0 <= lo <= e.rtt <= hi && 0 <= e.deviation <= spread && hi - lo <= spread && Consistent(e)
    requires forall i :: 0 <= i < |samples| ==> lo <= samples[i] <= hi
    ensures var r := InferAll(e, samples);
            lo <= r.rtt <= hi && 0 <= r.deviation <= spread && Consistent(r)
    decreases |samples|
  {
    if samples != [] {
      InferWithin(e, samples[0], lo, hi, spread);
      SamplesBoundAll(Infer(e, samples[0]), samples[1..], lo, hi, spread);
    }
  }

  // ----------------------------------------------------- a constant sample

  function InferRepeated(e: Estimator, sample: int, n: nat): Estimator
  {
    if n == 0 then e else Infer(InferRepeated(e, sample, n - 1), sample)
  }

  ghost predicate RttSettled(e: Estimator, sample: int)
  {
    sample - 6 <= e.rtt <= sample
  }

  ghost predicate Settled(e: Estimator, sample: int)
  {
    RttSettled(e, sample) && 0 <= e.deviation <= 6
  }

  ghost function Remaining(e: Estimator, sample: int): nat
    requires 0 <= e.deviation
  {
    (if RttSettled(e, sample) then 0 else Distance(e.rtt, sample)) + Max(e.deviation, Distance(e.rtt, sample))
  }

  lemma InferApproaches(e: Estimator, sample: int)
    requires 0 <= sample && 0 <= e.rtt && 0 <= e.deviation
    ensures var r := Infer(e, sample);
            && 0 <= r.rtt && 0 <= r.deviation && Consistent(r)
            && (Settled(e, sample) ==> Settled(r, sample))
            && (!Settled(e, sample) ==> Settled(r, sample) || Remaining(r, sample) < Remaining(e, sample))
  {
    var r := Infer(e, sample);
    var d := Distance(e.rtt, sample);
    assert r.deviation == (e.deviation + 3 * d) / 4;
    if e.rtt > sample {
      assert r.rtt == sample + 85 * d / 100;
    } else {
      assert r.rtt == (100 * sample - 85 * d) / 100;
    }
  }

  /** Each further sample either finds the estimator settled or uses up some of what remained. */
  lemma {:induction false} RepeatedApproaches(e: Estimator, sample: int, n: nat)
    requires 0 <= sample && 0 <= e.rtt && 0 <= e.deviation && Consistent(e)
    ensures var r := InferRepeated(e, sample, n);
            && 0 <= r.rtt && 0 <= r.deviation && Consistent(r)
            && (Settled(r, sample) || Remaining(r, sample) + n <= Remaining(e, sample))
  {
    if n > 0 {
      RepeatedApproaches(e, sample, n - 1);
      InferApproaches(InferRepeated(e, sample, n - 1), sample);
    }
  }

  /** A constant sample draws the estimate into the six units below it and the timeout into
      [sample - 6, sample + 24], after a number of samples that can be computed beforehand, and
      both stay there. Truncation is why the band lies below the sample. */
  lemma ConstantSampleSettles(e: Estimator, sample: int, n: nat)
    requires 0 <= sample && 0 <= e.rtt && 0 <= e.deviation && Consistent(e)
    requires n >= Distance(e.rtt, sample) + Max(e.deviation, Distance(e.rtt, sample))
    ensures var r := InferRepeated(e, sample, n);
            sample - 6 <= r.rtt <= sample && sample - 6 <= r.rto <= sample + 24
  {
    RepeatedApproaches(e, sample, n);
  }

  /** The band cannot be narrowed: an estimate six below the sample never moves again. */
  lemma {:induction false} BandIsTight(sample: int, n: nat)
    requires 6 <= sample
    ensures var e := Estimator(sample - 6, 6, sample + 18);
            InferRepeated(e, sample, n) == e
  {
    if n > 0 {
      BandIsTight(sample, n - 1);
    }
  }
}

/**
 * An exponential moving average (SongDetection/ExponentialMovingAverage.swift).
 * The smoothing factor `k`, which the source computes as `exp(-2 * pi / tau)`,
 * is taken as a given real number.
 */
module ExponentialMovingAverage {

  /** The smoothed value after `val` arrives on top of `last`. */
  function Blend(k: real, val: real, last: real): real
  {
    (1.0 - k) * val + k * last
  }

  /** A weight in [0, 1] puts the smoothed value between the new and the old one. */
  lemma BlendBetween(k: real, val: real, last: real)
    requires 0.0 <= k <= 1.0
    ensures val <= last ==> val <= Blend(k, val, last) <= last
    ensures last <= val ==> last <= Blend(k, val, last) <= val
  {
    assert Blend(k, val, last) - val == k * (last - val);
    assert last - Blend(k, val, last) == (1.0 - k) * (last - val);
    if val <= last {
      MulNonNegative(k, last - val);
      MulNonNegative(1.0 - k, last - val);
    } else {
      MulNonNegative(k, val - last);
      MulNonNegative(1.0 - k, val - last);
    }
  }

  lemma MulNonNegative(a: real, b: real)
    requires 0.0 <= a && 0.0 <= b
    ensures 0.0 <= a * b
  {
  }

  /** `k` to the power `n`. */
  function Power(k: real, n: nat): real
  {
    if n == 0 then 1.0 else k * Power(k, n - 1)
  }

  /** The value after smoothing in each of `vals` in turn. */
  function Smooth(k: real, last: real, vals: seq<real>): real
    decreases |vals|
  {
    if vals == [] then last else Smooth(k, Blend(k, vals[0], last), vals[1..])
  }

  /** A steady input `v` is approached geometrically: the distance shrinks by `k` on every sample. */
  lemma {:induction false} SteadyInputConverges(k: real, last: real, v: real, n: nat)
    ensures Smooth(k, last, seq(n, _ => v)) - v == Power(k, n) * (last - v)
    decreases n
  {
    if n > 0 {
      assert seq(n, _ => v)[1..] == seq(n - 1, _ => v);
      SteadyInputConverges(k, Blend(k, v, last), v, n - 1);
      assert Blend(k, v, last) - v == k * (last - v);
      calc {
        Power(k, n - 1) * (Blend(k, v, last) - v);
        Power(k, n - 1) * (k * (last - v));
        (k * Power(k, n - 1)) * (last - v);
      }
    }
  }

  /** `ExponentialMovingAverage`. */
  class ExponentialMovingAverage {
    const k: real
    var last: real
    var count: int

    /** `init(tau:initial:)`, with `k` already computed from `tau`; the initial value defaults to 0.0. */
    constructor(k: real, initial: real := 0.0)
      ensures this.k == k && last == initial && count == 0
    {
      this.k := k;
      last := initial;
      count := 0;
    }

    /** `lastValue`. */
    function LastValue(): real
      reads this
    {
      last
    }

    /**
     * `ingest(val)`: the first sample is taken as it is, every later one is
     * blended in; the returned value is `lastValue` after the call.
     */
    method Ingest(val: real) returns (r: real)
      modifies this
      ensures count == old(count) + 1
      ensures last == if count == 1 then val else Blend(k, val, old(last))
      ensures r == LastValue()
    {
      count := count + 1;
      if 1 == count {
        last := val;
        return val;
      } else {
        last := ((1.0 - k) * val) + (k * last);
        return last;
      }
    }
  }

  /** An average made without an initial value reads 0.0 until its first sample, which it then takes as it is. */
  method DefaultStartsAtZero(k: real, val: real) returns (initial: real, r: real)
    ensures initial == 0.0 && r == val
  {
    var e := new ExponentialMovingAverage(k);
    initial := e.LastValue();
    r := e.Ingest(val);
  }
}

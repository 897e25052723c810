/**
 * Wilder smoothing as the indicators write it: a column starts as
 * `rolling(window=p, min_periods=p).mean()`, and a loop then overwrites
 * every row after a seed row with `(avg[i-1]·(p-1) + x[i]) / p`.
 * RSI, ATR, MFI and the ±DM/TR averages of ADX use seed row p (their loop
 * runs over `range(p, n)` and skips `i == p`); ADX's own average uses seed
 * row 2p-1. Also the oscillator `100 - 100/(1 + up/down)` shared by RSI
 * and MFI.
 */
module Smoothing {
  import opened Common
  import opened Series

  /**
   * One step `(prev·(p-1) + v) / p`; NaN in, NaN out. With p == 0 every
   * rolling mean is already NaN, so no value ever reaches this step.
   */
  function WilderStep(prev: Option<real>, v: Option<real>, p: nat): Option<real>
  {
    if p == 0 || prev.None? || v.None? then None
    else Some((prev.value * (p - 1) as real + v.value) / p as real)
  }

  /** The value row i holds once the smoothing loop has run. */
  function Wilder(x: seq<Option<real>>, p: nat, seed: nat, i: nat): Option<real>
    requires i < |x|
    decreases i
  {
    if i <= seed then RollingMeanFull(x, p, i)
    else WilderStep(Wilder(x, p, seed, i - 1), x[i], p)
  }

  /**
   * The rolling mean followed by the in-place loop over the rows after the
   * seed row.
   */
  method WilderAverage(x: seq<Option<real>>, p: nat, seed: nat) returns (avg: seq<Option<real>>)
    ensures |avg| == |x|
    ensures forall i :: 0 <= i < |x| ==> avg[i] == Wilder(x, p, seed, i)
  {
    var a := new Option<real>[|x|](i requires 0 <= i < |x| => RollingMeanFull(x, p, i));
    var i := seed + 1;
    while i < a.Length
      invariant seed + 1 <= i
      invariant forall k :: 0 <= k < a.Length && k < i ==> a[k] == Wilder(x, p, seed, k)
    {
      a[i] := WilderStep(a[i - 1], x[i], p);
      assert a[i] == Wilder(x, p, seed, i);
      i := i + 1;
    }
    avg := a[..];
  }

  /** One smoothing step keeps a value inside any range holding both operands. */
  lemma StepWithin(prev: real, v: real, p: nat, lo: real, hi: real)
    requires p >= 1
    requires lo <= prev <= hi && lo <= v <= hi
    ensures lo <= (prev * (p - 1) as real + v) / p as real <= hi
  {
    var q := (p - 1) as real;
    assert prev * q >= lo * q;
    assert prev * q <= hi * q;
    assert p as real * lo == lo * q + lo;
    assert p as real * hi == hi * q + hi;
    DivBounds(prev * q + v, p as real, lo, hi);
  }

  /**
   * Every smoothed value lies in [lo, hi] when every defined input does:
   * averages of non-negative gains, losses, true ranges or money flows
   * stay non-negative, and the ADX average of DX values in [0, 100]
   * stays in [0, 100].
   */
  lemma RollingMeanFullWithin(x: seq<Option<real>>, p: nat, i: nat, lo: real, hi: real)
    requires i < |x|
    requires forall k :: 0 <= k < |x| && x[k].Some? ==> lo <= x[k].value <= hi
    ensures RollingMeanFull(x, p, i).Some? ==> lo <= RollingMeanFull(x, p, i).value <= hi
  {
    if p >= 1 && i + 1 >= p && AllSome(x[i + 1 - p..i + 1]) {
      var w := x[i + 1 - p..i + 1];
      var win := Values(w);
      forall k | 0 <= k < |win|
        ensures lo <= win[k] <= hi
      {
        assert w[k] == x[i + 1 - p + k];
      }
      MeanWithin(win, lo, hi);
    }
  }

  lemma WilderStepWithin(prev: Option<real>, v: Option<real>, p: nat, lo: real, hi: real)
    requires prev.Some? ==> lo <= prev.value <= hi
    requires v.Some? ==> lo <= v.value <= hi
    ensures WilderStep(prev, v, p).Some? ==> lo <= WilderStep(prev, v, p).value <= hi
  {
    if p >= 1 && prev.Some? && v.Some? {
      StepWithin(prev.value, v.value, p, lo, hi);
    }
  }

  lemma {:induction false} WilderWithin(x: seq<Option<real>>, p: nat, seed: nat, lo: real, hi: real, i: nat)
    requires i < |x|
    requires forall k :: 0 <= k < |x| && x[k].Some? ==> lo <= x[k].value <= hi
    ensures Wilder(x, p, seed, i).Some? ==> lo <= Wilder(x, p, seed, i).value <= hi
    decreases i
  {
    if i <= seed {
      RollingMeanFullWithin(x, p, i, lo, hi);
    } else {
      WilderWithin(x, p, seed, lo, hi, i - 1);
      WilderStepWithin(Wilder(x, p, seed, i - 1), x[i], p, lo, hi);
    }
  }

  /** Smoothing a column without negative entries gives no negative value. */
  lemma WilderNonNegative(x: seq<Option<real>>, p: nat, seed: nat, i: nat)
    requires i < |x|
    requires forall k :: 0 <= k < |x| && x[k].Some? ==> x[k].value >= 0.0
    ensures Wilder(x, p, seed, i).Some? ==> Wilder(x, p, seed, i).value >= 0.0
  {
    WilderWithin(x, p, seed, 0.0, UpperBound(x), i);
  }

  /**
   * Where the smoothed column is defined: if the input is NaN exactly on
   * its first d rows, the output is NaN exactly on its first d + p - 1
   * rows (the seed row must not come before the first full window).
   */
  lemma {:induction false} WilderDefined(x: seq<Option<real>>, p: nat, seed: nat, d: nat, i: nat)
    requires p >= 1 && d + p - 1 <= seed && i < |x|
    requires forall k :: 0 <= k < |x| ==> (x[k].Some? <==> k >= d)
    ensures Wilder(x, p, seed, i).Some? <==> i >= d + p - 1
    decreases i
  {
    if i <= seed {
      if i >= d + p - 1 {
        var w := x[i + 1 - p..i + 1];
        forall k | 0 <= k < p
          ensures w[k].Some?
        {
          assert w[k] == x[i + 1 - p + k];
        }
      } else if i + 1 >= p {
        var start := i + 1 - p;
        var j := if i < d then i else d - 1;
        assert start <= j <= i;
        assert x[start..i + 1][j - start] == x[j];
      }
    } else {
      WilderDefined(x, p, seed, d, i - 1);
    }
  }

  // ---------------------------------------------------------------------
  // The oscillator of RSI and MFI.

  /**
   * `100 - 100 / (1 + up / down)` as pandas evaluates it: a zero `down`
   * gives +-inf for the ratio and so 100, unless `up` is zero too (NaN).
   * A result of +-inf is counted as undefined.
   */
  function Oscillator(up: Option<real>, down: Option<real>): Option<real>
  {
    match (up, down)
    case (Some(u), Some(d)) =>
      if d == 0.0 then (if u == 0.0 then None else Some(100.0))
      else if 1.0 + u / d == 0.0 then None
      else Some(100.0 - 100.0 / (1.0 + u / d))
    case _ => None
  }

  /**
   * For non-negative averages the oscillator is the share of the upward
   * part, 100·up/(up + down); it is undefined exactly when both are zero,
   * lies in [0, 100], reaches 100 only when down is zero and lies below 100
   * whenever down is positive.
   */
  lemma OscillatorShare(u: real, d: real)
    requires u >= 0.0 && d >= 0.0
    ensures Oscillator(Some(u), Some(d)).Some? <==> u + d > 0.0
    ensures u + d > 0.0 ==> Oscillator(Some(u), Some(d)).value == 100.0 * u / (u + d)
    ensures u + d > 0.0 ==> 0.0 <= Oscillator(Some(u), Some(d)).value <= 100.0
    ensures d > 0.0 ==> Oscillator(Some(u), Some(d)).value < 100.0
  {
    if d > 0.0 {
      ShareForm(u, d);
      DivBounds(100.0 * u, u + d, 0.0, 100.0);
      assert 100.0 * d / (u + d) > 0.0;
    }
  }

  lemma ShareForm(u: real, d: real)
    requires u >= 0.0 && d > 0.0
    ensures 1.0 + u / d != 0.0
    ensures 100.0 - 100.0 / (1.0 + u / d) == 100.0 * u / (u + d)
    ensures 100.0 / (1.0 + u / d) == 100.0 * d / (u + d)
  {
    OnePlusRatio(u, d);
    DivByRatio(100.0, u + d, d);
    SplitShare(u, d);
  }

  lemma OnePlusRatio(u: real, d: real)
    requires d > 0.0
    ensures 1.0 + u / d == (d + u) / d
  {
    assert (u / d) * d == u;
    assert ((d + u) / d) * d == d + u;
    assert (1.0 + u / d) * d == d + u;
    CancelFactor(1.0 + u / d, (d + u) / d, d);
  }

  lemma SplitShare(u: real, d: real)
    requires u + d > 0.0
    ensures 100.0 - 100.0 * d / (u + d) == 100.0 * u / (u + d)
  {
    var s := u + d;
    assert (100.0 * d / s) * s == 100.0 * d;
    assert (100.0 * u / s) * s == 100.0 * u;
    assert (100.0 - 100.0 * d / s) * s == 100.0 * u;
    CancelFactor(100.0 - 100.0 * d / s, 100.0 * u / s, s);
  }
}

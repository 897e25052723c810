/**
 * Parabolic SAR: a stop that trails price, accelerating towards the
 * extreme point of the current trend and flipping sides on a reversal.
 *
 * As written, the uptrend clamp includes the current bar's low, so the
 * reversal test `low[i] < sar[i]` can never succeed: the indicator stays
 * long for ever. `corrected` selects the clamp of Wilder's definition,
 * which uses the two previous bars' lows (highs in a downtrend).
 */
module ParabolicSar {
  import opened Common
  import opened Series

  /** af_start, af_increment and af_max. */
  datatype AfParams = AfParams(start: real, increment: real, max: real)

  /** The four per-bar arrays of the loop: sar, trend, ep and af. */
  datatype SarState = SarState(sar: real, trend: int, ep: real, af: real)

  /** The bound an uptrend SAR is clamped to at bar i >= 1. */
  function UpClamp(low: seq<real>, i: nat, corrected: bool): real
    requires 1 <= i < |low|
  {
    if !corrected then Min2(low[i - 1], low[i])
    else if i >= 2 then Min2(low[i - 1], low[i - 2])
    else low[i - 1]
  }

  /** The bound a downtrend SAR is clamped to at bar i >= 1. */
  function DownClamp(high: seq<real>, i: nat, corrected: bool): real
    requires 1 <= i < |high|
  {
    if !corrected then Max2(high[i - 1], high[i])
    else if i >= 2 then Max2(high[i - 1], high[i - 2])
    else high[i - 1]
  }

  /** Bar 0: the stop at the low, long, extreme point at the high. */
  function Start(high: seq<real>, low: seq<real>, a: AfParams): SarState
    requires 0 < |high| == |low|
  {
    SarState(low[0], 1, high[0], a.start)
  }

  /** `sar + af·(ep - sar)`: the stop moved towards the extreme point. */
  function Projected(s: SarState): real
  {
    s.sar + s.af * (s.ep - s.sar)
  }

  /** One iteration of the loop body for bar i >= 1. */
  function Step(s: SarState, high: seq<real>, low: seq<real>, a: AfParams, corrected: bool, i: nat): SarState
    requires 1 <= i < |high| == |low|
  {
    var projected := Projected(s);
    if s.trend == 1 then
      var sar := Min2(projected, UpClamp(low, i, corrected));
      if low[i] < sar then SarState(s.ep, -1, low[i], a.start)
      else if high[i] > s.ep then SarState(sar, 1, high[i], Min2(s.af + a.increment, a.max))
      else SarState(sar, 1, s.ep, s.af)
    else
      var sar := Max2(projected, DownClamp(high, i, corrected));
      if high[i] > sar then SarState(s.ep, 1, high[i], a.start)
      else if low[i] < s.ep then SarState(sar, -1, low[i], Min2(s.af + a.increment, a.max))
      else SarState(sar, -1, s.ep, s.af)
  }

  /** The state after bar i. */
  function Run(high: seq<real>, low: seq<real>, a: AfParams, corrected: bool, i: nat): SarState
    requires i < |high| == |low|
    decreases i
  {
    if i == 0 then Start(high, low, a) else Step(Run(high, low, a, corrected, i - 1), high, low, a, corrected, i)
  }

  /** The body of the loop for bar i, as written. */
  method SarStep(sarPrev: real, trendPrev: int, epPrev: real, afPrev: real, high: seq<real>, low: seq<real>, a: AfParams, i: nat)
    returns (sarNext: real, trendNext: int, epNext: real, afNext: real)
    requires 1 <= i < |high| == |low|
    ensures SarState(sarNext, trendNext, epNext, afNext) == Step(SarState(sarPrev, trendPrev, epPrev, afPrev), high, low, a, false, i)
  {
    var highNow, lowNow := high[i], low[i];
    if trendPrev == 1 {
      sarNext := sarPrev + afPrev * (epPrev - sarPrev);
      sarNext := Min2(sarNext, Min2(low[i - 1], low[i]));
      if high[i] > epPrev {
        epNext, afNext := high[i], Min2(afPrev + a.increment, a.max);
      } else {
        epNext, afNext := epPrev, afPrev;
      }
      if lowNow < sarNext {
        trendNext, sarNext, epNext, afNext := -1, epPrev, lowNow, a.start;
      } else {
        trendNext := 1;
      }
    } else {
      sarNext := sarPrev + afPrev * (epPrev - sarPrev);
      sarNext := Max2(sarNext, Max2(high[i - 1], high[i]));
      if low[i] < epPrev {
        epNext, afNext := low[i], Min2(afPrev + a.increment, a.max);
      } else {
        epNext, afNext := epPrev, afPrev;
      }
      if highNow > sarNext {
        trendNext, sarNext, epNext, afNext := 1, epPrev, highNow, a.start;
      } else {
        trendNext := -1;
      }
    }
  }

  /**
   * The loop of calculate_parabolic_sar, as written, over four arrays of
   * one entry per bar.
   */
  method SarLoop(high: seq<real>, low: seq<real>, a: AfParams) returns (sarOut: seq<real>)
    requires 0 < |high| == |low|
    ensures |sarOut| == |high|
    ensures forall i :: 0 <= i < |high| ==> sarOut[i] == Run(high, low, a, false, i).sar
  {
    var n := |high|;
    var sar := new real[n];
    var trend := new int[n];
    var ep := new real[n];
    var af := new real[n];
    sar[0], trend[0], ep[0], af[0] := low[0], 1, high[0], a.start;
    var i := 1;
    while i < n
      invariant 1 <= i <= n
      invariant sar[..i] == SarColumn(high, low, a, false, i)
      invariant SarState(sar[i - 1], trend[i - 1], ep[i - 1], af[i - 1]) == Run(high, low, a, false, i - 1)
    {
      var sarPrev, trendPrev, epPrev, afPrev := sar[i - 1], trend[i - 1], ep[i - 1], af[i - 1];
      var sarNext, trendNext, epNext, afNext := SarStep(sarPrev, trendPrev, epPrev, afPrev, high, low, a, i);
      assert SarState(sarNext, trendNext, epNext, afNext) == Run(high, low, a, false, i);
      sar[i] := sarNext;
      assert sar[..i + 1] == SarColumn(high, low, a, false, i) + [sarNext];
      trend[i] := trendNext;
      ep[i] := epNext;
      af[i] := afNext;
      i := i + 1;
    }
    sarOut := sar[..];
    assert sarOut == sar[..n];
  }

  /** The SAR of bars 0 .. n - 1. */
  function SarColumn(high: seq<real>, low: seq<real>, a: AfParams, corrected: bool, n: nat): (r: seq<real>)
    requires n <= |high| == |low|
    ensures |r| == n
    ensures forall k :: 0 <= k < n ==> r[k] == Run(high, low, a, corrected, k).sar
  {
    if n == 0 then [] else SarColumn(high, low, a, corrected, n - 1) + [Run(high, low, a, corrected, n - 1).sar]
  }

  /** calculate_parabolic_sar: only the SAR column is added; an empty frame fails at `sar[0]`. */
  method CalculateParabolicSar(df: Frame, a: AfParams) returns (r: Result<seq<real>>)
    requires Rectangular(df)
    ensures !HasPrices(df) ==> CheckColumns(df.Keys, PriceColumns).Some? && r == Err(CheckColumns(df.Keys, PriceColumns).value)
    ensures HasPrices(df) && |df["close"]| == 0 ==> r == Err(IndexError)
    ensures HasPrices(df) && |df["close"]| > 0 ==> r.Ok? && |r.value| == |df["close"]|
    ensures HasPrices(df) && |df["close"]| > 0 ==> forall i :: 0 <= i < |r.value| ==>
      r.value[i] == Run(df["high"], df["low"], a, false, i).sar
  {
    var missing := CheckColumns(df.Keys, PriceColumns);
    PriceCheck(df);
    if missing.Some? {
      return Err(missing.value);
    }
    if |df["close"]| == 0 {
      return Err(IndexError);
    }
    var sar := SarLoop(df["high"], df["low"], a);
    r := Ok(sar);
  }

  // ---------------------------------------------------------------------
  // Properties of the loop as written

  /**
   * As written the trend is 1 on every bar and, from bar 1 on, the SAR
   * lies at or below both the previous and the current low: the reversal
   * test never succeeds and the downtrend branch is dead.
   */
  lemma {:induction false} LongForever(high: seq<real>, low: seq<real>, a: AfParams, i: nat)
    requires i < |high| == |low|
    ensures Run(high, low, a, false, i).trend == 1
    ensures i >= 1 ==> Run(high, low, a, false, i).sar <= Min2(low[i - 1], low[i])
    decreases i
  {
    if i >= 1 {
      LongForever(high, low, a, i - 1);
    }
  }

  /** As written, the extreme point is the highest high so far. */
  lemma {:induction false} ExtremeIsRunningMax(high: seq<real>, low: seq<real>, a: AfParams, i: nat)
    requires i < |high| == |low|
    ensures Run(high, low, a, false, i).ep == Max(high[..i + 1])
    decreases i
  {
    if i >= 1 {
      var prev := Run(high, low, a, false, i - 1);
      ExtremeIsRunningMax(high, low, a, i - 1);
      LongForever(high, low, a, i - 1);
      LongForever(high, low, a, i);
      assert Run(high, low, a, false, i).ep == Max2(prev.ep, high[i]);
      assert high[..i + 1][..i] == high[..i];
    }
  }

  /**
   * As written, af grows by the increment, capped at af_max, exactly on the
   * bars that make a new high, and stays put otherwise.
   */
  lemma AccelerationRule(high: seq<real>, low: seq<real>, a: AfParams, i: nat)
    requires 1 <= i < |high| == |low|
    ensures var prev := Run(high, low, a, false, i - 1);
      Run(high, low, a, false, i).af == if high[i] > prev.ep then Min2(prev.af + a.increment, a.max) else prev.af
  {
    LongForever(high, low, a, i - 1);
    LongForever(high, low, a, i);
  }

  /**
   * As written, with a non-negative increment and af_start <= af_max, af
   * never decreases and stays within [af_start, af_max]; whatever the
   * parameters it never exceeds max(af_start, af_max).
   */
  lemma {:induction false} AccelerationBounds(high: seq<real>, low: seq<real>, a: AfParams, i: nat)
    requires i < |high| == |low|
    ensures Run(high, low, a, false, i).af <= Max2(a.start, a.max)
    ensures a.increment >= 0.0 && a.start <= a.max ==>
      a.start <= Run(high, low, a, false, i).af <= a.max &&
      (i >= 1 ==> Run(high, low, a, false, i - 1).af <= Run(high, low, a, false, i).af)
    decreases i
  {
    if i >= 1 {
      AccelerationBounds(high, low, a, i - 1);
      AccelerationRule(high, low, a, i);
    }
  }

  /** Bars 0 and 1 of a crash: as written the stop follows price down and stays long. */
  lemma CrashExample()
    ensures var a := AfParams(0.02, 0.02, 0.2);
      Run([10.0, 10.0, 2.0], [9.0, 9.0, 1.0], a, false, 2) == SarState(1.0, 1, 10.0, 0.02)
    ensures var a := AfParams(0.02, 0.02, 0.2);
      Run([10.0, 10.0, 2.0], [9.0, 9.0, 1.0], a, true, 2) == SarState(10.0, -1, 1.0, 0.02)
  {
    var a := AfParams(0.02, 0.02, 0.2);
    var h, l := [10.0, 10.0, 2.0], [9.0, 9.0, 1.0];
    assert Run(h, l, a, false, 1) == SarState(9.0, 1, 10.0, 0.02);
    assert Run(h, l, a, true, 1) == SarState(9.0, 1, 10.0, 0.02);
  }

  // ---------------------------------------------------------------------
  // Properties of either clamp

  /**
   * Each step keeps the trend at 1 or -1, the extreme point at or beyond
   * the bar (at least its high in an uptrend, at most its low in a
   * downtrend), and the stop on the trend's side of the bar unless the
   * bar reversed it, in which case the stop jumps to the old extreme point.
   */
  lemma StepShape(s: SarState, high: seq<real>, low: seq<real>, a: AfParams, corrected: bool, i: nat)
    requires 1 <= i < |high| == |low| && (s.trend == 1 || s.trend == -1)
    ensures var t := Step(s, high, low, a, corrected, i);
      (t.trend == 1 || t.trend == -1) &&
      (t.trend == 1 ==> t.ep >= high[i]) && (t.trend == -1 ==> t.ep <= low[i]) &&
      (t.trend == s.trend && s.trend == 1 ==> t.sar <= low[i]) &&
      (t.trend == s.trend && s.trend == -1 ==> t.sar >= high[i]) &&
      (t.trend != s.trend ==> t.sar == s.ep && t.af == a.start)
  {
  }

  /**
   * With the corrected clamp a bar whose low pierces the stop of an
   * uptrend (or whose high pierces the stop of a downtrend) reverses it,
   * and a reversal happens only then.
   */
  lemma CorrectedReverses(s: SarState, high: seq<real>, low: seq<real>, a: AfParams, i: nat)
    requires 1 <= i < |high| == |low|
    ensures var t := Step(s, high, low, a, true, i);
      var projected := Projected(s);
      (s.trend == 1 ==> (t.trend == -1 <==> low[i] < Min2(projected, UpClamp(low, i, true)))) &&
      (s.trend != 1 ==> (t.trend == 1 <==> high[i] > Max2(projected, DownClamp(high, i, true))))
  {
  }

  /** The trend and extreme-point invariant of StepShape holds on every bar, for either clamp. */
  lemma {:induction false} RunShape(high: seq<real>, low: seq<real>, a: AfParams, corrected: bool, i: nat)
    requires i < |high| == |low|
    ensures var t := Run(high, low, a, corrected, i);
      (t.trend == 1 || t.trend == -1) && (t.trend == 1 ==> t.ep >= high[i]) && (t.trend == -1 ==> t.ep <= low[i])
    decreases i
  {
    if i >= 1 {
      RunShape(high, low, a, corrected, i - 1);
      StepShape(Run(high, low, a, corrected, i - 1), high, low, a, corrected, i);
    }
  }
}

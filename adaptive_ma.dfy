/**
 * Volatility-adaptive moving average: an exponential average whose
 * smoothing factor follows the ratio of the ATR to its own rolling mean.
 */
module AdaptiveMa {
  import opened Common
  import opened Series
  import Volatility
  import Trend

  /**
   * ATR / rolling-mean(ATR), with an undefined or infinite quotient
   * replaced by 1.0, then clipped to [0.5, 2.0].
   */
  function AtrRatio(atr: Option<real>, avg: Option<real>): (r: real)
    ensures 0.5 <= r <= 2.0
    ensures atr.None? || avg.None? || avg.value == 0.0 ==> r == 1.0
    ensures atr.Some? && avg.Some? && avg.value != 0.0 && 0.5 <= atr.value / avg.value <= 2.0 ==> r == atr.value / avg.value
    ensures atr.Some? && avg.Some? && avg.value != 0.0 && atr.value / avg.value < 0.5 ==> r == 0.5
    ensures atr.Some? && avg.Some? && avg.value != 0.0 && atr.value / avg.value > 2.0 ==> r == 2.0
  {
    var raw := if atr.None? || avg.None? || avg.value == 0.0 then 1.0 else atr.value / avg.value;
    Clip(raw, 0.5, 2.0)
  }

  /** slow_period / ratio, clipped to [fast_period, slow_period] (pandas orders the two bounds). */
  function EffectivePeriod(ratio: real, fast: nat, slow: nat): (e: real)
    requires ratio >= 0.5
    ensures Min2(fast as real, slow as real) <= e <= Max2(fast as real, slow as real)
    ensures fast <= slow && fast as real <= slow as real / ratio <= slow as real ==> e == slow as real / ratio
    ensures slow as real / ratio < Min2(fast as real, slow as real) ==> e == Min2(fast as real, slow as real)
    ensures slow as real / ratio > Max2(fast as real, slow as real) ==> e == Max2(fast as real, slow as real)
  {
    Clip(slow as real / ratio, fast as real, slow as real)
  }

  /** 2 / (period + 1). */
  function SmoothingFactor(e: real): (a: real)
    requires e >= 0.0
    ensures 0.0 < a <= 2.0
    ensures e >= 1.0 ==> a <= 1.0
    ensures a * (e + 1.0) == 2.0
  {
    FactorBounds(e);
    2.0 / (e + 1.0)
  }

  lemma FactorBounds(e: real)
    requires e >= 0.0
    ensures 0.0 < 2.0 / (e + 1.0) <= 2.0
    ensures e >= 1.0 ==> 2.0 / (e + 1.0) <= 1.0
    ensures 2.0 / (e + 1.0) * (e + 1.0) == 2.0
  {
    DivBounds(2.0, e + 1.0, 0.0, 2.0);
    if e >= 1.0 {
      DivBounds(2.0, e + 1.0, 0.0, 1.0);
    }
  }

  /** The smoothing factor of every bar from the ATR column. */
  function Alphas(atr: seq<Option<real>>, period: nat, fast: nat, slow: nat): (r: seq<real>)
    requires period >= 1
    ensures |r| == |atr|
    ensures forall i :: 0 <= i < |atr| ==>
      r[i] == SmoothingFactor(EffectivePeriod(AtrRatio(atr[i], RollingMeanPresent(atr, period, i)), fast, slow))
  {
    seq(|atr|, i requires 0 <= i < |atr| =>
      SmoothingFactor(EffectivePeriod(AtrRatio(atr[i], RollingMeanPresent(atr, period, i)), fast, slow)))
  }

  /** The recurrence: bar 0 is the close; later bars blend the close into the previous value. */
  function AdaptiveAt(close: seq<real>, alpha: seq<real>, i: nat): real
    requires |close| == |alpha| && i < |close|
    decreases i
  {
    if i == 0 then close[0] else Blend(alpha[i], close[i], AdaptiveAt(close, alpha, i - 1))
  }

  /** The recurrence's first n values. */
  function AdaptiveColumn(close: seq<real>, alpha: seq<real>, n: nat): (r: seq<real>)
    requires |close| == |alpha| && n <= |close|
    ensures |r| == n
    ensures forall k :: 0 <= k < n ==> r[k] == AdaptiveAt(close, alpha, k)
  {
    if n == 0 then [] else AdaptiveColumn(close, alpha, n - 1) + [AdaptiveAt(close, alpha, n - 1)]
  }

  /** The loop filling the output series bar by bar. */
  method AdaptiveSeries(close: seq<real>, alpha: seq<real>) returns (out: seq<real>)
    requires |close| == |alpha|
    ensures |out| == |close|
    ensures forall i :: 0 <= i < |close| ==> out[i] == AdaptiveAt(close, alpha, i)
  {
    var n := |close|;
    var ma := new real[n](_ => 0.0);
    var i := 0;
    while i < n
      invariant 0 <= i <= n
      invariant ma[..i] == AdaptiveColumn(close, alpha, i)
    {
      if i == 0 {
        ma[i] := close[i];
      } else {
        ma[i] := Blend(alpha[i], close[i], ma[i - 1]);
      }
      assert ma[..i + 1] == AdaptiveColumn(close, alpha, i) + [AdaptiveAt(close, alpha, i)];
      i := i + 1;
    }
    assert ma[..] == ma[..n];
    out := ma[..];
  }

  /**
   * calculate_adaptive_ma: the price columns are checked first; a zero
   * period is rejected by the rolling mean of the ATR. The ratio is read
   * from the temporary ATR column as calculate_atr stored it, that is
   * aligned on the frame's index.
   */
  method CalculateAdaptiveMa(df: Frame, index: Index, period: nat, fast: nat, slow: nat) returns (r: Result<seq<real>>)
    requires Rectangular(df) && IndexFits(df, index)
    ensures !HasPrices(df) ==> CheckColumns(df.Keys, PriceColumns).Some? && r == Err(CheckColumns(df.Keys, PriceColumns).value)
    ensures HasPrices(df) ==> (r.Err? <==> period == 0)
    ensures HasPrices(df) && r.Err? ==> r.error == InvalidWindow
    ensures r.Ok? ==> HasPrices(df) && period >= 1 && |r.value| == |df["close"]|
    ensures r.Ok? ==> var c := df["close"];
      var alpha := Alphas(Aligned(index, Volatility.AtrColumn(df["high"], df["low"], c, period)), period, fast, slow);
      forall i :: 0 <= i < |c| ==> r.value[i] == AdaptiveAt(c, alpha, i)
  {
    var missing := CheckColumns(df.Keys, PriceColumns);
    PriceCheck(df);
    if missing.Some? {
      return Err(missing.value);
    }
    var atrResult := Volatility.Atr(df, index, period);
    var h, l, c := df["high"], df["low"], df["close"];
    var atr := atrResult.value;
    if period == 0 {
      return Err(InvalidWindow);
    }
    var out := AdaptiveSeries(c, Alphas(atr, period, fast, slow));
    r := Ok(out);
  }

  // ---------------------------------------------------------------------
  // Properties

  /** With both periods at least 1, every smoothing factor lies in (0, 1]. */
  lemma AlphasInUnit(atr: seq<Option<real>>, period: nat, fast: nat, slow: nat, i: nat)
    requires period >= 1 && fast >= 1 && slow >= 1 && i < |atr|
    ensures 0.0 < Alphas(atr, period, fast, slow)[i] <= 1.0
  {
    var e := EffectivePeriod(AtrRatio(atr[i], RollingMeanPresent(atr, period, i)), fast, slow);
    assert e >= Min2(fast as real, slow as real) >= 1.0;
  }

  /** With factors in [0, 1] the output stays inside any range holding every close so far. */
  lemma {:induction false} AdaptiveWithin(close: seq<real>, alpha: seq<real>, i: nat, lo: real, hi: real)
    requires |close| == |alpha| && i < |close|
    requires forall k :: 0 <= k <= i ==> 0.0 <= alpha[k] <= 1.0 && lo <= close[k] <= hi
    ensures lo <= AdaptiveAt(close, alpha, i) <= hi
    decreases i
  {
    if i > 0 {
      AdaptiveWithin(close, alpha, i - 1, lo, hi);
      ConvexWithin(alpha[i], close[i], AdaptiveAt(close, alpha, i - 1), lo, hi);
    }
  }

  /**
   * Hence, for periods at least 1, the adaptive average lies between the
   * smallest and largest close so far; a constant close is reproduced.
   */
  lemma AdaptiveBetweenPrefixMinMax(close: seq<real>, atr: seq<Option<real>>, period: nat, fast: nat, slow: nat, i: nat)
    requires |close| == |atr| && period >= 1 && fast >= 1 && slow >= 1 && i < |close|
    ensures Min(close[..i + 1]) <= AdaptiveAt(close, Alphas(atr, period, fast, slow), i) <= Max(close[..i + 1])
  {
    var alpha := Alphas(atr, period, fast, slow);
    var pre := close[..i + 1];
    forall k | 0 <= k <= i
      ensures 0.0 <= alpha[k] <= 1.0 && Min(pre) <= close[k] <= Max(pre)
    {
      AlphasInUnit(atr, period, fast, slow, k);
      assert pre[k] == close[k];
    }
    AdaptiveWithin(close, alpha, i, Min(pre), Max(pre));
  }

  lemma AdaptiveConstant(close: seq<real>, atr: seq<Option<real>>, period: nat, fast: nat, slow: nat, c: real, i: nat)
    requires |close| == |atr| && period >= 1 && fast >= 1 && slow >= 1 && i < |close|
    requires forall k :: 0 <= k < |close| ==> close[k] == c
    ensures AdaptiveAt(close, Alphas(atr, period, fast, slow), i) == c
  {
    var alpha := Alphas(atr, period, fast, slow);
    forall k | 0 <= k <= i
      ensures 0.0 <= alpha[k] <= 1.0
    {
      AlphasInUnit(atr, period, fast, slow, k);
    }
    AdaptiveWithin(close, alpha, i, c, c);
  }

  /**
   * With an ATR column that is NaN throughout, as calculate_atr leaves it
   * on a DatetimeIndex frame, the ratio is filled with 1.0, the effective
   * period is slow_period on every bar, and the adaptive average is the
   * plain adjust=False EMA of span slow_period.
   */
  lemma LostAtrSlowEma(close: seq<real>, atr: seq<Option<real>>, period: nat, fast: nat, slow: nat, i: nat)
    requires |close| == |atr| && period >= 1 && slow >= 1 && i < |close|
    requires forall k :: 0 <= k < |atr| ==> atr[k] == None
    ensures AdaptiveAt(close, Alphas(atr, period, fast, slow), i) == Trend.EmaAt(close, slow, i)
  {
    var alpha := Alphas(atr, period, fast, slow);
    forall k | 0 <= k <= i
      ensures alpha[k] == Trend.Alpha(slow)
    {
      LostAtrAlpha(atr, period, fast, slow, k);
    }
    ConstantFactorEma(close, alpha, slow, i);
  }

  /** With every factor equal to 2 / (p + 1) the recurrence is the adjust=False EMA of span p. */
  lemma {:induction false} ConstantFactorEma(close: seq<real>, alpha: seq<real>, p: nat, i: nat)
    requires |close| == |alpha| && p >= 1 && i < |close|
    requires forall k :: 0 <= k <= i ==> alpha[k] == Trend.Alpha(p)
    ensures AdaptiveAt(close, alpha, i) == Trend.EmaAt(close, p, i)
    decreases i
  {
    if i > 0 {
      ConstantFactorEma(close, alpha, p, i - 1);
    }
  }

  /** With the ATR undefined the smoothing factor is the EMA's 2 / (slow_period + 1). */
  lemma LostAtrAlpha(atr: seq<Option<real>>, period: nat, fast: nat, slow: nat, i: nat)
    requires period >= 1 && slow >= 1 && i < |atr| && atr[i] == None
    ensures Alphas(atr, period, fast, slow)[i] == Trend.Alpha(slow)
  {
    var ratio := AtrRatio(atr[i], RollingMeanPresent(atr, period, i));
    var e := EffectivePeriod(ratio, fast, slow);
    assert e == slow as real by {
      assert ratio == 1.0;
      assert slow as real / 1.0 == slow as real;
    }
    assert Alphas(atr, period, fast, slow)[i] == SmoothingFactor(e);
    assert SmoothingFactor(e) == Trend.Alpha(slow) by {
      assert (slow + 1) as real == e + 1.0;
    }
  }
}

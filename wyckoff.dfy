/**
 * Wyckoff phases: a per-bar threshold classifier over the close's
 * percentage change, the volume against its 20-bar mean and the 14-bar
 * mean range against its own 20-bar mean. Quotients keep IEEE's outcome
 * of a division by zero (an infinity or NaN), since comparisons with them
 * decide the phase.
 */
module Wyckoff {
  import opened Common
  import opened Series

  /** `x > c`: +inf is above every bound, -inf and NaN above none. */
  predicate Above(x: Float, c: real)
  {
    match x
    case Finite(v) => v > c
    case PosInf => true
    case NegInf => false
    case NaN => false
  }

  /** `x < c`. */
  predicate Beneath(x: Float, c: real)
  {
    match x
    case Finite(v) => v < c
    case PosInf => false
    case NegInf => true
    case NaN => false
  }

  /** `abs(x)`: infinities become +inf and NaN stays NaN. */
  function FAbs(x: Float): Float
  {
    match x
    case Finite(v) => Finite(Abs(v))
    case PosInf => PosInf
    case NegInf => PosInf
    case NaN => NaN
  }

  /** `close.pct_change()`: NaN on bar 0, then close[i] / close[i - 1] - 1. */
  function PriceChange(close: seq<real>, i: nat): Float
    requires i < |close|
  {
    if i == 0 then NaN
    else match Div(close[i], close[i - 1])
      case Finite(q) => Finite(q - 1.0)
      case other => other
  }

  /** `volume / volume.rolling(20, min_periods=1).mean()`. */
  function VolumeRatio(volume: seq<real>, i: nat): Float
    requires i < |volume|
  {
    Div(volume[i], Mean(Trailing(volume, 20, i)))
  }

  /** The bar ranges high - low. */
  function Ranges(high: seq<real>, low: seq<real>): (r: seq<real>)
    requires |high| == |low|
    ensures |r| == |high| && forall i :: 0 <= i < |high| ==> r[i] == high[i] - low[i]
  {
    seq(|high|, i requires 0 <= i < |high| => high[i] - low[i])
  }

  /** The 14-bar mean range over its own 20-bar mean. */
  function VolatilityRatio(high: seq<real>, low: seq<real>, i: nat): Float
    requires |high| == |low| && i < |high|
  {
    var volatility := RollingMean(Ranges(high, low), 14);
    Div(volatility[i], Mean(Trailing(volatility, 20, i)))
  }

  datatype Phase = Markup | Markdown | Accumulation | Distribution | Unknown

  /** The rule chain of one bar from 20 on, in the order written. */
  function Classify(change: Float, volumeRatio: Float, volatilityRatio: Float): Phase
  {
    if Above(change, 0.01) && Above(volumeRatio, 1.2) && Beneath(volatilityRatio, 1.0) then Markup
    else if Beneath(change, -0.01) && Above(volumeRatio, 1.2) && Beneath(volatilityRatio, 1.0) then Markdown
    else if Beneath(FAbs(change), 0.005) && Above(volumeRatio, 1.1) && Beneath(volatilityRatio, 0.9) then Accumulation
    else if Beneath(FAbs(change), 0.005) && Above(volumeRatio, 1.1) && Beneath(volatilityRatio, 0.9) then Distribution
    else Unknown
  }

  /** The phase of bar i: the first 20 bars are Unknown. */
  function PhaseAt(high: seq<real>, low: seq<real>, close: seq<real>, volume: seq<real>, i: nat): Phase
    requires |high| == |low| == |close| == |volume| && i < |close|
  {
    if i < 20 then Unknown
    else Classify(PriceChange(close, i), VolumeRatio(volume, i), VolatilityRatio(high, low, i))
  }

  /** identify_wyckoff_phases: the four columns are checked in order; only the phase column is added. */
  method IdentifyWyckoffPhases(df: Frame) returns (r: Result<seq<Phase>>)
    requires Rectangular(df)
    ensures !HasBars(df) ==> CheckColumns(df.Keys, BarColumns).Some? && r == Err(CheckColumns(df.Keys, BarColumns).value)
    ensures HasBars(df) ==> r.Ok? && |r.value| == |df["close"]|
    ensures HasBars(df) ==> var h, l, c, v := df["high"], df["low"], df["close"], df["volume"];
      forall i :: 0 <= i < |c| ==> r.value[i] == PhaseAt(h, l, c, v, i)
  {
    var missing := CheckColumns(df.Keys, BarColumns);
    BarCheck(df);
    if missing.Some? {
      return Err(missing.value);
    }
    var h, l, c, v := df["high"], df["low"], df["close"], df["volume"];
    var phases := [];
    var i := 0;
    while i < |c|
      invariant 0 <= i <= |c|
      invariant |phases| == i
      invariant forall k :: 0 <= k < i ==> phases[k] == PhaseAt(h, l, c, v, k)
    {
      if i < 20 {
        phases := phases + [Unknown];
        i := i + 1;
        continue;
      }
      var priceChange := PriceChange(c, i);
      var volumeRatio := VolumeRatio(v, i);
      var volatilityRatio := VolatilityRatio(h, l, i);
      var phase;
      if Above(priceChange, 0.01) && Above(volumeRatio, 1.2) && Beneath(volatilityRatio, 1.0) {
        phase := Markup;
      } else if Beneath(priceChange, -0.01) && Above(volumeRatio, 1.2) && Beneath(volatilityRatio, 1.0) {
        phase := Markdown;
      } else if Beneath(FAbs(priceChange), 0.005) && Above(volumeRatio, 1.1) && Beneath(volatilityRatio, 0.9) {
        phase := Accumulation;
      } else if Beneath(FAbs(priceChange), 0.005) && Above(volumeRatio, 1.1) && Beneath(volatilityRatio, 0.9) {
        phase := Distribution;
      } else {
        phase := Unknown;
      }
      phases := phases + [phase];
      i := i + 1;
    }
    r := Ok(phases);
  }

  // ---------------------------------------------------------------------
  // Properties

  /**
   * Each phase in terms of the three ratios alone, whatever the order of
   * the rules: Markup and Markdown need a move of more than 1% in their
   * direction on a volume ratio above 1.2 and a volatility ratio below 1;
   * Accumulation needs a move under 0.5% on a volume ratio above 1.1 and
   * a volatility ratio below 0.9; Distribution never occurs.
   */
  lemma PhaseConditions(change: Float, volumeRatio: Float, volatilityRatio: Float)
    ensures Classify(change, volumeRatio, volatilityRatio) == Markup <==>
      Above(change, 0.01) && Above(volumeRatio, 1.2) && Beneath(volatilityRatio, 1.0)
    ensures Classify(change, volumeRatio, volatilityRatio) == Markdown <==>
      Beneath(change, -0.01) && Above(volumeRatio, 1.2) && Beneath(volatilityRatio, 1.0)
    ensures Classify(change, volumeRatio, volatilityRatio) == Accumulation <==>
      Beneath(FAbs(change), 0.005) && Above(volumeRatio, 1.1) && Beneath(volatilityRatio, 0.9)
    ensures Classify(change, volumeRatio, volatilityRatio) != Distribution
  {
  }

  /** The two trend phases need the same ratios and opposite moves, so no bar satisfies both. */
  lemma TrendConditionsExclusive(change: Float)
    ensures !(Above(change, 0.01) && Beneath(change, -0.01))
    ensures Beneath(FAbs(change), 0.005) ==> !Above(change, 0.01) && !Beneath(change, -0.01)
  {
  }

  /** No bar of any frame is classified as Distribution; the first 20 bars are Unknown. */
  lemma NoDistribution(high: seq<real>, low: seq<real>, close: seq<real>, volume: seq<real>, i: nat)
    requires |high| == |low| == |close| == |volume| && i < |close|
    ensures PhaseAt(high, low, close, volume, i) != Distribution
    ensures i < 20 ==> PhaseAt(high, low, close, volume, i) == Unknown
  {
    if i >= 20 {
      PhaseConditions(PriceChange(close, i), VolumeRatio(volume, i), VolatilityRatio(high, low, i));
    }
  }

  /**
   * A constant positive volume has ratio exactly 1, below both volume
   * thresholds: every bar is then Unknown.
   */
  lemma ConstantVolumeUnknown(high: seq<real>, low: seq<real>, close: seq<real>, volume: seq<real>, c: real, i: nat)
    requires |high| == |low| == |close| == |volume| && i < |close|
    requires c > 0.0 && forall k :: 0 <= k < |volume| ==> volume[k] == c
    ensures VolumeRatio(volume, i) == Finite(1.0)
    ensures PhaseAt(high, low, close, volume, i) == Unknown
  {
    var w := Trailing(volume, 20, i);
    MeanConstant(w, c);
  }
}

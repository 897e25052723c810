/**
 * Momentum indicators: RSI, ADX with its directional indicators, and the
 * stochastic RSI.
 */
module Momentum {
  import opened Common
  import opened Series
  import opened Smoothing
  import Volatility

  // ---------------------------------------------------------------------
  // RSI

  /** `diff().where(delta > 0, 0)`: the NaN delta of row 0 fails the test and becomes 0. */
  function Gains(x: seq<real>): (g: seq<real>)
    ensures |g| == |x|
  {
    seq(|x|, i requires 0 <= i < |x| => if i > 0 && x[i] - x[i - 1] > 0.0 then x[i] - x[i - 1] else 0.0)
  }

  /** `-diff().where(delta < 0, 0)`. */
  function Losses(x: seq<real>): (l: seq<real>)
    ensures |l| == |x|
  {
    seq(|x|, i requires 0 <= i < |x| => if i > 0 && x[i] - x[i - 1] < 0.0 then x[i - 1] - x[i] else 0.0)
  }

  /**
   * Gains and losses are never negative, never both positive, both 0 at
   * row 0, and from row 1 on their difference is the price change.
   */
  lemma GainLossSplit(x: seq<real>, i: nat)
    requires i < |x|
    ensures Gains(x)[i] >= 0.0 && Losses(x)[i] >= 0.0
    ensures Gains(x)[i] == 0.0 || Losses(x)[i] == 0.0
    ensures i == 0 ==> Gains(x)[i] == 0.0 && Losses(x)[i] == 0.0
    ensures i > 0 ==> Gains(x)[i] - Losses(x)[i] == x[i] - x[i - 1]
  {
  }

  /** The Wilder averages of gains and of losses at row i. */
  function AvgGain(x: seq<real>, p: nat, i: nat): Option<real>
    requires i < |x|
  {
    Wilder(Lift(Gains(x)), p, p, i)
  }

  function AvgLoss(x: seq<real>, p: nat, i: nat): Option<real>
    requires i < |x|
  {
    Wilder(Lift(Losses(x)), p, p, i)
  }

  /** Row i of RSI: the oscillator of the two Wilder averages. */
  function RsiAt(x: seq<real>, p: nat, i: nat): Option<real>
    requires i < |x|
  {
    Oscillator(AvgGain(x, p, i), AvgLoss(x, p, i))
  }

  function RsiColumn(x: seq<real>, p: nat): (r: seq<Option<real>>)
    ensures |r| == |x| && forall i :: 0 <= i < |x| ==> r[i] == RsiAt(x, p, i)
  {
    seq(|x|, i requires 0 <= i < |x| => RsiAt(x, p, i))
  }

  /** calculate_rsi. */
  method Rsi(df: Frame, column: string, period: nat) returns (r: Result<seq<Option<real>>>)
    ensures Lower(column) !in df ==> r == Err(MissingColumn(Lower(column)))
    ensures Lower(column) in df ==> r == Ok(RsiColumn(df[Lower(column)], period))
  {
    var col := Lower(column);
    if col !in df {
      return Err(MissingColumn(col));
    }
    var x := df[col];
    var avgGain := WilderAverage(Lift(Gains(x)), period, period);
    var avgLoss := WilderAverage(Lift(Losses(x)), period, period);
    var rsi := seq(|x|, i requires 0 <= i < |x| => Oscillator(avgGain[i], avgLoss[i]));
    assert forall i :: 0 <= i < |x| ==> rsi[i] == RsiAt(x, period, i);
    assert rsi == RsiColumn(x, period);
    r := Ok(rsi);
  }

  /**
   * Both averages are NaN before row period - 1 and defined from there
   * on; RSI is then defined unless both averages are 0 (a flat window),
   * lies in [0, 100], and lies below 100 whenever the average loss is
   * positive.
   */
  lemma RsiRange(x: seq<real>, p: nat, i: nat)
    requires p >= 1 && i < |x|
    ensures AvgGain(x, p, i).Some? <==> i + 1 >= p
    ensures AvgLoss(x, p, i).Some? <==> i + 1 >= p
    ensures RsiAt(x, p, i).Some? ==> 0.0 <= RsiAt(x, p, i).value <= 100.0
    ensures i + 1 >= p ==> (RsiAt(x, p, i).Some? <==> AvgGain(x, p, i).value + AvgLoss(x, p, i).value > 0.0)
    ensures i + 1 >= p && AvgLoss(x, p, i).value > 0.0 ==> RsiAt(x, p, i).Some? && RsiAt(x, p, i).value < 100.0
  {
    var g := Lift(Gains(x));
    var l := Lift(Losses(x));
    WilderDefined(g, p, p, 0, i);
    WilderDefined(l, p, p, 0, i);
    forall k | 0 <= k < |x|
      ensures 0.0 <= Gains(x)[k] && 0.0 <= Losses(x)[k]
    {
      GainLossSplit(x, k);
    }
    WilderNonNegative(g, p, p, i);
    WilderNonNegative(l, p, p, i);
    if i + 1 >= p {
      OscillatorShare(Wilder(g, p, p, i).value, Wilder(l, p, p, i).value);
    }
  }

  // ---------------------------------------------------------------------
  // ADX

  function PlusDMAt(high: seq<real>, low: seq<real>, i: nat): real
    requires |high| == |low| && i < |high|
  {
    if i == 0 then 0.0
    else
      var up := high[i] - high[i - 1];
      var down := low[i - 1] - low[i];
      if up > down && up > 0.0 then up else 0.0
  }

  function MinusDMAt(high: seq<real>, low: seq<real>, i: nat): real
    requires |high| == |low| && i < |high|
  {
    if i == 0 then 0.0
    else
      var up := high[i] - high[i - 1];
      var down := low[i - 1] - low[i];
      if down > up && down > 0.0 then down else 0.0
  }

  /** The `plus_dm` / `minus_dm` loop: one value of each per bar. */
  method DirectionalMovement(high: seq<real>, low: seq<real>) returns (plus: seq<real>, minus: seq<real>)
    requires |high| == |low|
    ensures |plus| == |minus| == |high|
    ensures forall i :: 0 <= i < |high| ==> plus[i] == PlusDMAt(high, low, i) && minus[i] == MinusDMAt(high, low, i)
  {
    plus, minus := [], [];
    var i := 0;
    while i < |high|
      invariant 0 <= i <= |high| && |plus| == |minus| == i
      invariant forall k :: 0 <= k < i ==> plus[k] == PlusDMAt(high, low, k) && minus[k] == MinusDMAt(high, low, k)
    {
      if i == 0 {
        plus, minus := plus + [0.0], minus + [0.0];
      } else {
        var upMove := high[i] - high[i - 1];
        var downMove := low[i - 1] - low[i];
        plus := plus + [if upMove > downMove && upMove > 0.0 then upMove else 0.0];
        minus := minus + [if downMove > upMove && downMove > 0.0 then downMove else 0.0];
      }
      i := i + 1;
    }
  }

  /** ±DM are never negative, never both positive, and both 0 at bar 0. */
  lemma DirectionalMovementExclusive(high: seq<real>, low: seq<real>, i: nat)
    requires |high| == |low| && i < |high|
    ensures PlusDMAt(high, low, i) >= 0.0 && MinusDMAt(high, low, i) >= 0.0
    ensures PlusDMAt(high, low, i) == 0.0 || MinusDMAt(high, low, i) == 0.0
    ensures i == 0 ==> PlusDMAt(high, low, i) == 0.0 && MinusDMAt(high, low, i) == 0.0
  {
  }

  /** `100 * (dm_avg / atr)`; a zero ATR gives NaN or inf, both undefined here. */
  function DirectionalIndex(dmAvg: Option<real>, atr: Option<real>): Option<real>
  {
    if dmAvg.Some? && atr.Some? && atr.value != 0.0 then Some(100.0 * (dmAvg.value / atr.value)) else None
  }

  /** `100 * |+DI - -DI| / (+DI + -DI)`; NaN when the sum is 0. */
  function DirectionalSpread(plusDi: Option<real>, minusDi: Option<real>): Option<real>
  {
    if plusDi.Some? && minusDi.Some? && plusDi.value + minusDi.value != 0.0
    then Some(100.0 * Abs(plusDi.value - minusDi.value) / (plusDi.value + minusDi.value))
    else None
  }

  /** DX lies in [0, 100] for non-negative directional indicators. */
  lemma DirectionalSpreadRange(pd: real, md: real)
    requires pd >= 0.0 && md >= 0.0
    ensures DirectionalSpread(Some(pd), Some(md)).Some? <==> pd + md > 0.0
    ensures DirectionalSpread(Some(pd), Some(md)).Some? ==> 0.0 <= DirectionalSpread(Some(pd), Some(md)).value <= 100.0
  {
    if pd + md > 0.0 {
      DivBounds(100.0 * Abs(pd - md), pd + md, 0.0, 100.0);
    }
  }

  /** A DI is never negative when the DM average is not and the ATR is positive. */
  lemma DirectionalIndexNonNegative(dmAvg: Option<real>, atr: Option<real>)
    requires dmAvg.Some? ==> dmAvg.value >= 0.0
    requires atr.Some? ==> atr.value >= 0.0
    ensures DirectionalIndex(dmAvg, atr).Some? ==> DirectionalIndex(dmAvg, atr).value >= 0.0
  {
    if DirectionalIndex(dmAvg, atr).Some? {
      DivBounds(dmAvg.value, atr.value, 0.0, dmAvg.value / atr.value);
    }
  }

  datatype AdxColumns = AdxColumns(adx: seq<Option<real>>, plusDi: seq<Option<real>>, minusDi: seq<Option<real>>)

  /** The row where ADX's own smoothing is seeded: 2·period - 1. */
  function AdxSeed(p: nat): nat
  {
    if p == 0 then 0 else 2 * p - 1
  }

  function TR(high: seq<real>, low: seq<real>, close: seq<real>): seq<Option<real>>
    requires |high| == |low| == |close|
  {
    Lift(Volatility.TrueRanges(high, low, close))
  }

  function PlusDM(high: seq<real>, low: seq<real>): (r: seq<Option<real>>)
    requires |high| == |low|
    ensures |r| == |high| && forall k :: 0 <= k < |high| ==> r[k] == Some(PlusDMAt(high, low, k))
  {
    seq(|high|, k requires 0 <= k < |high| => Some(PlusDMAt(high, low, k)))
  }

  function MinusDM(high: seq<real>, low: seq<real>): (r: seq<Option<real>>)
    requires |high| == |low|
    ensures |r| == |high| && forall k :: 0 <= k < |high| ==> r[k] == Some(MinusDMAt(high, low, k))
  {
    seq(|high|, k requires 0 <= k < |high| => Some(MinusDMAt(high, low, k)))
  }

  function PlusDI(high: seq<real>, low: seq<real>, close: seq<real>, p: nat, i: nat): Option<real>
    requires |high| == |low| == |close| && i < |high|
  {
    DirectionalIndex(Wilder(PlusDM(high, low), p, p, i), Wilder(TR(high, low, close), p, p, i))
  }

  function MinusDI(high: seq<real>, low: seq<real>, close: seq<real>, p: nat, i: nat): Option<real>
    requires |high| == |low| == |close| && i < |high|
  {
    DirectionalIndex(Wilder(MinusDM(high, low), p, p, i), Wilder(TR(high, low, close), p, p, i))
  }

  function DX(high: seq<real>, low: seq<real>, close: seq<real>, p: nat): (r: seq<Option<real>>)
    requires |high| == |low| == |close|
    ensures |r| == |high|
  {
    seq(|high|, i requires 0 <= i < |high| => DirectionalSpread(PlusDI(high, low, close, p, i), MinusDI(high, low, close, p, i)))
  }

  /** The three ADX columns by position, as the loops compute them. */
  function AdxLine(high: seq<real>, low: seq<real>, close: seq<real>, p: nat): (r: seq<Option<real>>)
    requires |high| == |low| == |close|
    ensures |r| == |close|
  {
    seq(|close|, i requires 0 <= i < |close| => Wilder(DX(high, low, close, p), p, AdxSeed(p), i))
  }

  function PlusDIs(high: seq<real>, low: seq<real>, close: seq<real>, p: nat): (r: seq<Option<real>>)
    requires |high| == |low| == |close|
    ensures |r| == |close|
  {
    seq(|close|, i requires 0 <= i < |close| => PlusDI(high, low, close, p, i))
  }

  function MinusDIs(high: seq<real>, low: seq<real>, close: seq<real>, p: nat): (r: seq<Option<real>>)
    requires |high| == |low| == |close|
    ensures |r| == |close|
  {
    seq(|close|, i requires 0 <= i < |close| => MinusDI(high, low, close, p, i))
  }

  /**
   * calculate_adx: true range and ±DM, their Wilder averages (seed row
   * p), the DIs and DX, and DX's own Wilder average seeded at row 2p - 1.
   * All three are Series on the default index 0..n-1, stored with
   * `df[...] = ...`, which aligns them on the frame's labels: positional
   * on the default RangeIndex, NaN throughout on a DatetimeIndex.
   */
  method Adx(df: Frame, index: Index, period: nat) returns (r: Result<AdxColumns>)
    requires Rectangular(df) && IndexFits(df, index)
    ensures !HasPrices(df) ==> CheckColumns(df.Keys, PriceColumns).Some? && r == Err(CheckColumns(df.Keys, PriceColumns).value)
    ensures HasPrices(df) ==> r.Ok?
    ensures HasPrices(df) ==> var h, l, c := df["high"], df["low"], df["close"];
      r.value == AdxColumns(
        Aligned(index, AdxLine(h, l, c, period)),
        Aligned(index, PlusDIs(h, l, c, period)),
        Aligned(index, MinusDIs(h, l, c, period)))
    ensures HasPrices(df) && !index.IntLabels? ==> forall i :: 0 <= i < |df["close"]| ==>
      r.value.adx[i] == None && r.value.plusDi[i] == None && r.value.minusDi[i] == None
  {
    var missing := CheckColumns(df.Keys, PriceColumns);
    PriceCheck(df);
    if missing.Some? {
      return Err(missing.value);
    }
    var h, l, c := df["high"], df["low"], df["close"];
    var tr := Volatility.TrueRange(h, l, c);
    var plusDm, minusDm := DirectionalMovement(h, l);
    assert Lift(tr) == TR(h, l, c);
    var atr := WilderAverage(Lift(tr), period, period);
    var plusAvg := WilderAverage(Lift(plusDm), period, period);
    var minusAvg := WilderAverage(Lift(minusDm), period, period);
    assert Lift(plusDm) == PlusDM(h, l);
    assert Lift(minusDm) == MinusDM(h, l);
    var plusDi := seq(|c|, i requires 0 <= i < |c| => DirectionalIndex(plusAvg[i], atr[i]));
    var minusDi := seq(|c|, i requires 0 <= i < |c| => DirectionalIndex(minusAvg[i], atr[i]));
    var dx := seq(|c|, i requires 0 <= i < |c| => DirectionalSpread(plusDi[i], minusDi[i]));
    assert dx == DX(h, l, c, period);
    var adx := WilderAverage(dx, period, AdxSeed(period));
    assert adx == AdxLine(h, l, c, period);
    assert plusDi == PlusDIs(h, l, c, period);
    assert minusDi == MinusDIs(h, l, c, period);
    r := Ok(AdxColumns(Aligned(index, adx), Aligned(index, plusDi), Aligned(index, minusDi)));
    if !index.IntLabels? {
      AlignedLost(index, adx);
      AlignedLost(index, plusDi);
      AlignedLost(index, minusDi);
    }
  }

  /**
   * On bars with low <= high, both DIs are never negative and DX and ADX
   * stay within [0, 100] wherever defined.
   */
  lemma AdxRange(high: seq<real>, low: seq<real>, close: seq<real>, p: nat, i: nat)
    requires |high| == |low| == |close| && i < |high|
    requires forall k :: 0 <= k < |high| ==> low[k] <= high[k]
    ensures PlusDI(high, low, close, p, i).Some? ==> PlusDI(high, low, close, p, i).value >= 0.0
    ensures MinusDI(high, low, close, p, i).Some? ==> MinusDI(high, low, close, p, i).value >= 0.0
    ensures DX(high, low, close, p)[i].Some? ==> 0.0 <= DX(high, low, close, p)[i].value <= 100.0
    ensures Wilder(DX(high, low, close, p), p, AdxSeed(p), i).Some? ==>
      0.0 <= Wilder(DX(high, low, close, p), p, AdxSeed(p), i).value <= 100.0
  {
    var dx := DX(high, low, close, p);
    forall k | 0 <= k < |high|
      ensures PlusDI(high, low, close, p, k).Some? ==> PlusDI(high, low, close, p, k).value >= 0.0
      ensures MinusDI(high, low, close, p, k).Some? ==> MinusDI(high, low, close, p, k).value >= 0.0
      ensures dx[k].Some? ==> 0.0 <= dx[k].value <= 100.0
    {
      DINonNegative(high, low, close, p, k);
      var pd := PlusDI(high, low, close, p, k);
      var md := MinusDI(high, low, close, p, k);
      if pd.Some? && md.Some? {
        DirectionalSpreadRange(pd.value, md.value);
      }
    }
    WilderWithin(dx, p, AdxSeed(p), 0.0, 100.0, i);
  }

  lemma DINonNegative(high: seq<real>, low: seq<real>, close: seq<real>, p: nat, k: nat)
    requires |high| == |low| == |close| && k < |high|
    requires forall j :: 0 <= j < |high| ==> low[j] <= high[j]
    ensures PlusDI(high, low, close, p, k).Some? ==> PlusDI(high, low, close, p, k).value >= 0.0
    ensures MinusDI(high, low, close, p, k).Some? ==> MinusDI(high, low, close, p, k).value >= 0.0
  {
    var tr := TR(high, low, close);
    var plusDm := PlusDM(high, low);
    var minusDm := MinusDM(high, low);
    forall j | 0 <= j < |high|
      ensures tr[j].Some? && tr[j].value >= 0.0
      ensures plusDm[j].value >= 0.0 && minusDm[j].value >= 0.0
    {
      Volatility.TrueRangeSpan(high, low, close, j);
      DirectionalMovementExclusive(high, low, j);
    }
    WilderNonNegative(tr, p, p, k);
    WilderNonNegative(plusDm, p, p, k);
    WilderNonNegative(minusDm, p, p, k);
    DirectionalIndexNonNegative(Wilder(plusDm, p, p, k), Wilder(tr, p, p, k));
    DirectionalIndexNonNegative(Wilder(minusDm, p, p, k), Wilder(tr, p, p, k));
  }

  // ---------------------------------------------------------------------
  // Stochastic RSI

  /**
   * `100 * (rsi - min) / (max - min)` over the defined values of a window,
   * 50 when they are all equal, NaN when there are none.
   */
  function Stretch(v: Option<real>, vals: seq<real>): Option<real>
  {
    if |vals| == 0 then None
    else if Max(vals) == Min(vals) then Some(50.0)
    else if v.None? then None
    else Some(Scaled(v.value, Min(vals), Max(vals)))
  }

  /** Where x sits between lo and hi, on a scale of 0 to 100. */
  function Scaled(x: real, lo: real, hi: real): real
    requires lo != hi
  {
    100.0 * (x - lo) / (hi - lo)
  }

  /**
   * %K at row i over the last `sp` RSI values: NaN before a full window;
   * `nanmin`/`nanmax` ignore NaN (an all-NaN window gives NaN); a flat
   * window gives the neutral 50.
   */
  function StochKAt(rsi: seq<Option<real>>, sp: nat, i: nat): Option<real>
    requires sp >= 1 && i < |rsi|
  {
    if i + 1 < sp then None else Stretch(rsi[i], Present(rsi[i + 1 - sp..i + 1]))
  }

  /** A value inside the window is stretched into [0, 100]; 50 only when the window is flat. */
  lemma StretchRange(v: Option<real>, vals: seq<real>)
    requires v.Some? ==> v.value in vals
    ensures Stretch(v, vals).Some? ==> 0.0 <= Stretch(v, vals).value <= 100.0
    ensures |vals| > 0 && Min(vals) == Max(vals) ==> Stretch(v, vals) == Some(50.0)
  {
    if |vals| > 0 && Max(vals) != Min(vals) && v.Some? {
      var lo, hi, x := Min(vals), Max(vals), v.value;
      MinMaxOf(vals, x);
      ScaleWithin(x, lo, hi);
    }
  }

  lemma ScaleWithin(x: real, lo: real, hi: real)
    requires lo <= x <= hi && lo < hi
    ensures 0.0 <= Scaled(x, lo, hi) <= 100.0
  {
    DivBounds(100.0 * (x - lo), hi - lo, 0.0, 100.0);
  }

  /**
   * %K lies in [0, 100]: the current RSI is one of the window's values,
   * so it lies between their minimum and maximum.
   */
  lemma StochKRange(rsi: seq<Option<real>>, sp: nat, i: nat)
    requires sp >= 1 && i < |rsi|
    ensures StochKAt(rsi, sp, i).Some? ==> i + 1 >= sp
    ensures StochKAt(rsi, sp, i).Some? ==> 0.0 <= StochKAt(rsi, sp, i).value <= 100.0
  {
    if i + 1 >= sp {
      var w := rsi[i + 1 - sp..i + 1];
      assert w[|w| - 1] == rsi[i];
      if rsi[i].Some? {
        assert Some(rsi[i].value) in w;
      }
      StretchRange(rsi[i], Present(w));
    }
  }

  /** The %K loop: one value per row. */
  method StochK(rsi: seq<Option<real>>, sp: nat) returns (k: seq<Option<real>>)
    requires sp >= 1
    ensures |k| == |rsi| && forall j :: 0 <= j < |rsi| ==> k[j] == StochKAt(rsi, sp, j)
  {
    k := [];
    var i := 0;
    while i < |rsi|
      invariant 0 <= i <= |rsi| && |k| == i
      invariant forall j :: 0 <= j < i ==> k[j] == StochKAt(rsi, sp, j)
    {
      var value: Option<real> := None;
      if i + 1 >= sp {
        var vals := Present(rsi[i + 1 - sp..i + 1]);
        if |vals| > 0 {
          var lo, hi := Min(vals), Max(vals);
          if hi == lo {
            value := Some(50.0);
          } else if rsi[i].Some? {
            value := Some(Scaled(rsi[i].value, lo, hi));
          }
        }
        assert value == Stretch(rsi[i], vals);
      }
      assert value == StochKAt(rsi, sp, i);
      k := k + [value];
      i := i + 1;
    }
  }

  datatype StochColumns = StochColumns(k: seq<Option<real>>, d: seq<Option<real>>)

  /**
   * calculate_stochastic_rsi: RSI of the close (`RSI_temp`, dropped
   * afterwards), the %K loop, and %D as the min_periods=1 mean of the last
   * `d_period` %K values. `k_period` is accepted and never used. An empty
   * %K window (stoch_period 0 on a non-empty frame) makes `nanmin` raise;
   * a d_period of 0 makes pandas raise. %K is stored from a list, so by
   * position; %D is a Series on the default index 0..n-1, aligned on the
   * frame's labels: positional on the default RangeIndex, NaN throughout
   * on a DatetimeIndex.
   */
  method StochasticRsi(df: Frame, index: Index, rsiPeriod: nat, stochPeriod: nat, kPeriod: nat, dPeriod: nat)
    returns (r: Result<StochColumns>)
    requires IndexFits(df, index)
    ensures "close" !in df ==> r == Err(MissingColumn("close"))
    ensures "close" in df && stochPeriod == 0 && |df["close"]| > 0 ==> r == Err(EmptyReduction)
    ensures "close" in df && (stochPeriod >= 1 || |df["close"]| == 0) && dPeriod == 0 ==> r == Err(InvalidWindow)
    ensures r.Ok? ==> "close" in df && (stochPeriod >= 1 || |df["close"]| == 0) && dPeriod >= 1
    ensures r.Ok? ==> var x := df["close"];
      |r.value.k| == |r.value.d| == |x| &&
      (forall i :: 0 <= i < |x| ==> r.value.k[i] == StochKAt(RsiColumn(x, rsiPeriod), stochPeriod, i)) &&
      r.value.d == Aligned(index, StochD(r.value.k, dPeriod))
    ensures r.Ok? && !index.IntLabels? ==> forall i :: 0 <= i < |r.value.d| ==> r.value.d[i] == None
  {
    var rsiResult := Rsi(df, "close", rsiPeriod);
    assert Lower("close") == "close";
    if rsiResult.Err? {
      return Err(rsiResult.error);
    }
    var rsi := rsiResult.value;
    var n := |rsi|;
    if stochPeriod == 0 && n > 0 {
      return Err(EmptyReduction);
    }
    var k: seq<Option<real>> := [];
    if n > 0 {
      k := StochK(rsi, stochPeriod);
    }
    if dPeriod == 0 {
      return Err(InvalidWindow);
    }
    var d := seq(n, j requires 0 <= j < n => RollingMeanPresent(k, dPeriod, j));
    assert d == StochD(k, dPeriod);
    r := Ok(StochColumns(k, Aligned(index, d)));
    if !index.IntLabels? {
      AlignedLost(index, d);
    }
  }

  /** %D by position: the min_periods=1 mean of the last d_period %K values. */
  function StochD(k: seq<Option<real>>, dp: nat): (r: seq<Option<real>>)
    requires dp >= 1
    ensures |r| == |k|
  {
    seq(|k|, i requires 0 <= i < |k| => RollingMeanPresent(k, dp, i))
  }

  /** %D is a mean of %K values, so it also lies in [0, 100]. */
  lemma StochDRange(k: seq<Option<real>>, dp: nat, i: nat)
    requires dp >= 1 && i < |k|
    requires forall j :: 0 <= j < |k| && k[j].Some? ==> 0.0 <= k[j].value <= 100.0
    ensures RollingMeanPresent(k, dp, i).Some? ==> 0.0 <= RollingMeanPresent(k, dp, i).value <= 100.0
  {
    var vals := Present(Trailing(k, dp, i));
    if |vals| > 0 {
      forall j | 0 <= j < |vals|
        ensures 0.0 <= vals[j] <= 100.0
      {
        assert vals[j] in vals;
        assert Some(vals[j]) in Trailing(k, dp, i);
      }
      MeanWithin(vals, 0.0, 100.0);
    }
  }
}

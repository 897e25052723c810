/**
 * Volume indicators: the volume SMA, ratio and change, the daily VWAP,
 * the money flow index and the accumulation/distribution line.
 */
module Volume {
  import opened Common
  import opened Series
  import opened Smoothing

  /** The typical price (high + low + close) / 3 of every bar. */
  function TypicalPrices(high: seq<real>, low: seq<real>, close: seq<real>): (r: seq<real>)
    requires |high| == |low| == |close|
    ensures |r| == |high|
    ensures forall i :: 0 <= i < |high| ==> r[i] == (high[i] + low[i] + close[i]) / 3.0
  {
    seq(|high|, i requires 0 <= i < |high| => (high[i] + low[i] + close[i]) / 3.0)
  }

  /** A typical price lies inside its bar's range. */
  lemma TypicalPriceWithin(h: real, l: real, c: real)
    requires l <= c <= h
    ensures l <= (h + l + c) / 3.0 <= h
  {
  }

  // ---------------------------------------------------------------------
  // Basic volume columns

  datatype VolumeColumns = VolumeColumns(sma: seq<real>, ratio: seq<Float>, change: seq<Float>)

  /** The window of `{prefix}_SMA_20`. */
  const VolumeWindow: nat := 20

  /** `volume / sma` in float arithmetic: 0/0 is NaN and a non-zero volume over 0 is ±inf. */
  function Ratio(v: real, m: real): Float
  {
    Div(v, m)
  }

  /**
   * `pct_change()` at row i, that is x[i]/x[i-1] - 1: NaN at row 0; after
   * a zero volume NaN for 0 → 0 and ±inf otherwise, since subtracting 1
   * leaves an infinity or NaN as it is.
   */
  function PercentChange(x: seq<real>, i: nat): Float
    requires i < |x|
  {
    if i == 0 then NaN
    else match Div(x[i], x[i - 1])
      case Finite(q) => Finite(q - 1.0)
      case other => other
  }

  /** calculate_volume_indicators. */
  function VolumeIndicators(df: Frame): (r: Result<VolumeColumns>)
    ensures "volume" !in df <==> r == Err(MissingColumn("volume"))
    ensures r.Ok? ==> |r.value.sma| == |r.value.ratio| == |r.value.change| == |df["volume"]|
    ensures r.Ok? ==> r.value.sma == RollingMean(df["volume"], VolumeWindow)
    ensures r.Ok? ==> forall i :: 0 <= i < |df["volume"]| ==>
      r.value.ratio[i] == Ratio(df["volume"][i], r.value.sma[i]) &&
      r.value.change[i] == PercentChange(df["volume"], i)
  {
    if "volume" !in df then Err(MissingColumn("volume"))
    else
      var v := df["volume"];
      var sma := RollingMean(v, VolumeWindow);
      Ok(VolumeColumns(
        sma,
        seq(|v|, i requires 0 <= i < |v| => Ratio(v[i], sma[i])),
        seq(|v|, i requires 0 <= i < |v| => PercentChange(v, i))))
  }

  /** The SMA lies between the smallest and largest volume of its window. */
  lemma VolumeSmaBounds(df: Frame, i: nat)
    requires "volume" in df && i < |df["volume"]|
    ensures var v := df["volume"];
      Min(Trailing(v, VolumeWindow, i)) <= VolumeIndicators(df).value.sma[i] <= Max(Trailing(v, VolumeWindow, i))
  {
    RollingMeanBounds(df["volume"], VolumeWindow, i);
  }

  /** A ratio multiplies back into the volume, and a volume over itself is 1. */
  lemma RatioInverse(v: real, m: real)
    ensures Ratio(v, m).Finite? <==> m != 0.0
    ensures Ratio(v, m).Finite? ==> Ratio(v, m).v * m == v
    ensures m == 0.0 ==> (Ratio(v, m) == NaN <==> v == 0.0) && (Ratio(v, m) == PosInf <==> v > 0.0)
    ensures m != 0.0 ==> Ratio(m, m) == Finite(1.0)
  {
    if m != 0.0 {
      assert (v / m) * m == v;
      assert (m / m) * m == m * 1.0;
      CancelFactor(m / m, 1.0, m);
    }
  }

  /** At row 0 the SMA is the volume itself, so a non-zero first volume has ratio 1. */
  lemma VolumeFirstRow(df: Frame)
    requires "volume" in df && |df["volume"]| > 0
    ensures VolumeIndicators(df).value.sma[0] == df["volume"][0]
    ensures df["volume"][0] != 0.0 ==> VolumeIndicators(df).value.ratio[0] == Finite(1.0)
  {
    var v := df["volume"];
    assert Trailing(v, VolumeWindow, 0) == [v[0]];
    assert Sum([v[0]]) == Sum([]) + v[0];
    RatioInverse(v[0], v[0]);
  }

  /**
   * The change is finite exactly from row 1 after a non-zero volume, and
   * then multiplies back into the volume: v[i] == v[i-1]·(1 + change).
   * After a zero volume it is NaN for 0 → 0, +inf for a rise and -inf
   * for a fall.
   */
  lemma PercentChangeInverse(x: seq<real>, i: nat)
    requires i < |x|
    ensures PercentChange(x, i).Finite? <==> i > 0 && x[i - 1] != 0.0
    ensures PercentChange(x, i).Finite? ==> x[i - 1] * (1.0 + PercentChange(x, i).v) == x[i]
    ensures i == 0 ==> PercentChange(x, i) == NaN
    ensures i > 0 && x[i - 1] == 0.0 ==>
      (PercentChange(x, i) == NaN <==> x[i] == 0.0) &&
      (PercentChange(x, i) == PosInf <==> x[i] > 0.0) &&
      (PercentChange(x, i) == NegInf <==> x[i] < 0.0)
  {
    if i > 0 && x[i - 1] != 0.0 {
      var q := x[i] / x[i - 1];
      assert q * x[i - 1] == x[i];
      assert 1.0 + (q - 1.0) == q;
    }
  }

  // ---------------------------------------------------------------------
  // VWAP

  /** `x.groupby(date).cumsum()` at row j-1: the sum of x over rows k < j of day d. */
  function DaySum(x: seq<real>, days: seq<int>, d: int, j: nat): real
    requires |x| == |days| && j <= |x|
    decreases j
  {
    if j == 0 then 0.0 else DaySum(x, days, d, j - 1) + (if days[j - 1] == d then x[j - 1] else 0.0)
  }

  function Products(a: seq<real>, b: seq<real>): (r: seq<real>)
    requires |a| == |b|
    ensures |r| == |a| && forall i :: 0 <= i < |a| ==> r[i] == a[i] * b[i]
  {
    seq(|a|, i requires 0 <= i < |a| => a[i] * b[i])
  }

  /** Row i of VWAP: cumulative price·volume over cumulative volume within the row's day. */
  function VwapAt(tp: seq<real>, vol: seq<real>, days: seq<int>, i: nat): Option<real>
    requires |tp| == |vol| == |days| && i < |tp|
  {
    var v := DaySum(vol, days, days[i], i + 1);
    if v == 0.0 then None else Some(DaySum(Products(tp, vol), days, days[i], i + 1) / v)
  }

  /** calculate_vwap. */
  function Vwap(df: Frame, index: Index): (r: Result<seq<Option<real>>>)
    requires Rectangular(df)
    requires index.Dates? && "close" in df ==> |index.days| == |df["close"]|
    ensures !HasBars(df) ==> CheckColumns(df.Keys, BarColumns).Some? && r == Err(CheckColumns(df.Keys, BarColumns).value)
    ensures HasBars(df) && !index.Dates? ==> r == Err(NotDatetimeIndex)
    ensures HasBars(df) && index.Dates? ==> r.Ok? && |r.value| == |df["close"]|
    ensures HasBars(df) && index.Dates? ==> forall i :: 0 <= i < |r.value| ==>
        r.value[i] == VwapAt(TypicalPrices(df["high"], df["low"], df["close"]), df["volume"], index.days, i)
  {
    BarCheck(df);
    var missing := CheckColumns(df.Keys, BarColumns);
    if missing.Some? then Err(missing.value)
    else if !index.Dates? then Err(NotDatetimeIndex)
    else
      var tp := TypicalPrices(df["high"], df["low"], df["close"]);
      Ok(seq(|tp|, i requires 0 <= i < |tp| => VwapAt(tp, df["volume"], index.days, i)))
  }

  lemma {:induction false} DaySumOtherDays(x: seq<real>, days: seq<int>, d: int, j: nat)
    requires |x| == |days| && j <= |x|
    requires forall k :: 0 <= k < j ==> days[k] != d
    ensures DaySum(x, days, d, j) == 0.0
    decreases j
  {
    if j > 0 {
      DaySumOtherDays(x, days, d, j - 1);
    }
  }

  /**
   * VWAP restarts with each day: at the first row of a day with non-zero
   * volume it is that row's typical price.
   */
  lemma VwapFirstBar(tp: seq<real>, vol: seq<real>, days: seq<int>, i: nat)
    requires |tp| == |vol| == |days| && i < |tp|
    requires forall k :: 0 <= k < i ==> days[k] != days[i]
    requires vol[i] != 0.0
    ensures VwapAt(tp, vol, days, i) == Some(tp[i])
  {
    DaySumOtherDays(vol, days, days[i], i);
    DaySumOtherDays(Products(tp, vol), days, days[i], i);
    assert DaySum(vol, days, days[i], i + 1) == vol[i];
    assert DaySum(Products(tp, vol), days, days[i], i + 1) == tp[i] * vol[i];
    assert VwapAt(tp, vol, days, i) == Some(tp[i] * vol[i] / vol[i]);
    ProductOver(tp[i], vol[i]);
    assert tp[i] * vol[i] / vol[i] == tp[i];
  }

  lemma ProductOver(t: real, v: real)
    requires v != 0.0
    ensures t * v / v == t
  {
    assert (t * v / v) * v == t * v;
    CancelFactor(t * v / v, t, v);
  }

  lemma WeightedWithin(t: real, v: real, lo: real, hi: real)
    requires v >= 0.0 && lo <= t <= hi
    ensures lo * v <= t * v <= hi * v
  {
    assert (t - lo) * v >= 0.0;
    assert (hi - t) * v >= 0.0;
  }

  /** With non-negative volumes, the day's cumulative price·volume lies between lo·volume and hi·volume. */
  lemma DaySumWeighted(tp: seq<real>, vol: seq<real>, days: seq<int>, d: int, j: nat, lo: real, hi: real)
    requires |tp| == |vol| == |days| && j <= |tp|
    requires forall k :: 0 <= k < j && days[k] == d ==> vol[k] >= 0.0 && lo <= tp[k] <= hi
    ensures lo * DaySum(vol, days, d, j) <= DaySum(Products(tp, vol), days, d, j) <= hi * DaySum(vol, days, d, j)
    ensures DaySum(vol, days, d, j) >= 0.0
  {
    var p := Products(tp, vol);
    forall k | 0 <= k < j && days[k] == d
      ensures Within(vol[k], p[k], lo, hi)
    {
      WeightedWithin(tp[k], vol[k], lo, hi);
      assert p[k] == tp[k] * vol[k];
    }
    DaySumBounded(vol, p, days, d, j, lo, hi);
    assert Within(DaySum(vol, days, d, j), DaySum(p, days, d, j), lo, hi);
    DaySumNonNegative(vol, days, d, j);
  }

  /** y lies within [lo·x, hi·x]. */
  predicate Within(x: real, y: real, lo: real, hi: real)
  {
    lo * x <= y <= hi * x
  }

  /** Day sums of terms each within [lo·x, hi·x] lie within [lo·Σx, hi·Σx]. */
  lemma {:induction false} DaySumBounded(x: seq<real>, y: seq<real>, days: seq<int>, d: int, j: nat, lo: real, hi: real)
    requires |x| == |y| == |days| && j <= |x|
    requires forall k {:trigger Within(x[k], y[k], lo, hi)} :: 0 <= k < j && days[k] == d ==> Within(x[k], y[k], lo, hi)
    ensures Within(DaySum(x, days, d, j), DaySum(y, days, d, j), lo, hi)
    decreases j
  {
    if j > 0 {
      DaySumBounded(x, y, days, d, j - 1, lo, hi);
      if days[j - 1] == d {
        assert Within(x[j - 1], y[j - 1], lo, hi);
        AddWithin(DaySum(x, days, d, j - 1), DaySum(y, days, d, j - 1), x[j - 1], y[j - 1], lo, hi,
          DaySum(x, days, d, j), DaySum(y, days, d, j));
      } else {
        assert DaySum(x, days, d, j) == DaySum(x, days, d, j - 1) && DaySum(y, days, d, j) == DaySum(y, days, d, j - 1);
      }
    }
  }

  /** Adding a term within [lo·x, hi·x] to a sum within [lo·v, hi·v] keeps the bounds. */
  lemma AddWithin(v: real, s: real, x: real, y: real, lo: real, hi: real, v': real, s': real)
    requires Within(v, s, lo, hi) && Within(x, y, lo, hi)
    requires v' == v + x && s' == s + y
    ensures Within(v', s', lo, hi)
  {
    assert lo * v' == lo * v + lo * x;
    assert hi * v' == hi * v + hi * x;
  }

  /** Day sums of non-negative terms are non-negative. */
  lemma {:induction false} DaySumNonNegative(x: seq<real>, days: seq<int>, d: int, j: nat)
    requires |x| == |days| && j <= |x|
    requires forall k :: 0 <= k < j && days[k] == d ==> x[k] >= 0.0
    ensures DaySum(x, days, d, j) >= 0.0
    decreases j
  {
    if j > 0 {
      DaySumNonNegative(x, days, d, j - 1);
    }
  }

  /**
   * With positive volumes VWAP is defined and lies between any bounds of
   * the typical prices of the day's rows so far, in particular between
   * their minimum and maximum.
   */
  lemma VwapWithin(tp: seq<real>, vol: seq<real>, days: seq<int>, i: nat, lo: real, hi: real)
    requires |tp| == |vol| == |days| && i < |tp|
    requires forall k :: 0 <= k <= i && days[k] == days[i] ==> vol[k] > 0.0 && lo <= tp[k] <= hi
    ensures VwapAt(tp, vol, days, i).Some?
    ensures lo <= VwapAt(tp, vol, days, i).value <= hi
  {
    var d := days[i];
    DaySumWeighted(tp, vol, days, d, i, lo, hi);
    DaySumWeighted(tp, vol, days, d, i + 1, lo, hi);
    var v := DaySum(vol, days, d, i + 1);
    assert v == DaySum(vol, days, d, i) + vol[i];
    DivBounds(DaySum(Products(tp, vol), days, d, i + 1), v, lo, hi);
  }

  // ---------------------------------------------------------------------
  // MFI

  /** `raw_money_flow.where(tp_change > 0, 0)`; row 0 has a NaN change and gets 0. */
  function PositiveFlows(tp: seq<real>, vol: seq<real>): (r: seq<real>)
    requires |tp| == |vol|
    ensures |r| == |tp|
    ensures forall i :: 0 <= i < |tp| ==> r[i] == if i > 0 && tp[i] - tp[i - 1] > 0.0 then tp[i] * vol[i] else 0.0
  {
    seq(|tp|, i requires 0 <= i < |tp| => if i > 0 && tp[i] - tp[i - 1] > 0.0 then tp[i] * vol[i] else 0.0)
  }

  /** `raw_money_flow.where(tp_change < 0, 0)`. */
  function NegativeFlows(tp: seq<real>, vol: seq<real>): (r: seq<real>)
    requires |tp| == |vol|
    ensures |r| == |tp|
    ensures forall i :: 0 <= i < |tp| ==> r[i] == if i > 0 && tp[i] - tp[i - 1] < 0.0 then tp[i] * vol[i] else 0.0
  {
    seq(|tp|, i requires 0 <= i < |tp| => if i > 0 && tp[i] - tp[i - 1] < 0.0 then tp[i] * vol[i] else 0.0)
  }

  /**
   * A bar's money flow goes to at most one side; an unchanged typical
   * price, and row 0, contribute to neither; otherwise the whole raw flow
   * goes to the side of the change.
   */
  lemma FlowsExclusive(tp: seq<real>, vol: seq<real>, i: nat)
    requires |tp| == |vol| && i < |tp|
    ensures PositiveFlows(tp, vol)[i] == 0.0 || NegativeFlows(tp, vol)[i] == 0.0
    ensures i == 0 || tp[i] == tp[i - 1] ==> PositiveFlows(tp, vol)[i] == 0.0 && NegativeFlows(tp, vol)[i] == 0.0
    ensures i > 0 && tp[i] != tp[i - 1] ==> PositiveFlows(tp, vol)[i] + NegativeFlows(tp, vol)[i] == tp[i] * vol[i]
  {
  }

  function AvgPositiveFlow(tp: seq<real>, vol: seq<real>, p: nat, i: nat): Option<real>
    requires |tp| == |vol| && i < |tp|
  {
    Wilder(Lift(PositiveFlows(tp, vol)), p, p, i)
  }

  function AvgNegativeFlow(tp: seq<real>, vol: seq<real>, p: nat, i: nat): Option<real>
    requires |tp| == |vol| && i < |tp|
  {
    Wilder(Lift(NegativeFlows(tp, vol)), p, p, i)
  }

  /** Row i of MFI: `100 - 100 / (1 + positive / negative)`. */
  function MfiAt(tp: seq<real>, vol: seq<real>, p: nat, i: nat): Option<real>
    requires |tp| == |vol| && i < |tp|
  {
    Oscillator(AvgPositiveFlow(tp, vol, p, i), AvgNegativeFlow(tp, vol, p, i))
  }

  /** calculate_mfi: the flows, their seed-then-Wilder averages, and the oscillator. */
  method Mfi(df: Frame, period: nat) returns (r: Result<seq<Option<real>>>)
    requires Rectangular(df)
    ensures !HasBars(df) ==> CheckColumns(df.Keys, BarColumns).Some? && r == Err(CheckColumns(df.Keys, BarColumns).value)
    ensures HasBars(df) ==> r.Ok? && |r.value| == |df["close"]|
    ensures HasBars(df) ==> forall i :: 0 <= i < |r.value| ==>
      r.value[i] == MfiAt(TypicalPrices(df["high"], df["low"], df["close"]), df["volume"], period, i)
  {
    var missing := CheckColumns(df.Keys, BarColumns);
    BarCheck(df);
    if missing.Some? {
      return Err(missing.value);
    }
    var tp := TypicalPrices(df["high"], df["low"], df["close"]);
    var vol := df["volume"];
    var positiveAvg := WilderAverage(Lift(PositiveFlows(tp, vol)), period, period);
    var negativeAvg := WilderAverage(Lift(NegativeFlows(tp, vol)), period, period);
    var mfi := seq(|tp|, i requires 0 <= i < |tp| => Oscillator(positiveAvg[i], negativeAvg[i]));
    assert forall i :: 0 <= i < |tp| ==> mfi[i] == MfiAt(tp, vol, period, i);
    r := Ok(mfi);
  }

  /**
   * With non-negative prices and volumes, both averages are NaN before row
   * period - 1 and defined from there on; MFI then lies in [0, 100], and
   * below 100 whenever the negative average is positive.
   */
  lemma MfiRange(tp: seq<real>, vol: seq<real>, p: nat, i: nat)
    requires |tp| == |vol| && p >= 1 && i < |tp|
    requires forall k :: 0 <= k < |tp| ==> tp[k] >= 0.0 && vol[k] >= 0.0
    ensures AvgPositiveFlow(tp, vol, p, i).Some? <==> i + 1 >= p
    ensures AvgNegativeFlow(tp, vol, p, i).Some? <==> i + 1 >= p
    ensures MfiAt(tp, vol, p, i).Some? ==> 0.0 <= MfiAt(tp, vol, p, i).value <= 100.0
    ensures i + 1 >= p && AvgNegativeFlow(tp, vol, p, i).value > 0.0 ==>
      MfiAt(tp, vol, p, i).Some? && MfiAt(tp, vol, p, i).value < 100.0
  {
    var pos := Lift(PositiveFlows(tp, vol));
    var neg := Lift(NegativeFlows(tp, vol));
    WilderDefined(pos, p, p, 0, i);
    WilderDefined(neg, p, p, 0, i);
    forall k | 0 <= k < |tp|
      ensures tp[k] * vol[k] >= 0.0
    {
      WeightedWithin(tp[k], vol[k], 0.0, tp[k]);
    }
    WilderNonNegative(pos, p, p, i);
    WilderNonNegative(neg, p, p, i);
    if i + 1 >= p {
      OscillatorShare(Wilder(pos, p, p, i).value, Wilder(neg, p, p, i).value);
    }
  }

  // ---------------------------------------------------------------------
  // Accumulation / distribution

  /** The money-flow multiplier; a zero range becomes NaN and then 0. */
  function Multiplier(h: real, l: real, c: real): real
  {
    if h - l == 0.0 then 0.0 else ((c - l) - (h - c)) / (h - l)
  }

  /** A close inside the bar's range gives a multiplier in [-1, 1]. */
  lemma MultiplierRange(h: real, l: real, c: real)
    requires l <= c <= h
    ensures -1.0 <= Multiplier(h, l, c) <= 1.0
    ensures h == l ==> Multiplier(h, l, c) == 0.0
  {
    if h != l {
      DivBounds((c - l) - (h - c), h - l, -1.0, 1.0);
    }
  }

  /** `mfv.cumsum()`. */
  function RunningTotal(s: seq<real>): (r: seq<real>)
    ensures |r| == |s| && forall i :: 0 <= i < |s| ==> r[i] == Sum(s[..i + 1])
  {
    seq(|s|, i requires 0 <= i < |s| => Sum(s[..i + 1]))
  }

  /** calculate_ad. */
  function Ad(df: Frame): (r: Result<seq<real>>)
    requires Rectangular(df)
    ensures !HasBars(df) ==> CheckColumns(df.Keys, BarColumns).Some? && r == Err(CheckColumns(df.Keys, BarColumns).value)
    ensures HasBars(df) ==> r.Ok? && |r.value| == |df["close"]|
  {
    BarCheck(df);
    var missing := CheckColumns(df.Keys, BarColumns);
    if missing.Some? then Err(missing.value)
    else
      var h, l, c, v := df["high"], df["low"], df["close"], df["volume"];
      var mfv := seq(|c|, i requires 0 <= i < |c| => Multiplier(h[i], l[i], c[i]) * v[i]);
      Ok(RunningTotal(mfv))
  }

  /** The line starts at the first bar's flow and moves by each bar's flow. */
  lemma AdSteps(df: Frame, i: nat)
    requires Rectangular(df) && HasBars(df) && i < |df["close"]|
    ensures var ad := Ad(df).value; var h, l, c, v := df["high"], df["low"], df["close"], df["volume"];
      (i == 0 ==> ad[0] == Multiplier(h[0], l[0], c[0]) * v[0]) &&
      (i > 0 ==> ad[i] - ad[i - 1] == Multiplier(h[i], l[i], c[i]) * v[i])
  {
    var h, l, c, v := df["high"], df["low"], df["close"], df["volume"];
    var mfv := seq(|c|, k requires 0 <= k < |c| => Multiplier(h[k], l[k], c[k]) * v[k]);
    assert Ad(df).value == RunningTotal(mfv);
    assert mfv[..i + 1][..i] == mfv[..i];
    if i == 0 {
      assert Sum(mfv[..1]) == Sum(mfv[..0]) + mfv[0];
    }
  }
}

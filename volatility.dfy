/**
 * Volatility indicators: true range and its Wilder average (ATR), and
 * Bollinger bands around the simple moving average. The rolling standard
 * deviation of the bands is not computed here: it is an input column.
 */
module Volatility {
  import opened Common
  import opened Series
  import opened Smoothing

  /** The true range of bar i; bar 0 has no previous close. */
  function TrueRangeAt(high: seq<real>, low: seq<real>, close: seq<real>, i: nat): real
    requires |high| == |low| == |close| && i < |high|
  {
    if i == 0 then high[i] - low[i]
    else Max2(high[i] - low[i], Max2(Abs(high[i] - close[i - 1]), Abs(low[i] - close[i - 1])))
  }

  /** The `tr_list` loop: one true range per bar, appended in order. */
  method TrueRange(high: seq<real>, low: seq<real>, close: seq<real>) returns (tr: seq<real>)
    requires |high| == |low| == |close|
    ensures |tr| == |high|
    ensures forall i :: 0 <= i < |high| ==> tr[i] == TrueRangeAt(high, low, close, i)
  {
    tr := [];
    var i := 0;
    while i < |high|
      invariant 0 <= i <= |high| && |tr| == i
      invariant forall k :: 0 <= k < i ==> tr[k] == TrueRangeAt(high, low, close, k)
    {
      var r;
      if i == 0 {
        r := high[i] - low[i];
      } else {
        var tr1 := high[i] - low[i];
        var tr2 := Abs(high[i] - close[i - 1]);
        var tr3 := Abs(low[i] - close[i - 1]);
        r := Max2(tr1, Max2(tr2, tr3));
      }
      tr := tr + [r];
      i := i + 1;
    }
  }

  /**
   * The true range covers the bar's own range, and for a bar with
   * low <= high it is the distance from min(low, previous close) to
   * max(high, previous close), hence never negative.
   */
  lemma TrueRangeSpan(high: seq<real>, low: seq<real>, close: seq<real>, i: nat)
    requires |high| == |low| == |close| && i < |high|
    requires low[i] <= high[i]
    ensures TrueRangeAt(high, low, close, i) >= high[i] - low[i] >= 0.0
    ensures i > 0 ==>
      TrueRangeAt(high, low, close, i) == Max2(high[i], close[i - 1]) - Min2(low[i], close[i - 1])
  {
  }

  /** The ATR of calculate_atr with seed row `period`. */
  function AtrColumn(high: seq<real>, low: seq<real>, close: seq<real>, period: nat): (r: seq<Option<real>>)
    requires |high| == |low| == |close|
    ensures |r| == |close| && forall i :: 0 <= i < |close| ==> r[i] == Wilder(Lift(TrueRanges(high, low, close)), period, period, i)
  {
    seq(|close|, i requires 0 <= i < |close| => Wilder(Lift(TrueRanges(high, low, close)), period, period, i))
  }

  /**
   * calculate_atr: the required columns, then the true range smoothed by
   * Wilder's method with seed row `period` (the loop skips `i == period`,
   * so that row keeps the rolling mean of TR[1..period]). The average is a
   * Series on the default index 0..n-1, and `df[output_column] = atr`
   * aligns it on the frame's labels: positional on the default RangeIndex,
   * NaN throughout on a DatetimeIndex.
   */
  method Atr(df: Frame, index: Index, period: nat) returns (r: Result<seq<Option<real>>>)
    requires Rectangular(df) && IndexFits(df, index)
    ensures !HasPrices(df) ==> CheckColumns(df.Keys, PriceColumns).Some? && r == Err(CheckColumns(df.Keys, PriceColumns).value)
    ensures HasPrices(df) ==> r.Ok? && |r.value| == |df["close"]|
    ensures HasPrices(df) ==> r.value == Aligned(index, AtrColumn(df["high"], df["low"], df["close"], period))
    ensures HasPrices(df) && !index.IntLabels? ==> forall i :: 0 <= i < |r.value| ==> r.value[i] == None
  {
    var missing := CheckColumns(df.Keys, PriceColumns);
    PriceCheck(df);
    if missing.Some? {
      return Err(missing.value);
    }
    var tr := TrueRange(df["high"], df["low"], df["close"]);
    assert tr == TrueRanges(df["high"], df["low"], df["close"]);
    var atr := WilderAverage(Lift(tr), period, period);
    assert atr == AtrColumn(df["high"], df["low"], df["close"], period);
    r := Ok(Aligned(index, atr));
    if !index.IntLabels? {
      AlignedLost(index, atr);
    }
  }

  function TrueRanges(high: seq<real>, low: seq<real>, close: seq<real>): (r: seq<real>)
    requires |high| == |low| == |close|
    ensures |r| == |high| && forall i :: 0 <= i < |high| ==> r[i] == TrueRangeAt(high, low, close, i)
  {
    seq(|high|, i requires 0 <= i < |high| => TrueRangeAt(high, low, close, i))
  }

  /**
   * ATR is NaN on the first period - 1 rows and defined from row
   * period - 1 on, and on bars with low <= high it is never negative.
   */
  lemma AtrShape(high: seq<real>, low: seq<real>, close: seq<real>, period: nat, i: nat)
    requires |high| == |low| == |close| && i < |high| && period >= 1
    requires forall k :: 0 <= k < |high| ==> low[k] <= high[k]
    ensures Wilder(Lift(TrueRanges(high, low, close)), period, period, i).Some? <==> i + 1 >= period
    ensures Wilder(Lift(TrueRanges(high, low, close)), period, period, i).Some? ==>
      Wilder(Lift(TrueRanges(high, low, close)), period, period, i).value >= 0.0
  {
    var x := Lift(TrueRanges(high, low, close));
    WilderDefined(x, period, period, 0, i);
    var top := TrueRanges(high, low, close);
    var hi := if |top| == 0 then 0.0 else Max(top);
    forall k | 0 <= k < |x| && x[k].Some?
      ensures 0.0 <= x[k].value <= hi
    {
      TrueRangeSpan(high, low, close, k);
    }
    WilderWithin(x, period, period, 0.0, hi, i);
  }

  /**
   * Two daily bars indexed by date: the positional ATR of period 1 is
   * defined on both rows, yet the column calculate_atr stores is NaN on both.
   */
  lemma DatedFrameLosesAtr()
    ensures var h, l, c := [2.0, 3.0], [1.0, 1.0], [1.5, 2.0];
      AtrColumn(h, l, c, 1)[0].Some? && AtrColumn(h, l, c, 1)[1].Some? &&
      Aligned(Dates([20240102, 20240103]), AtrColumn(h, l, c, 1)) == [None, None]
  {
    var h, l, c := [2.0, 3.0], [1.0, 1.0], [1.5, 2.0];
    AtrShape(h, l, c, 1, 0);
    AtrShape(h, l, c, 1, 1);
    AlignedLost(Dates([20240102, 20240103]), AtrColumn(h, l, c, 1));
  }

  // ---------------------------------------------------------------------
  // Bollinger bands

  datatype Bands = Bands(
    upper: seq<Option<real>>,
    middle: seq<real>,
    lower: seq<Option<real>>,
    width: seq<Option<real>>,
    percentB: seq<Option<real>>)

  function Shifted(m: real, s: Option<real>, k: real): Option<real>
  {
    if s.Some? then Some(m + s.value * k) else None
  }

  function Gap(u: Option<real>, l: Option<real>): Option<real>
  {
    if u.Some? && l.Some? then Some(u.value - l.value) else None
  }

  /** (x - lower)/(upper - lower), with ±inf and NaN both replaced by NaN. */
  function PercentB(x: real, u: Option<real>, l: Option<real>): Option<real>
  {
    if u.Some? && l.Some? && u.value - l.value != 0.0 then Some((x - l.value) / (u.value - l.value)) else None
  }

  /**
   * calculate_bollinger_bands with `std` standing for
   * `rolling(window=period, min_periods=1).std()` of the same column.
   */
  function Bollinger(df: Frame, column: string, period: nat, stdDev: real, std: seq<Option<real>>): (r: Result<Bands>)
    requires Lower(column) in df ==> |std| == |df[Lower(column)]|
    ensures Lower(column) !in df ==> r == Err(MissingColumn(Lower(column)))
    ensures Lower(column) in df && period == 0 ==> r == Err(InvalidWindow)
    ensures r.Ok? ==> Lower(column) in df && period >= 1
    ensures r.Ok? ==> var n := |df[Lower(column)]|;
      |r.value.upper| == |r.value.middle| == |r.value.lower| == |r.value.width| == |r.value.percentB| == n
    ensures r.Ok? ==> r.value.middle == RollingMean(df[Lower(column)], period)
  {
    if Lower(column) !in df then Err(MissingColumn(Lower(column)))
    else if period == 0 then Err(InvalidWindow)
    else
      var x := df[Lower(column)];
      var mid := RollingMean(x, period);
      var up := seq(|x|, i requires 0 <= i < |x| => Shifted(mid[i], std[i], stdDev));
      var lo := seq(|x|, i requires 0 <= i < |x| => Shifted(mid[i], std[i], -stdDev));
      var w := seq(|x|, i requires 0 <= i < |x| => Gap(up[i], lo[i]));
      var pb := seq(|x|, i requires 0 <= i < |x| => PercentB(x[i], up[i], lo[i]));
      Ok(Bands(up, mid, lo, w, pb))
  }

  lemma BandsAround(m: real, sd: real, k: real)
    ensures Shifted(m, Some(sd), k).value - m == m - Shifted(m, Some(sd), -k).value == sd * k
    ensures Gap(Shifted(m, Some(sd), k), Shifted(m, Some(sd), -k)) == Some(2.0 * sd * k)
  {
  }

  lemma PercentBEnds(x: real, u: Option<real>, l: Option<real>)
    ensures PercentB(x, u, l).Some? ==>
      (PercentB(x, u, l).value == 0.0 <==> x == l.value) &&
      (PercentB(x, u, l).value == 1.0 <==> x == u.value)
  {
    if PercentB(x, u, l).Some? {
      var d := u.value - l.value;
      var q := (x - l.value) / d;
      assert q * d == x - l.value;
      assert PercentB(x, u, l).value == q;
      if q == 1.0 {
        assert x - l.value == d;
      }
      if x == u.value {
        assert x - l.value == d;
        assert q == d / d;
        assert d / d == 1.0;
      }
    }
  }

  /**
   * The bands sit symmetrically around the middle band at std·std_dev,
   * the width is upper - lower = 2·std·std_dev, and %B is 0 exactly at the
   * lower band and 1 exactly at the upper band (NaN when the bands meet).
   */
  lemma BollingerShape(df: Frame, column: string, period: nat, stdDev: real, std: seq<Option<real>>, i: nat)
    requires Lower(column) in df && |std| == |df[Lower(column)]|
    requires Bollinger(df, column, period, stdDev, std).Ok? && i < |std|
    ensures var b := Bollinger(df, column, period, stdDev, std).value;
      (b.upper[i].Some? <==> std[i].Some?) && (b.lower[i].Some? <==> std[i].Some?) &&
      (std[i].Some? ==>
        b.upper[i].value - b.middle[i] == b.middle[i] - b.lower[i].value == std[i].value * stdDev &&
        b.width[i] == Some(b.upper[i].value - b.lower[i].value) &&
        b.width[i].value == 2.0 * std[i].value * stdDev)
    ensures var b := Bollinger(df, column, period, stdDev, std).value;
      var x := df[Lower(column)][i];
      b.percentB[i].Some? ==>
        (b.percentB[i].value == 0.0 <==> x == b.lower[i].value) &&
        (b.percentB[i].value == 1.0 <==> x == b.upper[i].value)
  {
    var b := Bollinger(df, column, period, stdDev, std).value;
    var x := df[Lower(column)][i];
    assert b.upper[i] == Shifted(b.middle[i], std[i], stdDev);
    assert b.lower[i] == Shifted(b.middle[i], std[i], -stdDev);
    assert b.width[i] == Gap(b.upper[i], b.lower[i]);
    assert b.percentB[i] == PercentB(x, b.upper[i], b.lower[i]);
    if std[i].Some? {
      BandsAround(b.middle[i], std[i].value, stdDev);
    }
    PercentBEnds(x, b.upper[i], b.lower[i]);
  }
}

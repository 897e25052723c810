/**
 * SuperTrend: ATR bands around the bar midpoint and a per-bar state
 * machine that picks one of them (or the close) as a trailing stop.
 * NaN bands (the ATR's warm-up rows) make every comparison with them
 * false, as numpy comparisons with NaN are.
 */
module SuperTrend {
  import opened Common
  import opened Series
  import opened Smoothing
  import Volatility

  /** `a < b` on values that may be NaN. */
  predicate Below(a: Option<real>, b: Option<real>)
  {
    a.Some? && b.Some? && a.value < b.value
  }

  /** `hl_avg ± multiplier·ATR`. */
  function Band(h: real, l: real, atr: Option<real>, k: real): Option<real>
  {
    if atr.Some? then Some((h + l) / 2.0 + k * atr.value) else None
  }

  /** The bands are symmetric around (high + low) / 2 at multiplier·ATR. */
  lemma BandsSymmetric(h: real, l: real, atr: real, m: real)
    ensures Band(h, l, Some(atr), m).value - (h + l) / 2.0 == (h + l) / 2.0 - Band(h, l, Some(atr), -m).value == m * atr
  {
  }

  datatype Decision = Decision(st: Option<real>, trend: int)

  /**
   * Bar i >= 1: a provisional side from the close against the previous
   * SuperTrend, the clamp that keeps the line from crossing the close, and
   * at most one flip when the close breaks the band.
   */
  function Decide(prev: Option<real>, c: real, upper: Option<real>, lower: Option<real>): Decision
  {
    var provisional := if prev.Some? && c <= prev.value then Decision(upper, -1) else Decision(lower, 1);
    var clamped :=
      if provisional.trend == 1 && Below(Some(c), provisional.st) then Decision(Some(c), 1)
      else if provisional.trend == -1 && Below(provisional.st, Some(c)) then Decision(Some(c), -1)
      else provisional;
    if clamped.trend == 1 && Below(Some(c), lower) then Decision(upper, -1)
    else if clamped.trend == -1 && Below(upper, Some(c)) then Decision(lower, 1)
    else clamped
  }

  /** The SuperTrend value and trend of bar i; bar 0 starts bearish at the upper band. */
  function Run(close: seq<real>, upper: seq<Option<real>>, lower: seq<Option<real>>, i: nat): Decision
    requires |close| == |upper| == |lower| && i < |close|
    decreases i
  {
    if i == 0 then Decision(upper[0], -1) else Decide(Run(close, upper, lower, i - 1).st, close[i], upper[i], lower[i])
  }

  /** The body of the loop for bar i >= 1, writing and then overwriting the bar's two entries. */
  method DecideStep(prev: Option<real>, c: real, upper: Option<real>, lower: Option<real>) returns (st: Option<real>, trend: int)
    ensures Decision(st, trend) == Decide(prev, c, upper, lower)
  {
    if prev.Some? && c <= prev.value {
      st, trend := upper, -1;
    } else {
      st, trend := lower, 1;
    }
    if trend == 1 && st.Some? && st.value > c {
      st := Some(c);
    } else if trend == -1 && st.Some? && st.value < c {
      st := Some(c);
    }
    if trend == 1 && lower.Some? && c < lower.value {
      st, trend := upper, -1;
    } else if trend == -1 && upper.Some? && c > upper.value {
      st, trend := lower, 1;
    }
  }

  /** The loop of calculate_supertrend over the two output arrays. */
  method SuperTrendLoop(close: seq<real>, upper: seq<Option<real>>, lower: seq<Option<real>>)
    returns (line: seq<Option<real>>, direction: seq<int>)
    requires |close| == |upper| == |lower|
    ensures |line| == |direction| == |close|
    ensures forall i :: 0 <= i < |close| ==> Decision(line[i], direction[i]) == Run(close, upper, lower, i)
  {
    var n := |close|;
    var supertrend := new Option<real>[n](_ => None);
    var trend := new int[n](_ => 0);
    var i := 0;
    while i < n
      invariant 0 <= i <= n
      invariant forall k :: 0 <= k < i ==> Decision(supertrend[k], trend[k]) == Run(close, upper, lower, k)
    {
      if i == 0 {
        supertrend[i] := upper[i];
        trend[i] := -1;
      } else {
        var st, t := DecideStep(supertrend[i - 1], close[i], upper[i], lower[i]);
        supertrend[i] := st;
        trend[i] := t;
      }
      i := i + 1;
    }
    line, direction := supertrend[..], trend[..];
  }

  datatype SuperTrendColumns = SuperTrendColumns(line: seq<Option<real>>, trend: seq<int>)

  function Bands(high: seq<real>, low: seq<real>, atr: seq<Option<real>>, k: real): (r: seq<Option<real>>)
    requires |high| == |low| == |atr|
    ensures |r| == |high| && forall i :: 0 <= i < |high| ==> r[i] == Band(high[i], low[i], atr[i], k)
  {
    seq(|high|, i requires 0 <= i < |high| => Band(high[i], low[i], atr[i], k))
  }

  /**
   * calculate_supertrend: the bands are read from the temporary ATR column
   * as calculate_atr stored it, that is aligned on the frame's index; that
   * column is not part of the result.
   */
  method CalculateSuperTrend(df: Frame, index: Index, period: nat, multiplier: real) returns (r: Result<SuperTrendColumns>)
    requires Rectangular(df) && IndexFits(df, index)
    ensures !HasPrices(df) ==> CheckColumns(df.Keys, PriceColumns).Some? && r == Err(CheckColumns(df.Keys, PriceColumns).value)
    ensures HasPrices(df) ==> r.Ok? && |r.value.line| == |r.value.trend| == |df["close"]|
    ensures HasPrices(df) ==> var h, l, c := df["high"], df["low"], df["close"];
      var atr := Aligned(index, Volatility.AtrColumn(h, l, c, period));
      forall i :: 0 <= i < |c| ==>
        Decision(r.value.line[i], r.value.trend[i]) == Run(c, Bands(h, l, atr, multiplier), Bands(h, l, atr, -multiplier), i)
  {
    var missing := CheckColumns(df.Keys, PriceColumns);
    PriceCheck(df);
    if missing.Some? {
      return Err(missing.value);
    }
    var atrResult := Volatility.Atr(df, index, period);
    var h, l, c := df["high"], df["low"], df["close"];
    var atr := atrResult.value;
    var line, direction := SuperTrendLoop(c, Bands(h, l, atr, multiplier), Bands(h, l, atr, -multiplier));
    r := Ok(SuperTrendColumns(line, direction));
  }

  // ---------------------------------------------------------------------
  // Properties

  /**
   * A decision is bearish or bullish, and its line is the upper band, the
   * lower band or the close.
   */
  lemma DecideShape(prev: Option<real>, c: real, upper: Option<real>, lower: Option<real>)
    ensures var d := Decide(prev, c, upper, lower);
      (d.trend == 1 || d.trend == -1) && (d.st == upper || d.st == lower || d.st == Some(c))
  {
  }

  /**
   * With both bands defined and the lower one not above the upper one, a
   * bullish bar's line is at or below its close and a bearish bar's line
   * at or above it: the stop sits on the side of price the trend implies.
   */
  lemma DecideSide(prev: Option<real>, c: real, upper: real, lower: real)
    requires lower <= upper
    ensures var d := Decide(prev, c, Some(upper), Some(lower));
      d.st.Some? && (d.trend == 1 ==> d.st.value <= c) && (d.trend == -1 ==> d.st.value >= c)
  {
  }

  /** Every bar's trend is 1 or -1 and its line is one of its bands or its close; bar 0 is bearish at the upper band. */
  lemma RunShape(close: seq<real>, upper: seq<Option<real>>, lower: seq<Option<real>>, i: nat)
    requires |close| == |upper| == |lower| && i < |close|
    ensures var d := Run(close, upper, lower, i);
      (d.trend == 1 || d.trend == -1) &&
      (d.st == upper[i] || d.st == lower[i] || (i > 0 && d.st == Some(close[i]))) &&
      (i == 0 ==> d == Decision(upper[0], -1))
  {
    if i > 0 {
      DecideShape(Run(close, upper, lower, i - 1).st, close[i], upper[i], lower[i]);
    }
  }

  /** The side-of-price property on every bar i >= 1 whose bands are defined and ordered. */
  lemma RunSide(close: seq<real>, upper: seq<Option<real>>, lower: seq<Option<real>>, i: nat)
    requires |close| == |upper| == |lower| && 1 <= i < |close|
    requires upper[i].Some? && lower[i].Some? && lower[i].value <= upper[i].value
    ensures var d := Run(close, upper, lower, i);
      d.st.Some? && (d.trend == 1 ==> d.st.value <= close[i]) && (d.trend == -1 ==> d.st.value >= close[i])
  {
    DecideSide(Run(close, upper, lower, i - 1).st, close[i], upper[i].value, lower[i].value);
  }

  /** With a non-negative multiplier and ATR the lower band is never above the upper one. */
  lemma BandsOrdered(h: real, l: real, atr: real, m: real)
    requires m >= 0.0 && atr >= 0.0
    ensures Band(h, l, Some(atr), -m).value <= Band(h, l, Some(atr), m).value
  {
    assert m * atr >= 0.0;
  }

  /**
   * With an ATR column that is NaN throughout, as calculate_atr leaves it
   * on a DatetimeIndex frame, both bands are NaN on every bar, the line is
   * NaN throughout and the trend is -1 on bar 0 and 1 on every later bar.
   */
  lemma {:induction false} LostAtrRun(high: seq<real>, low: seq<real>, close: seq<real>, atr: seq<Option<real>>, m: real, i: nat)
    requires |high| == |low| == |close| == |atr| && i < |close|
    requires forall k :: 0 <= k < |atr| ==> atr[k] == None
    ensures Run(close, Bands(high, low, atr, m), Bands(high, low, atr, -m), i) == Decision(None, if i == 0 then -1 else 1)
    decreases i
  {
    var upper, lower := Bands(high, low, atr, m), Bands(high, low, atr, -m);
    assert upper[i] == None && lower[i] == None;
    if i > 0 {
      LostAtrRun(high, low, close, atr, m, i - 1);
    }
  }
}

/**
 * Price-action indicators: Williams fractals, swing-based support and
 * resistance, and classic pivot points.
 */
module PriceAction {
  import opened Common
  import opened Series

  /** The columns fractals and swings require. */
  const HighLowColumns: seq<string> := ["high", "low"]

  predicate HasHighLow(df: Frame)
  {
    "high" in df && "low" in df
  }

  lemma HighLowCheck(df: Frame)
    ensures CheckColumns(df.Keys, HighLowColumns).None? <==> HasHighLow(df)
  {
    if CheckColumns(df.Keys, HighLowColumns).None? {
      assert HighLowColumns[0] in df && HighLowColumns[1] in df;
    }
  }

  // ---------------------------------------------------------------------
  // Fractals

  /** Bar i is an up fractal: its low is strictly below every other low within p bars. */
  predicate FractalUp(low: seq<real>, p: nat, i: nat)
  {
    p <= i && i + p < |low| && forall j: int :: i - p <= j <= i + p && j != i ==> low[j] > low[i]
  }

  /** Bar i is a down fractal: its high is strictly above every other high within p bars. */
  predicate FractalDown(high: seq<real>, p: nat, i: nat)
  {
    p <= i && i + p < |high| && forall j: int :: i - p <= j <= i + p && j != i ==> high[j] < high[i]
  }

  /**
   * The nested loops of calculate_fractals: two boolean arrays start all
   * false, and for each bar with a full window the inner loops look for a
   * neighbour that breaks the pattern, stopping at the first one.
   */
  method Fractals(high: seq<real>, low: seq<real>, period: nat) returns (up: seq<bool>, down: seq<bool>)
    requires |high| == |low|
    ensures |up| == |down| == |low|
    ensures forall i :: 0 <= i < |low| ==> (up[i] <==> FractalUp(low, period, i))
    ensures forall i :: 0 <= i < |low| ==> (down[i] <==> FractalDown(high, period, i))
    ensures forall i :: 0 <= i < |low| && (i < period || i + period >= |low|) ==> !up[i] && !down[i]
  {
    var n := |low|;
    var fractalUp := new bool[n](_ => false);
    var fractalDown := new bool[n](_ => false);
    var i := period;
    while i + period < n
      invariant period <= i
      invariant forall k :: 0 <= k < n && k < i ==> (fractalUp[k] <==> FractalUp(low, period, k))
      invariant forall k :: 0 <= k < n && k < i ==> (fractalDown[k] <==> FractalDown(high, period, k))
      invariant forall k :: i <= k < n ==> !fractalUp[k] && !fractalDown[k]
    {
      var isUp := true;
      var j := i - period;
      while j <= i + period
        invariant i - period <= j <= i + period + 1
        invariant isUp <==> forall m: int :: i - period <= m < j && m != i ==> low[m] > low[i]
      {
        if j != i && low[j] <= low[i] {
          isUp := false;
          break;
        }
        j := j + 1;
      }
      if isUp {
        fractalUp[i] := true;
      }

      var isDown := true;
      j := i - period;
      while j <= i + period
        invariant i - period <= j <= i + period + 1
        invariant isDown <==> forall m: int :: i - period <= m < j && m != i ==> high[m] < high[i]
      {
        if j != i && high[j] >= high[i] {
          isDown := false;
          break;
        }
        j := j + 1;
      }
      if isDown {
        fractalDown[i] := true;
      }
      i := i + 1;
    }
    up, down := fractalUp[..], fractalDown[..];
  }

  datatype FractalColumns = FractalColumns(up: seq<bool>, down: seq<bool>)

  /** calculate_fractals. */
  method CalculateFractals(df: Frame, period: nat) returns (r: Result<FractalColumns>)
    requires Rectangular(df)
    ensures !HasHighLow(df) ==> CheckColumns(df.Keys, HighLowColumns).Some? && r == Err(CheckColumns(df.Keys, HighLowColumns).value)
    ensures HasHighLow(df) ==> r.Ok? && |r.value.up| == |r.value.down| == |df["low"]|
    ensures HasHighLow(df) ==> forall i :: 0 <= i < |df["low"]| ==>
      (r.value.up[i] <==> FractalUp(df["low"], period, i)) && (r.value.down[i] <==> FractalDown(df["high"], period, i))
  {
    var missing := CheckColumns(df.Keys, HighLowColumns);
    HighLowCheck(df);
    if missing.Some? {
      return Err(missing.value);
    }
    var up, down := Fractals(df["high"], df["low"], period);
    r := Ok(FractalColumns(up, down));
  }

  /** Two up fractals (or two down fractals) are more than `period` bars apart. */
  lemma FractalsSpaced(high: seq<real>, low: seq<real>, p: nat, i: nat, k: nat)
    requires i < k
    ensures FractalUp(low, p, i) && FractalUp(low, p, k) ==> k - i > p
    ensures FractalDown(high, p, i) && FractalDown(high, p, k) ==> k - i > p
  {
    if FractalUp(low, p, i) && k <= i + p {
      assert low[k] > low[i];
    }
    if FractalDown(high, p, i) && k <= i + p {
      assert high[k] < high[i];
    }
  }

  /** A column shorter than 2·period + 1 bars has no fractal at all. */
  lemma FewBarsNoFractals(high: seq<real>, low: seq<real>, p: nat, i: nat)
    requires |high| == |low| < 2 * p + 1
    ensures !FractalUp(low, p, i) && !FractalDown(high, p, i)
  {
  }

  // ---------------------------------------------------------------------
  // Support and resistance

  /**
   * `rolling(window=2L+1, center=True).max()` at row i: NaN unless the
   * whole window [i-L, i+L] lies inside the column.
   */
  function CentredMax(x: seq<real>, lookback: nat, i: nat): Option<real>
    requires i < |x|
  {
    if lookback <= i && i + lookback < |x| then Some(Max(x[i - lookback..i + lookback + 1])) else None
  }

  function CentredMin(x: seq<real>, lookback: nat, i: nat): Option<real>
    requires i < |x|
  {
    if lookback <= i && i + lookback < |x| then Some(Min(x[i - lookback..i + lookback + 1])) else None
  }

  /** `x == centred max`: a comparison with NaN is False. */
  function SwingHighs(high: seq<real>, lookback: nat): (r: seq<bool>)
    ensures |r| == |high| && forall i :: 0 <= i < |high| ==> r[i] == (CentredMax(high, lookback, i) == Some(high[i]))
  {
    seq(|high|, i requires 0 <= i < |high| => CentredMax(high, lookback, i) == Some(high[i]))
  }

  function SwingLows(low: seq<real>, lookback: nat): (r: seq<bool>)
    ensures |r| == |low| && forall i :: 0 <= i < |low| ==> r[i] == (CentredMin(low, lookback, i) == Some(low[i]))
  {
    seq(|low|, i requires 0 <= i < |low| => CentredMin(low, lookback, i) == Some(low[i]))
  }

  /** An entry at least every other entry is the maximum. */
  lemma MaxIsEntry(w: seq<real>, k: nat)
    requires k < |w| && forall m :: 0 <= m < |w| ==> w[m] <= w[k]
    ensures Max(w) == w[k]
  {
  }

  lemma MinIsEntry(w: seq<real>, k: nat)
    requires k < |w| && forall m :: 0 <= m < |w| ==> w[m] >= w[k]
    ensures Min(w) == w[k]
  {
  }

  /**
   * A swing high is a bar whose full centred window fits in the column and
   * whose high is at least every high in it (ties count).
   */
  lemma SwingHighIff(high: seq<real>, lookback: nat, i: nat)
    requires i < |high|
    ensures SwingHighs(high, lookback)[i] <==>
      lookback <= i && i + lookback < |high| &&
      forall j: int :: i - lookback <= j <= i + lookback ==> high[j] <= high[i]
  {
    if lookback <= i && i + lookback < |high| {
      var w := high[i - lookback..i + lookback + 1];
      assert w[lookback] == high[i];
      if forall j: int :: i - lookback <= j <= i + lookback ==> high[j] <= high[i] {
        forall m | 0 <= m < |w|
          ensures w[m] <= w[lookback]
        {
          assert w[m] == high[i - lookback + m];
        }
        MaxIsEntry(w, lookback);
      } else {
        var j: int :| i - lookback <= j <= i + lookback && high[j] > high[i];
        assert w[j - (i - lookback)] == high[j];
      }
    }
  }

  lemma SwingLowIff(low: seq<real>, lookback: nat, i: nat)
    requires i < |low|
    ensures SwingLows(low, lookback)[i] <==>
      lookback <= i && i + lookback < |low| &&
      forall j: int :: i - lookback <= j <= i + lookback ==> low[j] >= low[i]
  {
    if lookback <= i && i + lookback < |low| {
      var w := low[i - lookback..i + lookback + 1];
      assert w[lookback] == low[i];
      if forall j: int :: i - lookback <= j <= i + lookback ==> low[j] >= low[i] {
        forall m | 0 <= m < |w|
          ensures w[m] >= w[lookback]
        {
          assert w[m] == low[i - lookback + m];
        }
        MinIsEntry(w, lookback);
      } else {
        var j: int :| i - lookback <= j <= i + lookback && low[j] < low[i];
        assert w[j - (i - lookback)] == low[j];
      }
    }
  }

  /** The latest marked row at or before i, if any. */
  function LastMarked(marks: seq<bool>, i: nat): (r: Option<nat>)
    requires i < |marks|
    ensures r.Some? ==> r.value <= i && marks[r.value] && forall k :: r.value < k <= i ==> !marks[k]
    ensures r.None? <==> forall k :: 0 <= k <= i ==> !marks[k]
    decreases i
  {
    if marks[i] then Some(i) else if i == 0 then None else LastMarked(marks, i - 1)
  }

  /** `x.where(marks).ffill()`: the value of the latest marked row, NaN before the first. */
  function ForwardFill(x: seq<real>, marks: seq<bool>): (r: seq<Option<real>>)
    requires |x| == |marks|
    ensures |r| == |x|
    ensures forall i :: 0 <= i < |x| ==>
      (r[i].None? <==> forall k :: 0 <= k <= i ==> !marks[k]) &&
      (r[i].Some? ==> exists k :: 0 <= k <= i && marks[k] && r[i] == Some(x[k]) && forall m :: k < m <= i ==> !marks[m])
  {
    seq(|x|, i requires 0 <= i < |x| =>
      var k := LastMarked(marks, i);
      if k.Some? then Some(x[k.value]) else None)
  }

  datatype Levels = Levels(swingHigh: seq<bool>, swingLow: seq<bool>, resistance: seq<Option<real>>, support: seq<Option<real>>)

  /** calculate_support_resistance; a negative lookback gives a negative window, which pandas rejects. */
  function SupportResistance(df: Frame, lookback: int): (r: Result<Levels>)
    requires Rectangular(df)
    ensures !HasHighLow(df) ==> CheckColumns(df.Keys, HighLowColumns).Some? && r == Err(CheckColumns(df.Keys, HighLowColumns).value)
    ensures HasHighLow(df) && lookback < 0 ==> r == Err(InvalidWindow)
    ensures HasHighLow(df) && lookback >= 0 ==> r.Ok?
    ensures HasHighLow(df) && lookback >= 0 ==>
      r.value.swingHigh == SwingHighs(df["high"], lookback) && r.value.swingLow == SwingLows(df["low"], lookback)
    ensures HasHighLow(df) && lookback >= 0 ==>
      r.value.resistance == ForwardFill(df["high"], r.value.swingHigh) &&
      r.value.support == ForwardFill(df["low"], r.value.swingLow)
  {
    HighLowCheck(df);
    var missing := CheckColumns(df.Keys, HighLowColumns);
    if missing.Some? then Err(missing.value)
    else if lookback < 0 then Err(InvalidWindow)
    else
      var sh := SwingHighs(df["high"], lookback);
      var sl := SwingLows(df["low"], lookback);
      Ok(Levels(sh, sl, ForwardFill(df["high"], sh), ForwardFill(df["low"], sl)))
  }

  /**
   * Where defined, resistance at row i is the high of a swing-high bar
   * k <= i, hence at least every high within lookback bars of k.
   */
  lemma ResistanceIsSwingHigh(high: seq<real>, lookback: nat, i: nat)
    requires i < |high|
    ensures var res := ForwardFill(high, SwingHighs(high, lookback));
      res[i].Some? ==> exists k :: 0 <= k <= i && res[i] == Some(high[k]) &&
                                   k + lookback < |high| && lookback <= k &&
                                   (forall j: int :: k - lookback <= j <= k + lookback ==> high[j] <= high[k])
  {
    var marks := SwingHighs(high, lookback);
    var res := ForwardFill(high, marks);
    if res[i].Some? {
      var k :| 0 <= k <= i && marks[k] && res[i] == Some(high[k]) && forall m :: k < m <= i ==> !marks[m];
      SwingHighIff(high, lookback, k);
    }
  }

  // ---------------------------------------------------------------------
  // Pivot points

  datatype Pivot = Pivot(pp: real, r1: real, s1: real, r2: real, s2: real)

  /** The classic pivot levels computed from one bar. */
  function PivotOf(h: real, l: real, c: real): Pivot
  {
    var pp := (h + l + c) / 3.0;
    Pivot(pp, 2.0 * pp - l, 2.0 * pp - h, pp + (h - l), pp - (h - l))
  }

  /** calculate_pivot_points: each row's levels come from the previous bar; row 0 has none. */
  function PivotPoints(df: Frame): (r: Result<seq<Option<Pivot>>>)
    requires Rectangular(df)
    ensures !HasPrices(df) ==> CheckColumns(df.Keys, PriceColumns).Some? && r == Err(CheckColumns(df.Keys, PriceColumns).value)
    ensures HasPrices(df) ==> r.Ok? && |r.value| == |df["close"]|
    ensures HasPrices(df) ==> forall i :: 0 <= i < |df["close"]| ==>
      (r.value[i].None? <==> i == 0) &&
      (i > 0 ==> r.value[i].value.pp == (df["high"][i - 1] + df["low"][i - 1] + df["close"][i - 1]) / 3.0)
    ensures HasPrices(df) ==> forall i :: 0 < i < |df["close"]| ==>
      r.value[i] == Some(PivotOf(df["high"][i - 1], df["low"][i - 1], df["close"][i - 1]))
  {
    PriceCheck(df);
    var missing := CheckColumns(df.Keys, PriceColumns);
    if missing.Some? then Err(missing.value)
    else
      var h, l, c := df["high"], df["low"], df["close"];
      Ok(seq(|c|, i requires 0 <= i < |c| => if i == 0 then None else Some(PivotOf(h[i - 1], l[i - 1], c[i - 1]))))
  }

  /**
   * R1 - S1 is the previous bar's range and R2 - S2 twice that; when the
   * previous close lies inside its bar's range the levels are ordered
   * S2 <= S1 <= PP <= R1 <= R2.
   */
  lemma PivotLevels(h: real, l: real, c: real)
    ensures PivotOf(h, l, c).r1 - PivotOf(h, l, c).s1 == h - l
    ensures PivotOf(h, l, c).r2 - PivotOf(h, l, c).s2 == 2.0 * (h - l)
    ensures l <= c <= h ==>
      var p := PivotOf(h, l, c);
      p.s2 <= p.s1 <= p.pp <= p.r1 <= p.r2
  {
  }
}

/**
 * Market profile: for every bar, a histogram of the closes in a trailing
 * window over bins spanning the whole close range, its point of control
 * and its value area.
 */
module MarketProfile {
  import opened Common
  import opened Series
  import opened Binning

  datatype ProfileColumns = ProfileColumns(poc: seq<real>, valueHigh: seq<real>, valueLow: seq<real>)

  /** The closes of bar i's window: the last min(20, n div 2) bars up to i. */
  function Window(close: seq<real>, i: nat): (r: seq<real>)
    requires i < |close|
    ensures |r| == if i + 1 < ProfileWindow(|close|) then i + 1 else ProfileWindow(|close|)
    ensures forall j :: 0 <= j < |r| ==> r[j] == close[i + 1 - |r| + j]
  {
    Trailing(close, ProfileWindow(|close|), i)
  }

  /** The source's two slices: `close[:i + 1]` while i < w, else `close[i - w + 1:i + 1]`. */
  lemma WindowSlice(close: seq<real>, i: nat)
    requires i < |close|
    ensures var w := ProfileWindow(|close|);
      Window(close, i) == if i < w then close[..i + 1] else close[i - w + 1..i + 1]
  {
  }

  /** The levels of bar i, over `bins` bins between the smallest and largest close. */
  function MarketLevels(close: seq<real>, bins: nat, corrected: bool, i: nat): Levels
    requires bins >= 1 && i < |close| && Min(close) < Max(close)
  {
    var w := Window(close, i);
    LevelsOf(Hist(w, Ones(|w|), Min(close), Max(close), bins), Min(close), Max(close), bins, corrected)
  }

  /**
   * calculate_market_profile. A missing close is reported first. An empty
   * frame has a NaN range and gets empty columns; a flat close repeats
   * close[0]; otherwise zero bins leave an empty histogram whose argmax
   * fails on the first bar.
   */
  method CalculateMarketProfile(df: Frame, bins: nat) returns (r: Result<ProfileColumns>)
    ensures "close" !in df ==> r == Err(MissingColumn("close"))
    ensures "close" in df ==> var c := df["close"];
      (r.Err? <==> |c| > 0 && Min(c) < Max(c) && bins == 0) &&
      (r.Err? ==> r.error == EmptyReduction)
    ensures r.Ok? ==> var c := df["close"];
      |r.value.poc| == |r.value.valueHigh| == |r.value.valueLow| == |c|
    ensures r.Ok? ==> var c := df["close"];
      |c| > 0 && Min(c) == Max(c) ==>
        forall i :: 0 <= i < |c| ==> r.value.poc[i] == r.value.valueHigh[i] == r.value.valueLow[i] == c[0]
    ensures r.Ok? ==> var c := df["close"];
      |c| > 0 && Min(c) < Max(c) ==>
        forall i :: 0 <= i < |c| ==> Levels(r.value.poc[i], r.value.valueHigh[i], r.value.valueLow[i]) == MarketLevels(c, bins, false, i)
  {
    if "close" !in df {
      return Err(MissingColumn("close"));
    }
    var c := df["close"];
    var n := |c|;
    if n == 0 {
      return Ok(ProfileColumns([], [], []));
    }
    var lo, hi := Min(c), Max(c);
    if hi - lo == 0.0 {
      var flat := seq(n, _ => c[0]);
      return Ok(ProfileColumns(flat, flat, flat));
    }
    if bins == 0 {
      return Err(EmptyReduction);
    }
    var poc, high, low := MarketProfileLoop(c, bins);
    r := Ok(ProfileColumns(poc, high, low));
  }

  /** The per-bar loop appending to the three output lists. */
  method MarketProfileLoop(c: seq<real>, bins: nat) returns (pocs: seq<real>, highs: seq<real>, lows: seq<real>)
    requires bins >= 1 && |c| > 0 && Min(c) < Max(c)
    ensures |pocs| == |highs| == |lows| == |c|
    ensures forall k :: 0 <= k < |c| ==> Levels(pocs[k], highs[k], lows[k]) == MarketLevels(c, bins, false, k)
  {
    var n := |c|;
    var lo, hi := Min(c), Max(c);
    var windowSize := ProfileWindow(n);
    pocs, highs, lows := [], [], [];
    var i := 0;
    while i < n
      invariant 0 <= i <= n
      invariant |pocs| == |highs| == |lows| == i
      invariant forall k :: 0 <= k < i ==> Levels(pocs[k], highs[k], lows[k]) == MarketLevels(c, bins, false, k)
    {
      var poc, valueHigh, valueLow := BarLevels(c, bins, lo, hi, windowSize, i);
      pocs, highs, lows := pocs + [poc], highs + [valueHigh], lows + [valueLow];
      i := i + 1;
    }
  }

  /** One iteration: slice the window, count it into bins, read the levels. */
  method BarLevels(c: seq<real>, bins: nat, lo: real, hi: real, windowSize: nat, i: nat)
    returns (poc: real, valueHigh: real, valueLow: real)
    requires bins >= 1 && i < |c| && Min(c) < Max(c)
    requires lo == Min(c) && hi == Max(c) && windowSize == ProfileWindow(|c|)
    ensures Levels(poc, valueHigh, valueLow) == MarketLevels(c, bins, false, i)
  {
    var window := if i < windowSize then c[..i + 1] else c[i - windowSize + 1..i + 1];
    WindowSlice(c, i);
    var hist := Hist(window, Ones(|window|), lo, hi, bins);
    poc, valueHigh, valueLow := ReadLevels(hist, lo, hi, bins);
  }

  // ---------------------------------------------------------------------
  // Properties

  /** Every close is counted: the histogram of bar i holds the window's length. */
  lemma MarketTotal(close: seq<real>, bins: nat, i: nat)
    requires bins >= 1 && i < |close| && Min(close) < Max(close)
    ensures var w := Window(close, i);
      Sum(Hist(w, Ones(|w|), Min(close), Max(close), bins)) == |w| as real
  {
    var w := Window(close, i);
    forall j | 0 <= j < |w|
      ensures Min(close) <= w[j] <= Max(close)
    {
      MinMaxOf(close, w[j]);
    }
    HistTotal(w, Ones(|w|), Min(close), Max(close), bins);
    InRangeAll(w, Ones(|w|), Min(close), Max(close));
    SumConstant(Ones(|w|), 1.0);
  }

  /**
   * Whenever the closes are not all equal: the point of control is the
   * centre of a bin holding the most closes of the window; the value-area
   * low is the centre of the lowest bin whenever that bin qualifies, and
   * otherwise both value-area ends are the point of control; all three
   * lie strictly between the smallest and the largest close, low <= high.
   */
  lemma MarketLevelsShape(close: seq<real>, bins: nat, i: nat)
    requires bins >= 1 && i < |close| && Min(close) < Max(close)
    ensures var w := Window(close, i);
      var h := Hist(w, Ones(|w|), Min(close), Max(close), bins);
      var l := MarketLevels(close, bins, false, i);
      l.poc == Centre(Min(close), Max(close), bins, FirstMax(h)) &&
      (forall j :: 0 <= j < bins ==> h[j] <= h[FirstMax(h)]) &&
      Min(close) < l.valueLow <= l.valueHigh < Max(close) &&
      Min(close) < l.poc < Max(close) &&
      (Qualifies(h, 0) ==> l.valueLow == Centre(Min(close), Max(close), bins, 0)) &&
      (!Qualifies(h, 0) ==> l.valueLow == l.poc == l.valueHigh)
  {
    var w := Window(close, i);
    var h := Hist(w, Ones(|w|), Min(close), Max(close), bins);
    HistNonNegative(w, Ones(|w|), Min(close), Max(close), bins);
    LevelsShape(h, Min(close), Max(close), bins);
    MarketTotal(close, bins, i);
    assert |close| >= 2;
    assert |w| >= 1;
  }

  /**
   * With the conventional value area the point of control of every bar
   * lies between the value-area ends, strictly inside the close range.
   */
  lemma CorrectedMarketLevels(close: seq<real>, bins: nat, i: nat)
    requires bins >= 1 && i < |close| && Min(close) < Max(close)
    ensures var l := MarketLevels(close, bins, true, i);
      Min(close) < l.valueLow <= l.poc <= l.valueHigh < Max(close)
  {
    var w := Window(close, i);
    var h := Hist(w, Ones(|w|), Min(close), Max(close), bins);
    HistNonNegative(w, Ones(|w|), Min(close), Max(close), bins);
    MarketTotal(close, bins, i);
    assert |close| >= 2;
    assert Sum(h) == |w| as real >= 1.0;
    CorrectedLevelsShape(h, Min(close), Max(close), bins);
    assert MarketLevels(close, bins, true, i) == LevelsOf(h, Min(close), Max(close), bins, true);
  }

  /** The conventional value area of every bar covers at least 70% of the window's closes. */
  lemma CorrectedMarketCoverage(close: seq<real>, bins: nat, i: nat)
    requires bins >= 1 && i < |close| && Min(close) < Max(close)
    ensures var w := Window(close, i);
      var h := Hist(w, Ones(|w|), Min(close), Max(close), bins);
      Sum(h) == |w| as real && AreaSum(h, CorrectedArea(h)) >= 0.7 * Sum(h)
  {
    var w := Window(close, i);
    var h := Hist(w, Ones(|w|), Min(close), Max(close), bins);
    HistNonNegative(w, Ones(|w|), Min(close), Max(close), bins);
    MarketTotal(close, bins, i);
  }
}

/**
 * MACD: the difference of two exponential averages of the close, its own
 * exponential average (the signal line) and the gap between the two (the
 * histogram).
 */
module Macd {
  import opened Common
  import opened Series
  import opened Trend

  datatype MacdColumns = MacdColumns(line: seq<real>, signal: seq<real>, histogram: seq<real>)

  /** MACD line: EMA_fast - EMA_slow, bar by bar. */
  function MacdLine(x: seq<real>, fast: nat, slow: nat): (r: seq<real>)
    requires fast >= 1 && slow >= 1
    ensures |r| == |x| && forall i :: 0 <= i < |x| ==> r[i] == EmaAt(x, fast, i) - EmaAt(x, slow, i)
  {
    seq(|x|, i requires 0 <= i < |x| => EmaAt(x, fast, i) - EmaAt(x, slow, i))
  }

  function Histogram(line: seq<real>, signal: nat): (r: seq<real>)
    requires signal >= 1
    ensures |r| == |line| && forall i :: 0 <= i < |line| ==> r[i] == line[i] - EmaAt(line, signal, i)
  {
    seq(|line|, i requires 0 <= i < |line| => line[i] - EmaAt(line, signal, i))
  }

  /**
   * calculate_macd: a missing close is reported first, then any span below
   * 1 (pandas' ewm rejects it).
   */
  function CalculateMacd(df: Frame, fast: nat, slow: nat, signal: nat): (r: Result<MacdColumns>)
    ensures "close" !in df ==> r == Err(MissingColumn("close"))
    ensures "close" in df ==> (r.Err? <==> fast == 0 || slow == 0 || signal == 0)
    ensures "close" in df && r.Err? ==> r.error == InvalidWindow
    ensures r.Ok? ==> var c := df["close"];
      |r.value.line| == |r.value.signal| == |r.value.histogram| == |c| &&
      forall i :: 0 <= i < |c| ==>
        r.value.line[i] == EmaAt(c, fast, i) - EmaAt(c, slow, i) &&
        r.value.signal[i] == EmaAt(r.value.line, signal, i) &&
        r.value.histogram[i] == r.value.line[i] - r.value.signal[i]
  {
    if "close" !in df then Err(MissingColumn("close"))
    else if fast == 0 || slow == 0 || signal == 0 then Err(InvalidWindow)
    else
      var line := MacdLine(df["close"], fast, slow);
      Ok(MacdColumns(line, EmaColumn(line, signal), Histogram(line, signal)))
  }

  // ---------------------------------------------------------------------
  // Properties

  /** Every average starts at its first input, so bar 0 is all zeros. */
  lemma FirstBarZero(x: seq<real>, fast: nat, slow: nat, signal: nat)
    requires fast >= 1 && slow >= 1 && signal >= 1 && |x| > 0
    ensures MacdLine(x, fast, slow)[0] == 0.0
    ensures EmaAt(MacdLine(x, fast, slow), signal, 0) == 0.0
    ensures Histogram(MacdLine(x, fast, slow), signal)[0] == 0.0
  {
  }

  /** A constant close gives a zero line, signal and histogram everywhere. */
  lemma ConstantCloseZero(x: seq<real>, c: real, fast: nat, slow: nat, signal: nat, i: nat)
    requires fast >= 1 && slow >= 1 && signal >= 1 && i < |x|
    requires forall k :: 0 <= k < |x| ==> x[k] == c
    ensures MacdLine(x, fast, slow)[i] == 0.0
    ensures EmaAt(MacdLine(x, fast, slow), signal, i) == 0.0
    ensures Histogram(MacdLine(x, fast, slow), signal)[i] == 0.0
  {
    var line := MacdLine(x, fast, slow);
    forall k | 0 <= k < |x|
      ensures line[k] == 0.0
    {
      EmaConstant(x, fast, c, k);
      EmaConstant(x, slow, c, k);
    }
    EmaConstant(line, signal, 0.0, i);
  }

  /**
   * After bar 0 the histogram is the line's distance from the previous
   * signal scaled by 1 - alpha: it is positive exactly when the line is
   * above the previous signal (for a span above 1).
   */
  lemma HistogramFromPreviousSignal(line: seq<real>, signal: nat, i: nat)
    requires signal >= 1 && 1 <= i < |line|
    ensures line[i] - EmaAt(line, signal, i) == (1.0 - Alpha(signal)) * (line[i] - EmaAt(line, signal, i - 1))
    ensures signal > 1 ==> (line[i] - EmaAt(line, signal, i) > 0.0 <==> line[i] > EmaAt(line, signal, i - 1))
  {
    var a := Alpha(signal);
    var e := EmaAt(line, signal, i - 1);
    var v := line[i];
    var next := EmaAt(line, signal, i);
    EmaStep(line, signal, i);
    GapAfterStep(v - next, a, v, next, e);
    if signal > 1 {
      AlphaBelowOne(signal);
      ProductSign(1.0 - a, v - e, v - next);
    }
  }

  lemma EmaStep(x: seq<real>, p: nat, i: nat)
    requires p >= 1 && 1 <= i < |x|
    ensures EmaAt(x, p, i) == Alpha(p) * x[i] + (1.0 - Alpha(p)) * EmaAt(x, p, i - 1)
  {
  }

  lemma GapAfterStep(h: real, a: real, v: real, next: real, e: real)
    requires h == v - next && next == a * v + (1.0 - a) * e
    ensures h == (1.0 - a) * (v - e)
  {
  }

  lemma AlphaBelowOne(p: nat)
    requires p > 1
    ensures Alpha(p) < 1.0
  {
    var q := (p + 1) as real;
    assert q > 2.0;
    assert Alpha(p) * q == 2.0;
  }

  lemma ProductSign(k: real, d: real, g: real)
    requires k > 0.0 && g == k * d
    ensures g > 0.0 <==> d > 0.0
  {
    if d <= 0.0 {
      assert k * d <= k * 0.0;
    }
  }
}

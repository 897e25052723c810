/**
 * Ichimoku Kinko Hyo: three trailing high/low midpoints (conversion,
 * base and leading-span-B lines), the two leading spans shifted forward,
 * the close shifted back (the lagging span) and the cloud bounds.
 */
module Ichimoku {
  import opened Common
  import opened Series

  /** (rolling max of high + rolling min of low) / 2 with min_periods = 1. */
  function Midpoint(high: seq<real>, low: seq<real>, w: nat): (r: seq<real>)
    requires |high| == |low| && w >= 1
    ensures |r| == |high|
    ensures forall i :: 0 <= i < |high| ==>
      |Trailing(high, w, i)| > 0 && |Trailing(low, w, i)| > 0 &&
      r[i] == (Max(Trailing(high, w, i)) + Min(Trailing(low, w, i))) / 2.0
  {
    var hi := RollingMax(high, w);
    var lo := RollingMin(low, w);
    seq(|high|, i requires 0 <= i < |high| => (hi[i] + lo[i]) / 2.0)
  }

  /**
   * `concat([a, b], axis=1).max(axis=1)`: NaN is skipped, so the other
   * value is taken, and the result is NaN only when both are.
   */
  function MaxSkipNaN(a: Option<real>, b: Option<real>): (r: Option<real>)
    ensures r.None? <==> a.None? && b.None?
    ensures r.Some? ==> (r == a || r == b)
    ensures r.Some? && a.Some? ==> a.value <= r.value
    ensures r.Some? && b.Some? ==> b.value <= r.value
  {
    if a.None? then b else if b.None? then a else Some(Max2(a.value, b.value))
  }

  function MinSkipNaN(a: Option<real>, b: Option<real>): (r: Option<real>)
    ensures r.None? <==> a.None? && b.None?
    ensures r.Some? ==> (r == a || r == b)
    ensures r.Some? && a.Some? ==> r.value <= a.value
    ensures r.Some? && b.Some? ==> r.value <= b.value
  {
    if a.None? then b else if b.None? then a else Some(Min2(a.value, b.value))
  }

  function Average(a: seq<real>, b: seq<real>): (r: seq<real>)
    requires |a| == |b|
    ensures |r| == |a| && forall i :: 0 <= i < |a| ==> r[i] == (a[i] + b[i]) / 2.0
  {
    seq(|a|, i requires 0 <= i < |a| => (a[i] + b[i]) / 2.0)
  }

  /** The average of two lines lies between them on every bar. */
  lemma AverageBetween(a: seq<real>, b: seq<real>, i: nat)
    requires |a| == |b| && i < |a|
    ensures Min2(a[i], b[i]) <= Average(a, b)[i] <= Max2(a[i], b[i])
  {
  }

  function CloudTop(a: seq<Option<real>>, b: seq<Option<real>>): (r: seq<Option<real>>)
    requires |a| == |b|
    ensures |r| == |a| && forall i :: 0 <= i < |a| ==> r[i] == MaxSkipNaN(a[i], b[i])
  {
    seq(|a|, i requires 0 <= i < |a| => MaxSkipNaN(a[i], b[i]))
  }

  function CloudBottom(a: seq<Option<real>>, b: seq<Option<real>>): (r: seq<Option<real>>)
    requires |a| == |b|
    ensures |r| == |a| && forall i :: 0 <= i < |a| ==> r[i] == MinSkipNaN(a[i], b[i])
  {
    seq(|a|, i requires 0 <= i < |a| => MinSkipNaN(a[i], b[i]))
  }

  datatype IchimokuColumns = IchimokuColumns(
    tenkan: seq<real>, kijun: seq<real>,
    senkouA: seq<Option<real>>, senkouB: seq<Option<real>>,
    chikou: seq<Option<real>>,
    cloudTop: seq<Option<real>>, cloudBottom: seq<Option<real>>)

  /**
   * calculate_ichimoku: the price columns are checked first; a rolling
   * window of 0 is rejected by pandas. The shift is taken as non-negative.
   */
  function CalculateIchimoku(df: Frame, tenkanPeriod: nat, kijunPeriod: nat, senkouBPeriod: nat, offset: nat)
    : (r: Result<IchimokuColumns>)
    requires Rectangular(df)
    ensures !HasPrices(df) ==> CheckColumns(df.Keys, PriceColumns).Some? && r == Err(CheckColumns(df.Keys, PriceColumns).value)
    ensures HasPrices(df) ==> (r.Err? <==> tenkanPeriod == 0 || kijunPeriod == 0 || senkouBPeriod == 0)
    ensures HasPrices(df) && r.Err? ==> r.error == InvalidWindow
    ensures r.Ok? ==> HasPrices(df) && tenkanPeriod >= 1 && kijunPeriod >= 1 && senkouBPeriod >= 1
    ensures r.Ok? ==> var h, l, c := df["high"], df["low"], df["close"];
      var t := Midpoint(h, l, tenkanPeriod);
      var k := Midpoint(h, l, kijunPeriod);
      var a := ShiftForward(Lift(Average(t, k)), offset);
      var b := ShiftForward(Lift(Midpoint(h, l, senkouBPeriod)), offset);
      r.value == IchimokuColumns(t, k, a, b, ShiftBack(Lift(c), offset), CloudTop(a, b), CloudBottom(a, b))
  {
    var missing := CheckColumns(df.Keys, PriceColumns);
    PriceCheck(df);
    if missing.Some? then Err(missing.value)
    else if tenkanPeriod == 0 || kijunPeriod == 0 || senkouBPeriod == 0 then Err(InvalidWindow)
    else
      var h, l, c := df["high"], df["low"], df["close"];
      var t := Midpoint(h, l, tenkanPeriod);
      var k := Midpoint(h, l, kijunPeriod);
      var a := ShiftForward(Lift(Average(t, k)), offset);
      var b := ShiftForward(Lift(Midpoint(h, l, senkouBPeriod)), offset);
      Ok(IchimokuColumns(t, k, a, b, ShiftBack(Lift(c), offset), CloudTop(a, b), CloudBottom(a, b)))
  }

  // ---------------------------------------------------------------------
  // Properties

  /**
   * On bars with low <= high, a midpoint lies between the window's lowest
   * low and highest high.
   */
  lemma MidpointWithin(high: seq<real>, low: seq<real>, w: nat, i: nat)
    requires |high| == |low| && w >= 1 && i < |high|
    requires low[i] <= high[i]
    ensures Min(Trailing(low, w, i)) <= Midpoint(high, low, w)[i] <= Max(Trailing(high, w, i))
  {
    var wh, wl := Trailing(high, w, i), Trailing(low, w, i);
    assert wh[|wh| - 1] == high[i] && wl[|wl| - 1] == low[i];
    assert Min(wl) <= low[i] <= high[i] <= Max(wh);
  }

  /**
   * Leading span A is undefined on the first `offset` bars and elsewhere
   * the average of the conversion and base lines `offset` bars earlier
   * (span B is the same shift of the long midpoint).
   */
  lemma {:induction false} LeadingSpan(t: seq<real>, k: seq<real>, offset: nat, i: nat)
    requires |t| == |k| && i < |t|
    ensures ShiftForward(Lift(Average(t, k)), offset)[i].None? <==> i < offset
    ensures i >= offset ==> ShiftForward(Lift(Average(t, k)), offset)[i] == Some((t[i - offset] + k[i - offset]) / 2.0)
  {
    var avg := Lift(Average(t, k));
    if i >= offset {
      assert avg[i - offset] == Some((t[i - offset] + k[i - offset]) / 2.0);
    }
  }

  /** The lagging span is the close `offset` bars later, undefined on the last `offset` bars. */
  lemma LaggingSpan(close: seq<real>, offset: nat, i: nat)
    requires i < |close|
    ensures ShiftBack(Lift(close), offset)[i].None? <==> i + offset >= |close|
    ensures i + offset < |close| ==> ShiftBack(Lift(close), offset)[i] == Some(close[i + offset])
  {
  }

  /**
   * Wherever the cloud is defined its top is at or above its bottom, and
   * each bound is one of the two leading spans.
   */
  lemma CloudOrdered(a: seq<Option<real>>, b: seq<Option<real>>, i: nat)
    requires |a| == |b| && i < |a|
    ensures CloudTop(a, b)[i].Some? <==> CloudBottom(a, b)[i].Some?
    ensures CloudTop(a, b)[i].Some? ==> CloudBottom(a, b)[i].value <= CloudTop(a, b)[i].value
    ensures CloudTop(a, b)[i] == a[i] || CloudTop(a, b)[i] == b[i]
    ensures CloudBottom(a, b)[i] == a[i] || CloudBottom(a, b)[i] == b[i]
  {
  }
}

/**
 * Trend indicators: simple, exponential, weighted and Hull moving
 * averages, and the variants that add one average per period.
 */
module Trend {
  import opened Common
  import opened Series

  /** The periods used when the caller gives none. */
  const DefaultMaPeriods: seq<nat> := [8, 18, 40]

  /** The requested column, lowercased, or the error raised when it is absent. */
  function SourceColumn(df: Frame, column: string): (r: Result<seq<real>>)
    ensures r.Ok? <==> Lower(column) in df
    ensures r.Ok? ==> r.value == df[Lower(column)]
    ensures r.Err? ==> r.error == MissingColumn(Lower(column))
  {
    if Lower(column) in df then Ok(df[Lower(column)]) else Err(MissingColumn(Lower(column)))
  }

  // ---------------------------------------------------------------------
  // SMA

  /**
   * calculate_sma: `rolling(window=period, min_periods=1).mean()` of the
   * column; pandas rejects a window of 0 because min_periods exceeds it.
   */
  function Sma(df: Frame, column: string, period: nat): (r: Result<seq<real>>)
    ensures Lower(column) !in df ==> r == Err(MissingColumn(Lower(column)))
    ensures Lower(column) in df && period == 0 ==> r == Err(InvalidWindow)
    ensures r.Ok? ==> Lower(column) in df && period >= 1 && |r.value| == |df[Lower(column)]|
    ensures r.Ok? ==> r.value == RollingMean(df[Lower(column)], period)
    ensures r.Ok? ==> forall i :: 0 <= i < |r.value| ==>
      Min(Trailing(df[Lower(column)], period, i)) <= r.value[i] <= Max(Trailing(df[Lower(column)], period, i))
  {
    match SourceColumn(df, column)
    case Err(e) => Err(e)
    case Ok(x) =>
      if period == 0 then Err(InvalidWindow)
      else
        var r := RollingMean(x, period);
        assert forall i :: 0 <= i < |x| ==> Min(Trailing(x, period, i)) <= r[i] <= Max(Trailing(x, period, i)) by {
          forall i | 0 <= i < |x| ensures Min(Trailing(x, period, i)) <= r[i] <= Max(Trailing(x, period, i)) {
            RollingMeanBounds(x, period, i);
          }
        }
        Ok(r)
  }

  // ---------------------------------------------------------------------
  // EMA: `ewm(span=p, adjust=False).mean()`.

  /** The smoothing factor 2/(span + 1). */
  function Alpha(p: nat): (a: real)
    requires p >= 1
    ensures 0.0 < a <= 1.0
  {
    2.0 / (p + 1) as real
  }

  /** Row i of the adjust=False exponential average: starts at x[0]. */
  function EmaAt(x: seq<real>, p: nat, i: nat): real
    requires p >= 1 && i < |x|
    decreases i
  {
    if i == 0 then x[0]
    else Alpha(p) * x[i] + (1.0 - Alpha(p)) * EmaAt(x, p, i - 1)
  }

  function EmaColumn(x: seq<real>, p: nat): (r: seq<real>)
    requires p >= 1
    ensures |r| == |x| && forall i :: 0 <= i < |x| ==> r[i] == EmaAt(x, p, i)
  {
    seq(|x|, i requires 0 <= i < |x| => EmaAt(x, p, i))
  }

  /** The average stays inside any range holding every input seen so far. */
  lemma {:induction false} EmaWithin(x: seq<real>, p: nat, i: nat, lo: real, hi: real)
    requires p >= 1 && i < |x|
    requires forall k :: 0 <= k <= i ==> lo <= x[k] <= hi
    ensures lo <= EmaAt(x, p, i) <= hi
    decreases i
  {
    if i > 0 {
      EmaWithin(x, p, i - 1, lo, hi);
      ConvexWithin(Alpha(p), x[i], EmaAt(x, p, i - 1), lo, hi);
    }
  }

  /** Hence the average lies between the minimum and maximum of the prefix. */
  lemma EmaBetweenPrefixMinMax(x: seq<real>, p: nat, i: nat)
    requires p >= 1 && i < |x|
    ensures Min(x[..i + 1]) <= EmaAt(x, p, i) <= Max(x[..i + 1])
  {
    var pre := x[..i + 1];
    assert forall k :: 0 <= k <= i ==> pre[k] == x[k];
    EmaWithin(x, p, i, Min(pre), Max(pre));
  }

  /** A constant column has itself as its average. */
  lemma EmaConstant(x: seq<real>, p: nat, c: real, i: nat)
    requires p >= 1 && i < |x|
    requires forall k :: 0 <= k < |x| ==> x[k] == c
    ensures EmaAt(x, p, i) == c
  {
    EmaWithin(x, p, i, c, c);
  }

  /** calculate_ema; pandas rejects a span below 1. */
  function Ema(df: Frame, column: string, period: nat): (r: Result<seq<real>>)
    ensures Lower(column) !in df ==> r == Err(MissingColumn(Lower(column)))
    ensures Lower(column) in df && period == 0 ==> r == Err(InvalidWindow)
    ensures r.Ok? ==> Lower(column) in df && period >= 1 && |r.value| == |df[Lower(column)]|
    ensures r.Ok? ==> forall i :: 0 <= i < |r.value| ==> r.value[i] == EmaAt(df[Lower(column)], period, i)
  {
    match SourceColumn(df, column)
    case Err(e) => Err(e)
    case Ok(x) => if period == 0 then Err(InvalidWindow) else Ok(EmaColumn(x, period))
  }

  // ---------------------------------------------------------------------
  // WMA: weights 1..p over a full window, normalised by their sum.

  /** Σ (k + 1)·s[k]: `np.dot(window, arange(1, p + 1))`. */
  function WeightedSum(s: seq<real>): real
  {
    if |s| == 0 then 0.0 else WeightedSum(s[..|s| - 1]) + |s| as real * s[|s| - 1]
  }

  /** 1 + 2 + … + n: `weights.sum()`. */
  function Triangle(n: nat): (t: real)
    ensures n >= 1 ==> t >= 1.0
  {
    if n == 0 then 0.0 else Triangle(n - 1) + n as real
  }

  lemma {:induction false} WeightedSumWithin(s: seq<real>, lo: real, hi: real)
    requires forall k :: 0 <= k < |s| ==> lo <= s[k] <= hi
    ensures Triangle(|s|) * lo <= WeightedSum(s) <= Triangle(|s|) * hi
  {
    if |s| > 0 {
      var m := |s| - 1;
      var n := |s| as real;
      var init, x := s[..m], s[m];
      assert forall k :: 0 <= k < |init| ==> init[k] == s[k];
      WeightedSumWithin(init, lo, hi);
      ScaleOrdered(n, lo, x, hi);
      StepWithin(WeightedSum(init), Triangle(m), n, x, lo, hi, WeightedSum(s), Triangle(|s|));
    }
  }

  /** Dividing by the total weight brings the weighted sum back into [lo, hi]. */
  lemma WeightedMeanWithin(s: seq<real>, lo: real, hi: real)
    requires |s| > 0
    requires Triangle(|s|) * lo <= WeightedSum(s) <= Triangle(|s|) * hi
    ensures lo <= WeightedSum(s) / Triangle(|s|) <= hi
  {
    DivBounds(WeightedSum(s), Triangle(|s|), lo, hi);
  }

  /** One more weighted term keeps the running bounds. */
  lemma StepWithin(w: real, t: real, n: real, x: real, lo: real, hi: real, w': real, t': real)
    requires t * lo <= w <= t * hi
    requires n * lo <= n * x <= n * hi
    requires w' == w + n * x && t' == t + n
    ensures t' * lo <= w' <= t' * hi
  {
    assert (t + n) * lo == t * lo + n * lo;
    assert (t + n) * hi == t * hi + n * hi;
  }

  /** A non-negative factor keeps the order of its operands. */
  lemma ScaleOrdered(n: real, lo: real, x: real, hi: real)
    requires n >= 0.0 && lo <= x <= hi
    ensures n * lo <= n * x <= n * hi
  {
  }

  /** Row i of the weighted average of a column that may hold NaN. */
  function WmaAt(x: seq<Option<real>>, p: nat, i: nat): (r: Option<real>)
    requires p >= 1 && i < |x|
    ensures r.Some? <==> i + 1 >= p && AllSome(x[i + 1 - p..i + 1])
  {
    if i + 1 < p then None
    else
      var win := x[i + 1 - p..i + 1];
      if AllSome(win) then Some(WeightedSum(Values(win)) / Triangle(p)) else None
  }

  /**
   * The weighted average of a full window lies in any range holding the
   * window, so a constant window gives that constant.
   */
  lemma WmaWithin(x: seq<Option<real>>, p: nat, i: nat, lo: real, hi: real)
    requires p >= 1 && i < |x|
    requires forall k :: 0 <= k < |x| && x[k].Some? ==> lo <= x[k].value <= hi
    ensures WmaAt(x, p, i).Some? ==> lo <= WmaAt(x, p, i).value <= hi
  {
    if i + 1 >= p && AllSome(x[i + 1 - p..i + 1]) {
      var w := x[i + 1 - p..i + 1];
      var win := Values(w);
      forall k | 0 <= k < |win|
        ensures lo <= win[k] <= hi
      {
        assert w[k] == x[i + 1 - p + k];
      }
      assert |win| == p;
      WeightedSumWithin(win, lo, hi);
      WeightedMeanWithin(win, lo, hi);
    }
  }

  function WmaColumn(x: seq<Option<real>>, p: nat): (r: seq<Option<real>>)
    requires p >= 1
    ensures |r| == |x| && forall i :: 0 <= i < |x| ==> r[i] == WmaAt(x, p, i)
  {
    seq(|x|, i requires 0 <= i < |x| => WmaAt(x, p, i))
  }

  /** _weighted_moving_average: a period below 1 raises ValueError. */
  function WeightedMovingAverage(x: seq<Option<real>>, p: nat): (r: Result<seq<Option<real>>>)
    ensures r.Err? <==> p < 1
    ensures r.Err? ==> r.error == InvalidPeriod
    ensures r.Ok? ==> |r.value| == |x|
    ensures r.Ok? ==> forall i :: 0 <= i < |x| ==> (r.value[i].Some? <==> i + 1 >= p && AllSome(x[i + 1 - p..i + 1]))
  {
    if p < 1 then Err(InvalidPeriod) else Ok(WmaColumn(x, p))
  }

  // ---------------------------------------------------------------------
  // HMA

  /** ⌊√n⌋: `int(np.sqrt(n))`. */
  function ISqrt(n: nat): (r: nat)
    ensures r * r <= n < (r + 1) * (r + 1)
  {
    if n == 0 then 0
    else
      var r := ISqrt(n - 1);
      if (r + 1) * (r + 1) <= n then r + 1 else r
  }

  function HalfPeriod(p: nat): (h: nat)
    ensures 1 <= h && (p >= 1 ==> h <= p)
  {
    if p / 2 >= 1 then p / 2 else 1
  }

  function SqrtPeriod(p: nat): (q: nat)
    ensures 1 <= q && (p >= 1 ==> q <= p)
  {
    if ISqrt(p) >= 1 then ISqrt(p) else 1
  }

  /** `2·wma_half - wma_full`, NaN wherever either is NaN. */
  function HullRaw(x: seq<real>, p: nat): (r: seq<Option<real>>)
    requires p >= 1
    ensures |r| == |x|
  {
    var half := WmaColumn(Lift(x), HalfPeriod(p));
    var full := WmaColumn(Lift(x), p);
    seq(|x|, i requires 0 <= i < |x| =>
      if half[i].Some? && full[i].Some? then Some(2.0 * half[i].value - full[i].value) else None)
  }

  /**
   * calculate_hma: the column check comes first, then a period below 2
   * raises ValueError; the result is the ⌊√p⌋-weighted average of the raw
   * Hull column.
   */
  function Hma(df: Frame, column: string, period: nat): (r: Result<seq<Option<real>>>)
    ensures Lower(column) !in df ==> r == Err(MissingColumn(Lower(column)))
    ensures Lower(column) in df && period < 2 ==> r == Err(InvalidPeriod)
    ensures r.Ok? ==> Lower(column) in df && period >= 2 && |r.value| == |df[Lower(column)]|
    ensures r.Ok? ==> forall i :: 0 <= i < |r.value| ==>
      r.value[i] == WmaAt(HullRaw(df[Lower(column)], period), SqrtPeriod(period), i)
  {
    match SourceColumn(df, column)
    case Err(e) => Err(e)
    case Ok(x) =>
      if period < 2 then Err(InvalidPeriod)
      else Ok(WmaColumn(HullRaw(x, period), SqrtPeriod(period)))
  }

  /**
   * The raw Hull column is defined from row p - 1 on, so the Hull average
   * is defined exactly from row p + ⌊√p⌋ - 2 on.
   */
  lemma HmaDefined(x: seq<real>, p: nat, i: nat)
    requires p >= 2 && i < |x|
    ensures WmaAt(HullRaw(x, p), SqrtPeriod(p), i).Some? <==> i + 2 >= p + SqrtPeriod(p)
  {
    var raw := HullRaw(x, p);
    var q := SqrtPeriod(p);
    forall k | 0 <= k < |x|
      ensures raw[k].Some? <==> k + 1 >= p
    {
      var h := HalfPeriod(p);
      if k + 1 >= p {
        LiftAllSome(x, k + 1 - h, k + 1);
        LiftAllSome(x, k + 1 - p, k + 1);
      }
    }
    if i + 2 >= p + q {
      var w := raw[i + 1 - q..i + 1];
      forall j | 0 <= j < q
        ensures w[j].Some?
      {
        assert w[j] == raw[i + 1 - q + j];
      }
    } else if i + 1 >= q {
      assert raw[i + 1 - q..i + 1][0] == raw[i + 1 - q];
    }
  }

  lemma LiftAllSome(x: seq<real>, a: nat, b: nat)
    requires a <= b <= |x|
    ensures AllSome(Lift(x)[a..b])
  {
    var w := Lift(x)[a..b];
    forall j | 0 <= j < |w|
      ensures w[j].Some?
    {
      assert w[j] == Lift(x)[a + j];
    }
  }

  /** A constant column gives that constant wherever the Hull average is defined. */
  lemma HmaConstant(x: seq<real>, p: nat, c: real, i: nat)
    requires p >= 2 && i < |x|
    requires forall k :: 0 <= k < |x| ==> x[k] == c
    ensures WmaAt(HullRaw(x, p), SqrtPeriod(p), i).Some? ==> WmaAt(HullRaw(x, p), SqrtPeriod(p), i).value == c
  {
    var raw := HullRaw(x, p);
    var lifted := Lift(x);
    assert forall k :: 0 <= k < |lifted| && lifted[k].Some? ==> c <= lifted[k].value <= c;
    forall k | 0 <= k < |x| && raw[k].Some?
      ensures raw[k].value == c
    {
      WmaWithin(lifted, HalfPeriod(p), k, c, c);
      WmaWithin(lifted, p, k, c, c);
    }
    WmaWithin(raw, SqrtPeriod(p), i, c, c);
  }

  // ---------------------------------------------------------------------
  // One column per period.

  /** The columns `{prefix}_{p}` for the periods, later periods overwriting equal names. */
  function PerPeriod(x: seq<real>, periods: seq<nat>, prefix: string, exponential: bool): (m: map<string, seq<real>>)
    requires forall k :: 0 <= k < |periods| ==> periods[k] >= 1
    decreases |periods|
  {
    if |periods| == 0 then map[]
    else
      var p := periods[|periods| - 1];
      PerPeriod(x, periods[..|periods| - 1], prefix, exponential)[ColumnName(prefix, p) :=
        if exponential then EmaColumn(x, p) else RollingMean(x, p)]
  }

  /** Exactly one column per period. */
  lemma {:induction false} PerPeriodKeys(x: seq<real>, periods: seq<nat>, prefix: string, exponential: bool)
    requires forall k :: 0 <= k < |periods| ==> periods[k] >= 1
    ensures PerPeriod(x, periods, prefix, exponential).Keys == set p | p in periods :: ColumnName(prefix, p)
    decreases |periods|
  {
    if |periods| > 0 {
      var init := periods[..|periods| - 1];
      PerPeriodKeys(x, init, prefix, exponential);
      assert periods == init + [periods[|periods| - 1]];
    }
  }

  /** Each column equals the single-period average. */
  lemma {:induction false} PerPeriodValues(x: seq<real>, periods: seq<nat>, prefix: string, exponential: bool, p: nat)
    requires forall k :: 0 <= k < |periods| ==> periods[k] >= 1
    requires p in periods
    ensures ColumnName(prefix, p) in PerPeriod(x, periods, prefix, exponential)
    ensures PerPeriod(x, periods, prefix, exponential)[ColumnName(prefix, p)] ==
      (if exponential then EmaColumn(x, p) else RollingMean(x, p))
    decreases |periods|
  {
    var init := periods[..|periods| - 1];
    var last := periods[|periods| - 1];
    assert periods == init + [last];
    if ColumnName(prefix, p) == ColumnName(prefix, last) {
      ColumnNameInjective(prefix, p, last);
    } else {
      assert p in init;
      PerPeriodValues(x, init, prefix, exponential, p);
    }
  }

  function FirstZero(periods: seq<nat>): (k: nat)
    ensures k <= |periods|
    ensures forall j :: 0 <= j < k ==> periods[j] >= 1
    ensures k < |periods| ==> periods[k] == 0
  {
    if |periods| == 0 then 0 else if periods[0] == 0 then 0 else 1 + FirstZero(periods[1..])
  }

  /**
   * calculate_sma_series / calculate_ema_series: the column check, then
   * one average per period; a period of 0 makes pandas raise, and the
   * columns already added are lost with the copy.
   */
  function MaSeries(df: Frame, column: string, periods: seq<nat>, prefix: string, exponential: bool): (r: Result<map<string, seq<real>>>)
    ensures Lower(column) !in df ==> r == Err(MissingColumn(Lower(column)))
    ensures Lower(column) in df ==> (r.Err? <==> 0 in periods)
    ensures r.Ok? ==> r.value.Keys == set p | p in periods :: ColumnName(prefix, p)
    ensures r.Ok? ==> forall p :: p in periods ==>
      r.value[ColumnName(prefix, p)] ==
        (if exponential then Ema(df, column, p).value else Sma(df, column, p).value)
  {
    match SourceColumn(df, column)
    case Err(e) => Err(e)
    case Ok(x) =>
      var k := FirstZero(periods);
      if k < |periods| then Err(InvalidWindow)
      else
        PerPeriodKeys(x, periods, prefix, exponential);
        assert forall p :: p in periods ==>
          PerPeriod(x, periods, prefix, exponential)[ColumnName(prefix, p)] ==
            (if exponential then EmaColumn(x, p) else RollingMean(x, p)) by {
          forall p | p in periods
            ensures PerPeriod(x, periods, prefix, exponential)[ColumnName(prefix, p)] ==
              (if exponential then EmaColumn(x, p) else RollingMean(x, p))
          {
            PerPeriodValues(x, periods, prefix, exponential, p);
          }
        }
        Ok(PerPeriod(x, periods, prefix, exponential))
  }
}

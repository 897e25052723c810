/**
 * _detect_outliers: a row is an outlier when, in any of the open, high,
 * low and close columns it has, its value lies more than `threshold`
 * sample standard deviations from the column's mean. Means and
 * deviations skip nulls; a null is never an outlier.
 */
module Outliers {
  import opened Common
  import opened Series
  import opened Cleaning
  import opened Interpolation
  import opened RealArith

  /** Column c of the table, top to bottom. */
  function ColumnCells(rows: seq<Row>, c: nat): (r: seq<Option<real>>)
    ensures |r| == |rows| && forall i :: 0 <= i < |rows| ==> r[i] == Cell(rows[i], c)
  {
    seq(|rows|, i requires 0 <= i < |rows| => Cell(rows[i], c))
  }

  /** The sum of squared deviations from m. */
  function SquaredDeviations(xs: seq<real>, m: real): (r: real)
    ensures r >= 0.0
  {
    if |xs| == 0 then 0.0
    else
      var d := xs[|xs| - 1] - m;
      SquaredDeviations(xs[..|xs| - 1], m) + d * d
  }

  /** `std()`'s square: the sample variance (ddof 1), NaN below two values. */
  function SampleVariance(xs: seq<real>): (v: Option<real>)
    ensures v.Some? <==> |xs| >= 2
    ensures v.Some? ==> v.value >= 0.0
  {
    if |xs| < 2 then None else Some(SquaredDeviations(xs, Mean(xs)) / (|xs| - 1) as real)
  }

  /**
   * `abs((x - mean) / std) > threshold`, without the square root: with a
   * zero deviation a value off the mean gives an infinite score and one
   * on it NaN; otherwise the score exceeds a non-negative threshold
   * exactly when the squared distance exceeds threshold² · variance.
   */
  predicate Beyond(x: Option<real>, xs: seq<real>, threshold: real)
  {
    x.Some? && |xs| >= 2 &&
    var d := x.value - Mean(xs);
    var v := SampleVariance(xs).value;
    if v == 0.0 then d != 0.0
    else threshold < 0.0 || d * d > threshold * threshold * v
  }

  /** The test on one price column: false when the table has no such column. */
  predicate ColumnFlags(t: PriceTable, name: string, threshold: real, i: nat)
    requires i < |t.rows|
  {
    match ColumnIndex(t.columns, name)
    case None => false
    case Some(c) => Beyond(Cell(t.rows[i], c), Present(ColumnCells(t.rows, c)), threshold)
  }

  /** The outlier mask: the union of the four price columns' tests. */
  function OutlierMask(t: PriceTable, threshold: real): (m: seq<bool>)
    ensures |m| == |t.rows|
  {
    seq(|t.rows|, i requires 0 <= i < |t.rows| =>
      ColumnFlags(t, "open", threshold, i) || ColumnFlags(t, "high", threshold, i) ||
      ColumnFlags(t, "low", threshold, i) || ColumnFlags(t, "close", threshold, i))
  }

  // ---------------------------------------------------------------------
  // Properties

  /**
   * The squared form is the z-score test: for any positive standard
   * deviation s with s² = v, |d| / s > threshold exactly when
   * threshold < 0 or d² > threshold² · v.
   */
  lemma ZScoreForm(d: real, s: real, v: real, threshold: real)
    requires s > 0.0 && s * s == v
    ensures Abs(d) / s > threshold <==> threshold < 0.0 || d * d > threshold * threshold * v
  {
    var z := Abs(d) / s;
    assert z * s == Abs(d);
    assert Abs(d) * Abs(d) == d * d;
    assert (threshold * s) * (threshold * s) == threshold * threshold * v;
    if threshold >= 0.0 {
      assert threshold * s >= 0.0;
      if z > threshold {
        assert z * s > threshold * s;
        SquareMonotone(threshold * s, Abs(d));
      } else {
        assert z * s <= threshold * s;
        SquareMonotone(Abs(d), threshold * s);
      }
    }
  }

  /** With a non-negative threshold a value equal to the column mean is never an outlier. */
  lemma MeanNotBeyond(x: real, xs: seq<real>, threshold: real)
    requires |xs| >= 2 && x == Mean(xs) && threshold >= 0.0
    ensures !Beyond(Some(x), xs, threshold)
  {
    var v := SampleVariance(xs).value;
    var d := x - Mean(xs);
    assert d == 0.0 && d * d == 0.0;
    assert threshold * threshold >= 0.0;
    assert threshold * threshold * v >= 0.0;
  }

  /** With a non-negative threshold a column holding one value (nulls aside) flags no row. */
  lemma ConstantColumnNotBeyond(t: PriceTable, name: string, k: real, threshold: real, i: nat)
    requires i < |t.rows| && ColumnIndex(t.columns, name).Some? && threshold >= 0.0
    requires var col := ColumnCells(t.rows, ColumnIndex(t.columns, name).value);
      forall j :: 0 <= j < |col| && col[j].Some? ==> col[j].value == k
    ensures !ColumnFlags(t, name, threshold, i)
  {
    var c := ColumnIndex(t.columns, name).value;
    var col := ColumnCells(t.rows, c);
    var xs := Present(col);
    if Cell(t.rows[i], c).Some? && |xs| >= 2 {
      forall j | 0 <= j < |xs|
        ensures xs[j] == k
      {
        assert Some(xs[j]) in col;
      }
      MeanConstant(xs, k);
      assert col[i] == Cell(t.rows[i], c);
      MeanNotBeyond(Cell(t.rows[i], c).value, xs, threshold);
    }
  }

  /** Raising the threshold flags fewer values. */
  lemma ThresholdMonotone(x: Option<real>, xs: seq<real>, low: real, high: real)
    requires low <= high && Beyond(x, xs, high)
    ensures Beyond(x, xs, low)
  {
    var v := SampleVariance(xs).value;
    if v != 0.0 && low >= 0.0 {
      assert low * low <= high * low <= high * high;
      assert low * low * v <= high * high * v;
    }
  }
}

/**
 * Histogram binning shared by the market and volume profiles: equally
 * spaced edges between the price minimum and maximum, (weighted) counts
 * per bin, the point of control (the first fullest bin) and the value
 * area (the bins holding 70% of the total).
 */
module Binning {
  import opened Common
  import opened Series
  import opened RealArith

  /** `np.linspace(lo, hi, bins + 1)[k]`, in exact arithmetic. */
  function Edge(lo: real, hi: real, bins: nat, k: nat): real
    requires bins >= 1
  {
    lo + (hi - lo) * (k as real) / (bins as real)
  }

  /** `(edges[:-1] + edges[1:]) / 2` at k. */
  function Centre(lo: real, hi: real, bins: nat, k: nat): real
    requires bins >= 1
  {
    (Edge(lo, hi, bins, k) + Edge(lo, hi, bins, k + 1)) / 2.0
  }

  /** The edges run from the minimum to the maximum in steps of (hi - lo) / bins; each centre is its bin's midpoint. */
  lemma EdgesAndCentres(lo: real, hi: real, bins: nat, k: nat)
    requires bins >= 1
    ensures Edge(lo, hi, bins, 0) == lo && Edge(lo, hi, bins, bins) == hi
    ensures Edge(lo, hi, bins, k + 1) - Edge(lo, hi, bins, k) == (hi - lo) / bins as real
    ensures Centre(lo, hi, bins, k) - Edge(lo, hi, bins, k) == Edge(lo, hi, bins, k + 1) - Centre(lo, hi, bins, k)
  {
    var b := bins as real;
    var d := hi - lo;
    assert d * (k + 1) as real / b - d * k as real / b == d / b by {
      assert d * (k + 1) as real == d * k as real + d;
    }
  }

  /** x = u·b/d lies in [0, b) when 0 <= u < d. */
  lemma ScaledRange(u: real, d: real, b: real)
    requires 0.0 <= u < d && b > 0.0
    ensures 0.0 <= u * b / d < b
  {
    assert u * b >= 0.0;
    DivBounds(u * b, d, 0.0, b);
    assert u * b < d * b;
    DivBelow(u * b, d, b);
  }

  /**
   * For lo <= v < hi, the floor of (v - lo)·bins / (hi - lo) is a bin
   * whose left edge is at or below v and whose right edge is above it.
   */
  lemma FloorBin(v: real, lo: real, hi: real, bins: nat)
    requires bins >= 1 && lo <= v < hi
    ensures var x := (v - lo) * bins as real / (hi - lo);
      0 <= x.Floor < bins &&
      Edge(lo, hi, bins, x.Floor as nat) <= v < Edge(lo, hi, bins, x.Floor as nat + 1)
  {
    var x := (v - lo) * bins as real / (hi - lo);
    FloorIndex(v - lo, hi - lo, bins as real, x);
    var k := x.Floor as nat;
    EdgeBracket(v, lo, hi, bins, k);
  }

  /** The floor of x = u·b/d is in [0, b) and brackets u between d·k/b and d·(k + 1)/b. */
  lemma FloorIndex(u: real, d: real, b: real, x: real)
    requires 0.0 <= u < d && b > 0.0 && x == u * b / d
    ensures 0 <= x.Floor && x.Floor as real < b
    ensures d * x.Floor as real / b <= u < d * (x.Floor as real + 1.0) / b
  {
    ScaledRange(u, d, b);
    assert d * x == u * b;
    FloorBracket(u, d, b, x);
  }

  lemma EdgeBracket(v: real, lo: real, hi: real, bins: nat, k: nat)
    requires bins >= 1
    requires (hi - lo) * k as real / bins as real <= v - lo < (hi - lo) * (k as real + 1.0) / bins as real
    ensures Edge(lo, hi, bins, k) <= v < Edge(lo, hi, bins, k + 1)
  {
    assert (k + 1) as real == k as real + 1.0;
  }

  /**
   * The bin `np.histogram` puts v in: bins are half-open [e_k, e_k+1)
   * except the last, which also holds the maximum; values outside
   * [lo, hi] are not counted.
   */
  function BinOf(v: real, lo: real, hi: real, bins: nat): (b: Option<nat>)
    requires bins >= 1 && lo < hi
    ensures b.None? <==> v < lo || v > hi
    ensures b.Some? ==> b.value < bins && Edge(lo, hi, bins, b.value) <= v <= Edge(lo, hi, bins, b.value + 1)
    ensures b.Some? && v < hi ==> v < Edge(lo, hi, bins, b.value + 1)
  {
    if v < lo || v > hi then None
    else if v == hi then
      EdgesAndCentres(lo, hi, bins, bins - 1);
      assert Edge(lo, hi, bins, bins - 1) <= hi by {
        assert (hi - lo) * (bins - 1) as real <= (hi - lo) * bins as real;
        DivAtMost((hi - lo) * (bins - 1) as real, bins as real, hi - lo);
      }
      Some(bins - 1)
    else
      FloorBin(v, lo, hi, bins);
      Some(((v - lo) * bins as real / (hi - lo)).Floor as nat)
  }

  /** `np.histogram(values, bins=edges, weights=weights)`: the weight falling in each bin. */
  function Hist(values: seq<real>, weights: seq<real>, lo: real, hi: real, bins: nat): (h: seq<real>)
    requires |values| == |weights| && bins >= 1 && lo < hi
    ensures |h| == bins
    decreases |values|
  {
    if |values| == 0 then seq(bins, _ => 0.0)
    else
      var n := |values| - 1;
      var h := Hist(values[..n], weights[..n], lo, hi, bins);
      match BinOf(values[n], lo, hi, bins)
      case None => h
      case Some(k) => h[k := h[k] + weights[n]]
  }

  /** The total weight of the values inside [lo, hi]. */
  function InRangeWeight(values: seq<real>, weights: seq<real>, lo: real, hi: real): real
    requires |values| == |weights|
    decreases |values|
  {
    if |values| == 0 then 0.0
    else
      var n := |values| - 1;
      InRangeWeight(values[..n], weights[..n], lo, hi) + (if lo <= values[n] <= hi then weights[n] else 0.0)
  }

  lemma {:induction false} SumZeros(n: nat)
    ensures Sum(seq(n, _ => 0.0)) == 0.0
  {
    if n > 0 {
      assert seq(n, _ => 0.0)[..n - 1] == seq(n - 1, _ => 0.0);
      SumZeros(n - 1);
    }
  }

  /** Adding w to one entry adds w to the sum. */
  lemma {:induction false} SumUpdate(s: seq<real>, k: nat, w: real)
    requires k < |s|
    ensures Sum(s[k := s[k] + w]) == Sum(s) + w
    decreases |s|
  {
    var t := s[k := s[k] + w];
    var n := |s| - 1;
    if k == n {
      assert t[..n] == s[..n];
    } else {
      assert t[..n] == s[..n][k := s[k] + w];
      SumUpdate(s[..n], k, w);
    }
  }

  /** The histogram holds exactly the weight of the values in range. */
  lemma {:induction false} HistTotal(values: seq<real>, weights: seq<real>, lo: real, hi: real, bins: nat)
    requires |values| == |weights| && bins >= 1 && lo < hi
    ensures Sum(Hist(values, weights, lo, hi, bins)) == InRangeWeight(values, weights, lo, hi)
    decreases |values|
  {
    if |values| == 0 {
      SumZeros(bins);
    } else {
      var n := |values| - 1;
      HistTotal(values[..n], weights[..n], lo, hi, bins);
      var h := Hist(values[..n], weights[..n], lo, hi, bins);
      match BinOf(values[n], lo, hi, bins)
      case None =>
      case Some(k) => SumUpdate(h, k, weights[n]);
    }
  }

  /** Non-negative weights give non-negative bins. */
  lemma {:induction false} HistNonNegative(values: seq<real>, weights: seq<real>, lo: real, hi: real, bins: nat)
    requires |values| == |weights| && bins >= 1 && lo < hi
    requires forall j :: 0 <= j < |weights| ==> weights[j] >= 0.0
    ensures forall k :: 0 <= k < bins ==> Hist(values, weights, lo, hi, bins)[k] >= 0.0
    decreases |values|
  {
    if |values| > 0 {
      var n := |values| - 1;
      HistNonNegative(values[..n], weights[..n], lo, hi, bins);
    }
  }

  /** When every value is in range, every weight is counted. */
  lemma {:induction false} InRangeAll(values: seq<real>, weights: seq<real>, lo: real, hi: real)
    requires |values| == |weights|
    requires forall j :: 0 <= j < |values| ==> lo <= values[j] <= hi
    ensures InRangeWeight(values, weights, lo, hi) == Sum(weights)
    decreases |values|
  {
    if |values| > 0 {
      var n := |values| - 1;
      InRangeAll(values[..n], weights[..n], lo, hi);
    }
  }

  /** `np.argmax`: the first index holding the largest entry. */
  function FirstMax(h: seq<real>): (k: nat)
    requires |h| > 0
    ensures k < |h|
    ensures forall j :: 0 <= j < |h| ==> h[j] <= h[k]
    ensures forall j :: 0 <= j < k ==> h[j] < h[k]
  {
    if |h| == 1 then 0
    else
      var n := |h| - 1;
      var k := FirstMax(h[..n]);
      assert forall j :: 0 <= j < n ==> h[..n][j] == h[j];
      if h[n] > h[k] then n else k
  }

  // ---------------------------------------------------------------------
  // Value area

  datatype Area = Area(low: nat, high: nat)

  /** `cumsum[k] <= total * 0.70`. */
  predicate Qualifies(h: seq<real>, k: nat)
    requires k < |h|
  {
    Sum(h[..k + 1]) <= 0.7 * Sum(h)
  }

  /** The first qualifying bin at or after k. */
  function FirstQualifying(h: seq<real>, k: nat): (r: Option<nat>)
    requires k <= |h|
    ensures r.Some? ==> k <= r.value < |h| && Qualifies(h, r.value)
    ensures r.Some? ==> forall j :: k <= j < r.value ==> !Qualifies(h, j)
    ensures r.None? ==> forall j :: k <= j < |h| ==> !Qualifies(h, j)
    decreases |h| - k
  {
    if k == |h| then None
    else if Qualifies(h, k) then Some(k)
    else FirstQualifying(h, k + 1)
  }

  /** The last qualifying bin below k. */
  function LastQualifying(h: seq<real>, k: nat): (r: Option<nat>)
    requires k <= |h|
    ensures r.Some? ==> r.value < k && Qualifies(h, r.value)
    ensures r.Some? ==> forall j :: r.value < j < k ==> !Qualifies(h, j)
    ensures r.None? ==> forall j :: 0 <= j < k ==> !Qualifies(h, j)
  {
    if k == 0 then None
    else if Qualifies(h, k - 1) then Some(k - 1)
    else LastQualifying(h, k - 1)
  }

  /**
   * The value area as the profiles compute it: from the first to the last
   * bin whose running total is within 70% of the whole.
   */
  function PrefixArea(h: seq<real>): (r: Option<Area>)
    ensures r.Some? ==> r.value.low <= r.value.high < |h|
    ensures r.Some? ==> Qualifies(h, r.value.low) && Qualifies(h, r.value.high)
    ensures r.None? <==> forall j :: 0 <= j < |h| ==> !Qualifies(h, j)
  {
    match FirstQualifying(h, 0)
    case None => None
    case Some(first) =>
      var last := LastQualifying(h, |h|);
      Some(Area(first, last.value))
  }

  lemma {:induction false} RunningTotalMonotone(h: seq<real>, j: nat, k: nat)
    requires j <= k < |h|
    requires forall m :: 0 <= m < |h| ==> h[m] >= 0.0
    ensures Sum(h[..j + 1]) <= Sum(h[..k + 1])
    decreases k - j
  {
    if j < k {
      RunningTotalMonotone(h, j, k - 1);
      assert h[..k + 1][..k] == h[..k];
    }
  }

  /**
   * With non-negative bins the running totals never decrease, so the
   * qualifying bins are a prefix: the value area always starts at bin 0
   * and every bin up to its top qualifies.
   */
  lemma PrefixAreaStartsAtZero(h: seq<real>)
    requires forall m :: 0 <= m < |h| ==> h[m] >= 0.0
    ensures PrefixArea(h).Some? ==> PrefixArea(h).value.low == 0
    ensures PrefixArea(h).Some? ==> forall j :: 0 <= j <= PrefixArea(h).value.high ==> Qualifies(h, j)
  {
    if PrefixArea(h).Some? {
      var a := PrefixArea(h).value;
      forall j | 0 <= j <= a.high
        ensures Qualifies(h, j)
      {
        RunningTotalMonotone(h, j, a.high);
      }
    }
  }

  /**
   * The conventional value area: start at the point of control and add
   * the larger neighbouring bin (the upper one on a tie) until 70% of the
   * total is covered or every bin is in.
   */
  function Expand(h: seq<real>, target: real, lo: nat, hi: nat, acc: real): (a: Area)
    requires lo <= hi < |h| && acc == Sum(h[lo..hi + 1])
    ensures a.low <= lo && hi <= a.high < |h|
    decreases lo + (|h| - 1 - hi)
  {
    if acc >= target || (lo == 0 && hi == |h| - 1) then Area(lo, hi)
    else if lo > 0 && (hi == |h| - 1 || h[lo - 1] > h[hi + 1]) then
      SumGrowLeft(h, lo, hi);
      Expand(h, target, lo - 1, hi, acc + h[lo - 1])
    else
      SumGrowRight(h, lo, hi);
      Expand(h, target, lo, hi + 1, acc + h[hi + 1])
  }

  /** The total of the bins from a.low to a.high. */
  function AreaSum(h: seq<real>, a: Area): real
    requires a.low <= a.high < |h|
  {
    Sum(h[a.low..a.high + 1])
  }

  /** The bins of `a` hold at least `target`, or `a` is every bin. */
  predicate Covers(h: seq<real>, a: Area, target: real)
    requires a.low <= a.high < |h|
  {
    AreaSum(h, a) >= target || (a.low == 0 && a.high == |h| - 1)
  }

  /** The grown area reaches the target unless it has taken in every bin. */
  lemma {:induction false} ExpandCovers(h: seq<real>, target: real, lo: nat, hi: nat, acc: real)
    requires lo <= hi < |h| && acc == Sum(h[lo..hi + 1])
    ensures Covers(h, Expand(h, target, lo, hi, acc), target)
    decreases lo + (|h| - 1 - hi)
  {
    if acc >= target || (lo == 0 && hi == |h| - 1) {
      assert Expand(h, target, lo, hi, acc) == Area(lo, hi);
    } else if lo > 0 && (hi == |h| - 1 || h[lo - 1] > h[hi + 1]) {
      SumGrowLeft(h, lo, hi);
      ExpandCovers(h, target, lo - 1, hi, acc + h[lo - 1]);
    } else {
      SumGrowRight(h, lo, hi);
      ExpandCovers(h, target, lo, hi + 1, acc + h[hi + 1]);
    }
  }

  /** Taking in the bin below a run adds that bin to the run's total. */
  lemma SumGrowLeft(h: seq<real>, lo: nat, hi: nat)
    requires 0 < lo <= hi < |h|
    ensures Sum(h[lo - 1..hi + 1]) == h[lo - 1] + Sum(h[lo..hi + 1])
  {
    assert h[lo - 1..hi + 1] == [h[lo - 1]] + h[lo..hi + 1];
    SumConcat([h[lo - 1]], h[lo..hi + 1]);
    assert [h[lo - 1]][..0] == [];
  }

  /** Taking in the bin above a run adds that bin to the run's total. */
  lemma SumGrowRight(h: seq<real>, lo: nat, hi: nat)
    requires lo <= hi && hi + 1 < |h|
    ensures Sum(h[lo..hi + 2]) == Sum(h[lo..hi + 1]) + h[hi + 1]
  {
    assert h[lo..hi + 2][..hi + 1 - lo] == h[lo..hi + 1];
  }

  /**
   * The conventional value area grown from the point of control; with
   * non-negative bins it always holds at least 70% of the total.
   */
  function CorrectedArea(h: seq<real>): (a: Area)
    requires |h| > 0
    ensures a.low <= FirstMax(h) <= a.high < |h|
    ensures AreaSum(h, a) >= 0.7 * Sum(h) || (a.low == 0 && a.high == |h| - 1)
    ensures (forall m :: 0 <= m < |h| ==> h[m] >= 0.0) ==> AreaSum(h, a) >= 0.7 * Sum(h)
  {
    var poc := FirstMax(h);
    assert h[poc..poc + 1] == [h[poc]] && [h[poc]][..0] == [];
    ExpandCovers(h, 0.7 * Sum(h), poc, poc, h[poc]);
    var a := Expand(h, 0.7 * Sum(h), poc, poc, h[poc]);
    WholeShare(h, a);
    a
  }

  lemma {:induction false} SumNonNegative(s: seq<real>)
    requires forall m :: 0 <= m < |s| ==> s[m] >= 0.0
    ensures Sum(s) >= 0.0
  {
    if |s| > 0 {
      SumNonNegative(s[..|s| - 1]);
    }
  }

  /** An area of every bin holds the whole total, so at least 70% of non-negative bins. */
  lemma WholeShare(h: seq<real>, a: Area)
    requires a.low <= a.high < |h|
    ensures a.low == 0 && a.high == |h| - 1 ==> AreaSum(h, a) == Sum(h)
    ensures a.low == 0 && a.high == |h| - 1 && (forall m :: 0 <= m < |h| ==> h[m] >= 0.0) ==> AreaSum(h, a) >= 0.7 * Sum(h)
  {
    if a.low == 0 && a.high == |h| - 1 {
      assert h[a.low..a.high + 1] == h;
      if forall m :: 0 <= m < |h| ==> h[m] >= 0.0 {
        SumNonNegative(h);
      }
    }
  }

  /**
   * The value area of a histogram whose total is positive, by the rule the
   * profiles use (`corrected` false) or the conventional one; None means
   * both ends fall back to the point of control.
   */
  function ValueArea(h: seq<real>, corrected: bool): (r: Option<Area>)
    requires |h| > 0
    ensures r.Some? ==> Sum(h) > 0.0 && r.value.low <= r.value.high < |h|
  {
    if Sum(h) <= 0.0 then None
    else if corrected then Some(CorrectedArea(h))
    else PrefixArea(h)
  }

  /**
   * As written, a histogram [1, 0, 9] has its point of control in bin 2
   * but its value area is bins 0..1, which leave out 90% of the weight; the
   * conventional area is bin 2 alone.
   */
  lemma PrefixAreaMissesPoc()
    ensures FirstMax([1.0, 0.0, 9.0]) == 2
    ensures ValueArea([1.0, 0.0, 9.0], false) == Some(Area(0, 1))
    ensures ValueArea([1.0, 0.0, 9.0], true) == Some(Area(2, 2))
  {
    var h := [1.0, 0.0, 9.0];
    assert h[..1] == [1.0] && h[..2] == [1.0, 0.0] && h[..3] == h;
    assert [1.0, 0.0][..1] == [1.0] && [1.0][..0] == [];
    assert Sum(h) == 10.0;
    assert FirstMax(h) == 2 by {
      assert h[..2] == [1.0, 0.0];
    }
    assert h[2..3] == [9.0];
  }

  // ---------------------------------------------------------------------
  // Edges are increasing; centres lie strictly inside the price range

  lemma EdgeStrict(lo: real, hi: real, bins: nat, j: nat, k: nat)
    requires bins >= 1 && lo < hi && j < k
    ensures Edge(lo, hi, bins, j) < Edge(lo, hi, bins, k)
  {
    ScaleStrict(hi - lo, j as real, k as real);
    DivStrict((hi - lo) * j as real, (hi - lo) * k as real, bins as real);
  }

  lemma EdgeMonotone(lo: real, hi: real, bins: nat, j: nat, k: nat)
    requires bins >= 1 && lo < hi && j <= k
    ensures Edge(lo, hi, bins, j) <= Edge(lo, hi, bins, k)
  {
    if j < k {
      EdgeStrict(lo, hi, bins, j, k);
    }
  }

  /** Every bin centre lies strictly between the minimum and the maximum, and centres increase with the bin. */
  lemma CentreWithin(lo: real, hi: real, bins: nat, j: nat, k: nat)
    requires bins >= 1 && lo < hi && j <= k < bins
    ensures lo < Centre(lo, hi, bins, j) <= Centre(lo, hi, bins, k) < hi
  {
    EdgesAndCentres(lo, hi, bins, 0);
    EdgeMonotone(lo, hi, bins, 0, j);
    EdgeStrict(lo, hi, bins, j, j + 1);
    EdgeMonotone(lo, hi, bins, j, k);
    EdgeMonotone(lo, hi, bins, j + 1, k + 1);
    EdgeStrict(lo, hi, bins, k, k + 1);
    EdgeMonotone(lo, hi, bins, k + 1, bins);
  }

  // ---------------------------------------------------------------------
  // The levels of one bar

  /** `window_size = min(20, len(df) // 2)`. */
  function ProfileWindow(n: nat): nat
  {
    if 20 < n / 2 then 20 else n / 2
  }

  /** Point of control, value-area high and value-area low of one bar. */
  datatype Levels = Levels(poc: real, valueHigh: real, valueLow: real)

  /**
   * The three levels read off one histogram: the centre of its first
   * fullest bin and the centres of the value area's ends, or the point of
   * control for both when there is no value area. `corrected` selects the
   * conventional value area instead of the one the profiles compute.
   */
  function LevelsOf(h: seq<real>, lo: real, hi: real, bins: nat, corrected: bool): Levels
    requires bins >= 1 && |h| == bins
  {
    var poc := Centre(lo, hi, bins, FirstMax(h));
    match ValueArea(h, corrected)
    case None => Levels(poc, poc, poc)
    case Some(a) => Levels(poc, Centre(lo, hi, bins, a.high), Centre(lo, hi, bins, a.low))
  }

  /**
   * With the conventional value area and a positive total, the point of
   * control lies between the value-area ends, and the bins between them
   * hold at least 70% of the total.
   */
  lemma CorrectedLevelsShape(h: seq<real>, lo: real, hi: real, bins: nat)
    requires bins >= 1 && |h| == bins && lo < hi && Sum(h) > 0.0
    requires forall m :: 0 <= m < |h| ==> h[m] >= 0.0
    ensures var l := LevelsOf(h, lo, hi, bins, true);
      var a := CorrectedArea(h);
      l.valueLow == Centre(lo, hi, bins, a.low) && l.valueHigh == Centre(lo, hi, bins, a.high) &&
      lo < l.valueLow <= l.poc <= l.valueHigh < hi &&
      AreaSum(h, a) >= 0.7 * Sum(h)
  {
    var a := CorrectedArea(h);
    CentreWithin(lo, hi, bins, a.low, FirstMax(h));
    CentreWithin(lo, hi, bins, FirstMax(h), a.high);
  }

  /**
   * The body of the profile loops: argmax, point of control, total, and
   * the `cumsum <= 0.70 * total` mask's first and last set entries.
   */
  method ReadLevels(hist: seq<real>, lo: real, hi: real, bins: nat) returns (poc: real, valueHigh: real, valueLow: real)
    requires bins >= 1 && |hist| == bins
    ensures Levels(poc, valueHigh, valueLow) == LevelsOf(hist, lo, hi, bins, false)
  {
    var maxIdx := FirstMax(hist);
    poc := Centre(lo, hi, bins, maxIdx);
    valueLow, valueHigh := poc, poc;
    var total := Sum(hist);
    if total > 0.0 {
      var first := FirstQualifying(hist, 0);
      if first.Some? {
        var last := LastQualifying(hist, bins);
        valueLow := Centre(lo, hi, bins, first.value);
        valueHigh := Centre(lo, hi, bins, last.value);
      }
    }
  }

  /**
   * For a histogram of non-negative weights over lo < hi: the point of
   * control is the centre of a fullest bin; the value-area low is the
   * first bin centre exactly when the total is positive and the first
   * bin qualifies, and otherwise both value-area ends are the point of
   * control; the low never exceeds the high and all three lie strictly
   * inside (lo, hi).
   */
  lemma LevelsShape(h: seq<real>, lo: real, hi: real, bins: nat)
    requires bins >= 1 && |h| == bins && lo < hi
    requires forall m :: 0 <= m < |h| ==> h[m] >= 0.0
    ensures var l := LevelsOf(h, lo, hi, bins, false);
      var k := FirstMax(h);
      l.poc == Centre(lo, hi, bins, k) && (forall j :: 0 <= j < bins ==> h[j] <= h[k]) &&
      lo < l.valueLow <= l.valueHigh < hi && lo < l.poc < hi &&
      (Sum(h) > 0.0 && Qualifies(h, 0) ==> l.valueLow == Centre(lo, hi, bins, 0)) &&
      (!(Sum(h) > 0.0 && Qualifies(h, 0)) ==> l.valueLow == l.poc && l.valueHigh == l.poc)
  {
    var k := FirstMax(h);
    CentreWithin(lo, hi, bins, k, k);
    PrefixAreaStartsAtZero(h);
    var va := ValueArea(h, false);
    if va.Some? {
      CentreWithin(lo, hi, bins, va.value.low, va.value.high);
      assert Qualifies(h, va.value.low);
      assert Qualifies(h, 0);
    } else if Sum(h) > 0.0 {
      assert !Qualifies(h, 0);
    }
  }

  // ---------------------------------------------------------------------
  // np.digitize and the clamped bin of the current price

  /** How many of the first m edges are at or below x. */
  function EdgesAtMost(x: real, lo: real, hi: real, bins: nat, m: nat): (c: nat)
    requires bins >= 1
    ensures c <= m
  {
    if m == 0 then 0 else EdgesAtMost(x, lo, hi, bins, m - 1) + (if Edge(lo, hi, bins, m - 1) <= x then 1 else 0)
  }

  /**
   * `np.digitize(x, bin_edges) - 1` clamped into [0, bins - 1]: digitize
   * counts the (increasing) edges at or below x.
   */
  function DigitizeIndex(x: real, lo: real, hi: real, bins: nat): (k: nat)
    requires bins >= 1
    ensures k < bins
  {
    var raw := EdgesAtMost(x, lo, hi, bins, bins + 1) as int - 1;
    if raw < 0 then 0 else if raw > bins - 1 then bins - 1 else raw
  }

  /** With increasing edges, the count of edges at or below x is the first edge above it. */
  lemma {:induction false} EdgesAtMostCount(x: real, lo: real, hi: real, bins: nat, m: nat, t: nat)
    requires bins >= 1 && lo < hi && t <= bins + 1 && m <= bins + 1
    requires forall j :: 0 <= j < t ==> Edge(lo, hi, bins, j) <= x
    requires t <= bins ==> x < Edge(lo, hi, bins, t)
    ensures EdgesAtMost(x, lo, hi, bins, m) == if m < t then m else t
  {
    if m > 0 {
      EdgesAtMostCount(x, lo, hi, bins, m - 1, t);
      if m - 1 >= t {
        EdgeMonotone(lo, hi, bins, t, m - 1);
      }
    }
  }

  /**
   * The clamped digitize index: bin 0 below the minimum, the last bin at or
   * above the maximum, and in between the bin np.histogram counts x in.
   */
  lemma DigitizeMatchesBin(x: real, lo: real, hi: real, bins: nat)
    requires bins >= 1 && lo < hi
    ensures x < lo ==> DigitizeIndex(x, lo, hi, bins) == 0
    ensures x >= hi ==> DigitizeIndex(x, lo, hi, bins) == bins - 1
    ensures lo <= x < hi ==> BinOf(x, lo, hi, bins) == Some(DigitizeIndex(x, lo, hi, bins))
  {
    EdgesAndCentres(lo, hi, bins, 0);
    if x < lo {
      EdgesAtMostCount(x, lo, hi, bins, bins + 1, 0);
    } else if x >= hi {
      forall j | 0 <= j < bins + 1
        ensures Edge(lo, hi, bins, j) <= x
      {
        EdgeMonotone(lo, hi, bins, j, bins);
      }
      EdgesAtMostCount(x, lo, hi, bins, bins + 1, bins + 1);
    } else {
      var k := BinOf(x, lo, hi, bins).value;
      forall j | 0 <= j < k + 1
        ensures Edge(lo, hi, bins, j) <= x
      {
        EdgeMonotone(lo, hi, bins, j, k);
      }
      EdgesAtMostCount(x, lo, hi, bins, bins + 1, k + 1);
    }
  }

  /** An entry of a non-negative sequence is at most its sum. */
  lemma {:induction false} EntryAtMostSum(s: seq<real>, k: nat)
    requires k < |s|
    requires forall m :: 0 <= m < |s| ==> s[m] >= 0.0
    ensures s[k] <= Sum(s)
  {
    var n := |s| - 1;
    SumNonNegative(s[..n]);
    if k < n {
      EntryAtMostSum(s[..n], k);
    }
  }

  /** The all-ones weights `np.histogram` uses when none are given. */
  function Ones(n: nat): (r: seq<real>)
    ensures |r| == n && forall j :: 0 <= j < n ==> r[j] == 1.0
  {
    seq(n, _ => 1.0)
  }
}

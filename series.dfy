/**
 * Column arithmetic shared by the indicators: sums and means, minima and
 * maxima, the trailing windows of pandas `rolling`, shifts, and the
 * scalar `clip`. A column without NaN is a `seq<real>`; a column that may
 * hold NaN is a `seq<Option<real>>`; a quotient whose infinity matters is
 * a `Float`.
 */
module Series {
  import opened Common

  /** A quotient as a float: finite, an infinity, or NaN. */
  datatype Float = Finite(v: real) | PosInf | NegInf | NaN

  /** IEEE division of two finite values. */
  function Div(a: real, b: real): (r: Float)
    ensures b != 0.0 <==> r.Finite?
    ensures b != 0.0 ==> r.v * b == a
    ensures b == 0.0 ==> (r == NaN <==> a == 0.0) && (r == PosInf <==> a > 0.0)
  {
    if b != 0.0 then Finite(a / b)
    else if a > 0.0 then PosInf
    else if a < 0.0 then NegInf
    else NaN
  }

  function Sum(s: seq<real>): real
  {
    if |s| == 0 then 0.0 else Sum(s[..|s| - 1]) + s[|s| - 1]
  }

  function Mean(s: seq<real>): real
    requires |s| > 0
  {
    Sum(s) / |s| as real
  }

  function Min(s: seq<real>): (m: real)
    requires |s| > 0
    ensures forall i :: 0 <= i < |s| ==> m <= s[i]
    ensures exists i :: 0 <= i < |s| && s[i] == m
  {
    if |s| == 1 then s[0]
    else
      var m' := Min(s[..|s| - 1]);
      assert forall i :: 0 <= i < |s| - 1 ==> s[..|s| - 1][i] == s[i];
      if s[|s| - 1] < m' then s[|s| - 1] else m'
  }

  function Max(s: seq<real>): (m: real)
    requires |s| > 0
    ensures forall i :: 0 <= i < |s| ==> s[i] <= m
    ensures exists i :: 0 <= i < |s| && s[i] == m
  {
    if |s| == 1 then s[0]
    else
      var m' := Max(s[..|s| - 1]);
      assert forall i :: 0 <= i < |s| - 1 ==> s[..|s| - 1][i] == s[i];
      if s[|s| - 1] > m' then s[|s| - 1] else m'
  }

  /** A sum of terms in [lo, hi] lies in [n·lo, n·hi]. */
  lemma {:induction false} SumBounds(s: seq<real>, lo: real, hi: real)
    requires forall i :: 0 <= i < |s| ==> lo <= s[i] <= hi
    ensures |s| as real * lo <= Sum(s) <= |s| as real * hi
  {
    if |s| > 0 {
      SumBounds(s[..|s| - 1], lo, hi);
    }
  }

  /** The sum of n copies of c is n·c. */
  lemma {:induction false} SumConstant(s: seq<real>, c: real)
    requires forall i :: 0 <= i < |s| ==> s[i] == c
    ensures Sum(s) == |s| as real * c
  {
    if |s| > 0 {
      SumConstant(s[..|s| - 1], c);
    }
  }

  lemma {:induction false} SumConcat(a: seq<real>, b: seq<real>)
    ensures Sum(a + b) == Sum(a) + Sum(b)
  {
    if |b| > 0 {
      assert (a + b)[..|a + b| - 1] == a + b[..|b| - 1];
      SumConcat(a, b[..|b| - 1]);
    } else {
      assert a + b == a;
    }
  }

  /** q/p lies in [lo, hi] when q lies in [p·lo, p·hi] and p > 0. */
  lemma DivBounds(q: real, p: real, lo: real, hi: real)
    requires p > 0.0 && p * lo <= q <= p * hi
    ensures lo <= q / p <= hi
  {
    var r := q / p;
    assert r * p == q;
    assert (r - lo) * p >= 0.0;
    assert (hi - r) * p >= 0.0;
  }

  /** A non-zero factor cancels. */
  lemma CancelFactor(a: real, b: real, c: real)
    requires c != 0.0 && a * c == b * c
    ensures a == b
  {
    assert (a - b) * c == 0.0;
  }

  lemma DivByRatio(c: real, a: real, b: real)
    requires a != 0.0 && b != 0.0
    ensures c / (a / b) == c * b / a
  {
  }

  /** The mean lies in [lo, hi] when every term does. */
  lemma MeanWithin(s: seq<real>, lo: real, hi: real)
    requires |s| > 0
    requires forall i :: 0 <= i < |s| ==> lo <= s[i] <= hi
    ensures lo <= Mean(s) <= hi
  {
    SumBounds(s, lo, hi);
    DivBounds(Sum(s), |s| as real, lo, hi);
  }

  /** The mean lies between the minimum and the maximum. */
  lemma MeanBetweenMinMax(s: seq<real>)
    requires |s| > 0
    ensures Min(s) <= Mean(s) <= Max(s)
  {
    MeanWithin(s, Min(s), Max(s));
  }

  lemma MeanConstant(s: seq<real>, c: real)
    requires |s| > 0
    requires forall i :: 0 <= i < |s| ==> s[i] == c
    ensures Mean(s) == c
  {
    SumConstant(s, c);
  }

  // ---------------------------------------------------------------------
  // Trailing windows: `rolling(window=w)` at row i covers rows
  // max(0, i - w + 1) .. i.

  function WindowStart(w: nat, i: nat): (k: nat)
    ensures w >= 1 ==> k <= i
  {
    if i + 1 >= w then i + 1 - w else 0
  }

  function Trailing<T>(s: seq<T>, w: nat, i: nat): (r: seq<T>)
    requires i < |s|
    ensures 1 <= |r| || w == 0
  {
    if w == 0 then [] else s[WindowStart(w, i)..i + 1]
  }

  /** `s.rolling(window=w, min_periods=1).mean()` on a column without NaN. */
  function RollingMean(s: seq<real>, w: nat): (r: seq<real>)
    requires w >= 1
    ensures |r| == |s|
    ensures forall i :: 0 <= i < |s| ==> |Trailing(s, w, i)| > 0 && r[i] == Mean(Trailing(s, w, i))
  {
    seq(|s|, i requires 0 <= i < |s| => Mean(Trailing(s, w, i)))
  }

  /** `rolling(window=w, min_periods=1).max()` / `.min()` on a column without NaN. */
  function RollingMax(s: seq<real>, w: nat): (r: seq<real>)
    requires w >= 1
    ensures |r| == |s|
    ensures forall i :: 0 <= i < |s| ==> |Trailing(s, w, i)| > 0 && r[i] == Max(Trailing(s, w, i))
  {
    seq(|s|, i requires 0 <= i < |s| => Max(Trailing(s, w, i)))
  }

  function RollingMin(s: seq<real>, w: nat): (r: seq<real>)
    requires w >= 1
    ensures |r| == |s|
    ensures forall i :: 0 <= i < |s| ==> |Trailing(s, w, i)| > 0 && r[i] == Min(Trailing(s, w, i))
  {
    seq(|s|, i requires 0 <= i < |s| => Min(Trailing(s, w, i)))
  }

  /** Each rolling mean lies between the minimum and maximum of its window. */
  lemma RollingMeanBounds(s: seq<real>, w: nat, i: nat)
    requires w >= 1 && i < |s|
    ensures Min(Trailing(s, w, i)) <= RollingMean(s, w)[i] <= Max(Trailing(s, w, i))
  {
    MeanBetweenMinMax(Trailing(s, w, i));
  }

  // ---------------------------------------------------------------------
  // Columns with NaN.

  function Lift(s: seq<real>): (r: seq<Option<real>>)
    ensures |r| == |s| && forall i :: 0 <= i < |s| ==> r[i] == Some(s[i])
  {
    seq(|s|, i requires 0 <= i < |s| => Some(s[i]))
  }

  predicate AllSome(s: seq<Option<real>>)
  {
    forall i :: 0 <= i < |s| ==> s[i].Some?
  }

  function Values(s: seq<Option<real>>): (r: seq<real>)
    requires AllSome(s)
    ensures |r| == |s| && forall i :: 0 <= i < |s| ==> Some(r[i]) == s[i]
  {
    seq(|s|, i requires 0 <= i < |s| => s[i].value)
  }

  /** A bound above every defined entry of a column. */
  function UpperBound(x: seq<Option<real>>): (m: real)
    ensures forall k :: 0 <= k < |x| && x[k].Some? ==> x[k].value <= m
  {
    if |x| == 0 then 0.0
    else
      var m' := UpperBound(x[..|x| - 1]);
      assert forall k :: 0 <= k < |x| - 1 ==> x[..|x| - 1][k] == x[k];
      if x[|x| - 1].Some? && x[|x| - 1].value > m' then x[|x| - 1].value else m'
  }

  /** Every entry of a sequence lies between its minimum and maximum. */
  lemma MinMaxOf(s: seq<real>, v: real)
    requires v in s
    ensures Min(s) <= v <= Max(s)
  {
  }

  /** The non-NaN entries of a column, in order (what `nanmin`, `nanmax` and `min_periods=1` see). */
  function Present(s: seq<Option<real>>): (r: seq<real>)
    ensures |r| <= |s|
    ensures forall x :: x in r <==> Some(x) in s
  {
    if |s| == 0 then []
    else
      var r' := Present(s[..|s| - 1]);
      assert s == s[..|s| - 1] + [s[|s| - 1]];
      if s[|s| - 1].Some? then r' + [s[|s| - 1].value] else r'
  }

  /**
   * `rolling(window=w, min_periods=w).mean()` at row i: NaN before a full
   * window exists or when the window holds a NaN. A window of 0 rows
   * gives NaN everywhere.
   */
  function RollingMeanFull(x: seq<Option<real>>, w: nat, i: nat): (r: Option<real>)
    requires i < |x|
    ensures r.Some? <==> w >= 1 && i + 1 >= w && AllSome(x[i + 1 - w..i + 1])
  {
    if w == 0 || i + 1 < w then None
    else
      var win := x[i + 1 - w..i + 1];
      if AllSome(win) then Some(Mean(Values(win))) else None
  }

  /** `rolling(window=w, min_periods=1).mean()` on a column that may hold NaN. */
  function RollingMeanPresent(x: seq<Option<real>>, w: nat, i: nat): (r: Option<real>)
    requires w >= 1 && i < |x|
    ensures r.Some? <==> |Present(Trailing(x, w, i))| > 0
  {
    var p := Present(Trailing(x, w, i));
    if |p| == 0 then None else Some(Mean(p))
  }

  /** `shift(k)` for k >= 0: row i takes row i - k, the first k rows are NaN. */
  function ShiftForward(x: seq<Option<real>>, k: nat): (r: seq<Option<real>>)
    ensures |r| == |x|
    ensures forall i :: 0 <= i < |x| ==> r[i] == (if i < k then None else x[i - k])
  {
    seq(|x|, i requires 0 <= i < |x| => if i < k then None else x[i - k])
  }

  /** `shift(-k)` for k >= 0: row i takes row i + k, the last k rows are NaN. */
  function ShiftBack(x: seq<Option<real>>, k: nat): (r: seq<Option<real>>)
    ensures |r| == |x|
    ensures forall i :: 0 <= i < |x| ==> r[i] == (if i + k < |x| then x[i + k] else None)
  {
    seq(|x|, i requires 0 <= i < |x| => if i + k < |x| then x[i + k] else None)
  }

  /**
   * `shift(-k)` undoes `shift(k)` on every row whose value survives both
   * shifts, and `shift(k)` undoes `shift(-k)` likewise; the other rows are NaN.
   */
  lemma ShiftRoundTrip(x: seq<Option<real>>, k: nat, i: nat)
    requires i < |x|
    ensures ShiftBack(ShiftForward(x, k), k)[i] == (if i + k < |x| then x[i] else None)
    ensures ShiftForward(ShiftBack(x, k), k)[i] == (if i >= k then x[i] else None)
  {
  }

  /** The absolute value. */
  function Abs(x: real): (r: real)
    ensures r >= 0.0 && (r == x || r == -x)
  {
    if x < 0.0 then -x else x
  }

  function Max2(a: real, b: real): (r: real)
    ensures r >= a && r >= b && (r == a || r == b)
  {
    if a >= b then a else b
  }

  function Min2(a: real, b: real): (r: real)
    ensures r <= a && r <= b && (r == a || r == b)
  {
    if a <= b then a else b
  }

  /**
   * pandas `Series.clip(lower=a, upper=b)` with scalar bounds: reversed
   * bounds are swapped before clipping.
   */
  function Clip(x: real, a: real, b: real): (r: real)
    ensures Min2(a, b) <= r <= Max2(a, b)
    ensures Min2(a, b) <= x <= Max2(a, b) ==> r == x
    ensures x < Min2(a, b) ==> r == Min2(a, b)
    ensures x > Max2(a, b) ==> r == Max2(a, b)
  {
    var lo := Min2(a, b);
    var hi := Max2(a, b);
    if x < lo then lo else if x > hi then hi else x
  }

  /** a·x + (1 - a)·y: one step of an exponential recurrence. */
  function Blend(a: real, x: real, y: real): real
  {
    a * x + (1.0 - a) * y
  }

  /** a·x + (1 - a)·y stays in [lo, hi] when x and y do and 0 <= a <= 1. */
  lemma ConvexWithin(a: real, x: real, y: real, lo: real, hi: real)
    requires 0.0 <= a <= 1.0
    requires lo <= x <= hi && lo <= y <= hi
    ensures lo <= Blend(a, x, y) <= hi
  {
    assert a * x >= a * lo;
    assert a * x <= a * hi;
    assert (1.0 - a) * y >= (1.0 - a) * lo;
    assert (1.0 - a) * y <= (1.0 - a) * hi;
  }
}

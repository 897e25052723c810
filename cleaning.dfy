/**
 * The price-table side of the data cleaner: rows keyed by timestamp,
 * removal of masked rows, keep-first de-duplication, the OHLC validity
 * mask, null counting, dropping and forward/backward filling, and the
 * cleaning metadata the steps record into.
 */
module Cleaning {
  import opened Common

  /** One row of a price table: its timestamp and one cell per column (None is NaN). */
  datatype Row = Row(time: int, cells: seq<Option<real>>)

  datatype PriceTable = PriceTable(columns: seq<string>, rows: seq<Row>)

  /** Every row has one cell per column. */
  predicate Shaped(t: PriceTable)
  {
    forall r :: r in t.rows ==> |r.cells| == |t.columns|
  }

  function Times(rows: seq<Row>): (r: seq<int>)
    ensures |r| == |rows| && forall i :: 0 <= i < |rows| ==> r[i] == rows[i].time
  {
    seq(|rows|, i requires 0 <= i < |rows| => rows[i].time)
  }

  /** Each timestamp is later than the one before it. */
  predicate StrictlyIncreasing(rows: seq<Row>)
  {
    |rows| < 2 || (rows[0].time < rows[1].time && StrictlyIncreasing(rows[1..]))
  }

  /** Strictly increasing means every earlier row has an earlier timestamp. */
  lemma {:induction false} IncreasingPairs(rows: seq<Row>)
    ensures StrictlyIncreasing(rows) <==> forall i, j :: 0 <= i < j < |rows| ==> rows[i].time < rows[j].time
  {
    if |rows| >= 2 {
      var rest := rows[1..];
      IncreasingPairs(rest);
      if StrictlyIncreasing(rows) {
        forall i, j | 0 <= i < j < |rows|
          ensures rows[i].time < rows[j].time
        {
          assert rows[j] == rest[j - 1];
          if i > 0 {
            assert rows[i] == rest[i - 1];
          } else if j > 1 {
            assert rest[0].time < rest[j - 1].time;
          }
        }
      }
      if forall i, j :: 0 <= i < j < |rows| ==> rows[i].time < rows[j].time {
        forall i, j | 0 <= i < j < |rest|
          ensures rest[i].time < rest[j].time
        {
          assert rest[i] == rows[i + 1] && rest[j] == rows[j + 1];
        }
      }
    }
  }

  // ---------------------------------------------------------------------
  // Column names

  /** `[col.lower().strip() for col in cleaned.columns]`. */
  function NormalizeColumns(columns: seq<string>): (r: seq<string>)
    ensures |r| == |columns| && forall i :: 0 <= i < |columns| ==> r[i] == NormalizeName(columns[i])
  {
    seq(|columns|, i requires 0 <= i < |columns| => NormalizeName(columns[i]))
  }

  /** Normalising the names twice is the same as once. */
  lemma NormalizeColumnsIdempotent(columns: seq<string>)
    ensures NormalizeColumns(NormalizeColumns(columns)) == NormalizeColumns(columns)
  {
    forall i | 0 <= i < |columns|
      ensures NormalizeName(NormalizeName(columns[i])) == NormalizeName(columns[i])
    {
      NormalizeNameIdempotent(columns[i]);
    }
  }

  /** The position of the first column with this name (`df[name]`). */
  function ColumnIndex(columns: seq<string>, name: string): (r: Option<nat>)
    ensures r.None? <==> name !in columns
    ensures r.Some? ==> r.value < |columns| && columns[r.value] == name
    ensures r.Some? ==> forall j :: 0 <= j < r.value ==> columns[j] != name
  {
    if |columns| == 0 then None
    else if columns[0] == name then Some(0)
    else match ColumnIndex(columns[1..], name)
      case None => None
      case Some(k) => Some(k + 1)
  }

  // ---------------------------------------------------------------------
  // Boolean masks: `frame[~mask]` and `mask.sum()`

  function CountTrue(mask: seq<bool>): (n: nat)
    ensures n <= |mask|
  {
    if |mask| == 0 then 0 else CountTrue(mask[..|mask| - 1]) + (if mask[|mask| - 1] then 1 else 0)
  }

  /** The positions a mask leaves in, in increasing order. */
  function Kept(mask: seq<bool>): (ix: seq<nat>)
    ensures |ix| + CountTrue(mask) == |mask|
    ensures forall k :: 0 <= k < |ix| ==> ix[k] < |mask| && !mask[ix[k]]
  {
    if |mask| == 0 then []
    else
      var n := |mask| - 1;
      var ix := Kept(mask[..n]);
      if mask[n] then ix else ix + [n]
  }

  /** The kept positions are strictly increasing. */
  lemma {:induction false} KeptIncreasing(mask: seq<bool>)
    ensures forall k, m :: 0 <= k < m < |Kept(mask)| ==> Kept(mask)[k] < Kept(mask)[m]
  {
    if |mask| > 0 {
      var n := |mask| - 1;
      KeptIncreasing(mask[..n]);
      var prev := Kept(mask[..n]);
      assert Kept(mask) == if mask[n] then prev else prev + [n];
    }
  }

  /** Every position whose mask entry is false is kept. */
  lemma {:induction false} KeptCovers(mask: seq<bool>)
    ensures forall i :: 0 <= i < |mask| && !mask[i] ==> i in Kept(mask)
  {
    if |mask| > 0 {
      var n := |mask| - 1;
      KeptCovers(mask[..n]);
      forall i | 0 <= i < n && !mask[i]
        ensures i in Kept(mask)
      {
        assert mask[..n][i] == mask[i];
      }
    }
  }

  /** `rows[~mask]`: the rows whose mask entry is false, in order. */
  function Keep<T>(rows: seq<T>, mask: seq<bool>): (r: seq<T>)
    requires |mask| == |rows|
    ensures |r| + CountTrue(mask) == |rows|
    ensures forall k :: 0 <= k < |r| ==> r[k] == rows[Kept(mask)[k]]
  {
    var ix := Kept(mask);
    seq(|ix|, k requires 0 <= k < |ix| => rows[ix[k]])
  }

  /** Every kept row is a row of the input. */
  lemma KeepMembers<T>(rows: seq<T>, mask: seq<bool>)
    requires |mask| == |rows|
    ensures forall x :: x in Keep(rows, mask) ==> x in rows
  {
    var r := Keep(rows, mask);
    forall x | x in r
      ensures x in rows
    {
      var k :| 0 <= k < |r| && r[k] == x;
      assert rows[Kept(mask)[k]] == x;
    }
  }

  /** Removing rows keeps a strictly increasing sequence of timestamps strictly increasing. */
  lemma KeepIncreasing(rows: seq<Row>, mask: seq<bool>)
    requires |mask| == |rows| && StrictlyIncreasing(rows)
    ensures StrictlyIncreasing(Keep(rows, mask))
  {
    var r := Keep(rows, mask);
    var ix := Kept(mask);
    KeptIncreasing(mask);
    IncreasingPairs(rows);
    forall k, m | 0 <= k < m < |r|
      ensures r[k].time < r[m].time
    {
      assert ix[k] < ix[m];
    }
    IncreasingPairs(r);
  }

  // ---------------------------------------------------------------------
  // De-duplication: `~index.duplicated(keep='first')`

  /** A row is a duplicate when an earlier row has the same timestamp. */
  function DuplicatedMask(rows: seq<Row>): (m: seq<bool>)
    ensures |m| == |rows|
    ensures forall i :: 0 <= i < |rows| ==> (m[i] <==> exists j :: 0 <= j < i && rows[j].time == rows[i].time)
  {
    seq(|rows|, i requires 0 <= i < |rows| => exists j :: 0 <= j < i && rows[j].time == rows[i].time)
  }

  function Deduplicate(rows: seq<Row>): seq<Row>
  {
    Keep(rows, DuplicatedMask(rows))
  }

  /** Every timestamp has an unmasked first occurrence at or before each of its rows. */
  lemma {:induction false} FirstOccurrence(rows: seq<Row>, i: nat)
    requires i < |rows|
    ensures exists j :: 0 <= j <= i && rows[j].time == rows[i].time && !DuplicatedMask(rows)[j]
    decreases i
  {
    if DuplicatedMask(rows)[i] {
      var j :| 0 <= j < i && rows[j].time == rows[i].time;
      FirstOccurrence(rows, j);
    }
  }

  /** Keep-first de-duplication leaves pairwise distinct timestamps. */
  lemma DeduplicateDistinct(rows: seq<Row>)
    ensures var r := Deduplicate(rows);
      forall k, m :: 0 <= k < m < |r| ==> r[k].time != r[m].time
  {
    var mask := DuplicatedMask(rows);
    var ix := Kept(mask);
    var r := Deduplicate(rows);
    KeptIncreasing(mask);
    forall k, m | 0 <= k < m < |r|
      ensures r[k].time != r[m].time
    {
      assert ix[k] < ix[m] && !mask[ix[m]];
      assert r[k] == rows[ix[k]] && r[m] == rows[ix[m]];
    }
  }

  /** Every input timestamp survives de-duplication. */
  lemma DeduplicateCovers(rows: seq<Row>, i: nat)
    requires i < |rows|
    ensures var r := Deduplicate(rows);
      exists k :: 0 <= k < |r| && r[k].time == rows[i].time
  {
    var mask := DuplicatedMask(rows);
    var ix := Kept(mask);
    var r := Deduplicate(rows);
    FirstOccurrence(rows, i);
    var j :| 0 <= j <= i && rows[j].time == rows[i].time && !mask[j];
    KeptCovers(mask);
    assert j in ix;
    var k :| 0 <= k < |ix| && ix[k] == j;
    assert r[k] == rows[j];
  }

  /** The row kept for a timestamp comes no later than any input row with that timestamp. */
  lemma DeduplicateKeepsFirst(rows: seq<Row>, k: nat, i: nat)
    requires k < |Deduplicate(rows)| && i < |rows|
    requires rows[i].time == Deduplicate(rows)[k].time
    ensures Kept(DuplicatedMask(rows))[k] <= i
    ensures Deduplicate(rows)[k] == rows[Kept(DuplicatedMask(rows))[k]]
  {
    var mask := DuplicatedMask(rows);
    var ix := Kept(mask);
    assert !mask[ix[k]];
  }

  /** After sorting, de-duplication leaves strictly increasing timestamps. */
  lemma DeduplicateSorted(rows: seq<Row>)
    requires forall i, j :: 0 <= i < j < |rows| ==> rows[i].time <= rows[j].time
    ensures StrictlyIncreasing(Deduplicate(rows))
  {
    var mask := DuplicatedMask(rows);
    var ix := Kept(mask);
    var r := Deduplicate(rows);
    KeptIncreasing(mask);
    forall k, m | 0 <= k < m < |r|
      ensures r[k].time < r[m].time
    {
      assert ix[k] < ix[m] && !mask[ix[m]];
      assert rows[ix[k]].time != rows[ix[m]].time;
    }
    IncreasingPairs(r);
  }

  // ---------------------------------------------------------------------
  // OHLC validity

  /** `a < b` on cells that may be NaN: false when either is. */
  predicate Lt(a: Option<real>, b: Option<real>)
  {
    a.Some? && b.Some? && a.value < b.value
  }

  /** The three tests of _validate_ohlc, on one row. */
  predicate InvalidOhlc(open: Option<real>, high: Option<real>, low: Option<real>, close: Option<real>)
  {
    var invalidHigh := Lt(high, open) || Lt(high, close);
    var invalidLow := Lt(open, low) || Lt(close, low);
    var invalidClose := Lt(close, low) || Lt(high, close);
    invalidHigh || invalidLow || invalidClose
  }

  /**
   * The close test repeats the first two. With all four prices present a
   * row is invalid exactly when open or close falls outside [low, high];
   * a missing price fails no test it appears in.
   */
  lemma OhlcRule(open: Option<real>, high: Option<real>, low: Option<real>, close: Option<real>)
    ensures InvalidOhlc(open, high, low, close) <==> Lt(high, open) || Lt(high, close) || Lt(open, low) || Lt(close, low)
    ensures open.Some? && high.Some? && low.Some? && close.Some? ==>
      (InvalidOhlc(open, high, low, close) <==>
        !(low.value <= open.value <= high.value && low.value <= close.value <= high.value))
    ensures high.None? && low.None? ==> !InvalidOhlc(open, high, low, close)
  {
  }

  /** The four price columns _validate_ohlc needs. */
  const OhlcColumns: seq<string> := ["open", "high", "low", "close"]

  /** _validate_ohlc: all false when a price column is missing. */
  function OhlcMask(t: PriceTable): (m: seq<bool>)
    requires Shaped(t)
    ensures |m| == |t.rows|
  {
    var o, h, l, c := ColumnIndex(t.columns, "open"), ColumnIndex(t.columns, "high"),
      ColumnIndex(t.columns, "low"), ColumnIndex(t.columns, "close");
    if o.None? || h.None? || l.None? || c.None? then seq(|t.rows|, _ => false)
    else
      seq(|t.rows|, i requires 0 <= i < |t.rows| =>
        assert t.rows[i] in t.rows;
        var cells := t.rows[i].cells;
        InvalidOhlc(cells[o.value], cells[h.value], cells[l.value], cells[c.value]))
  }

  /** The mask of row i depends on that row alone. */
  lemma OhlcMaskRow(t: PriceTable, i: nat)
    requires Shaped(t) && i < |t.rows|
    ensures OhlcMask(t)[i] <==>
      ("open" in t.columns && "high" in t.columns && "low" in t.columns && "close" in t.columns &&
       var cells := t.rows[i].cells;
       InvalidOhlc(cells[ColumnIndex(t.columns, "open").value], cells[ColumnIndex(t.columns, "high").value],
         cells[ColumnIndex(t.columns, "low").value], cells[ColumnIndex(t.columns, "close").value]))
  {
    assert t.rows[i] in t.rows;
  }

  /** Removing the rows the mask flags leaves none that it would flag. */
  lemma NoInvalidLeft(t: PriceTable)
    requires Shaped(t)
    ensures var u := PriceTable(t.columns, Keep(t.rows, OhlcMask(t)));
      Shaped(u) && CountTrue(OhlcMask(u)) == 0
  {
    var mask := OhlcMask(t);
    var u := PriceTable(t.columns, Keep(t.rows, mask));
    KeepMembers(t.rows, mask);
    var m := OhlcMask(u);
    forall k | 0 <= k < |u.rows|
      ensures !m[k]
    {
      OhlcMaskRow(u, k);
      OhlcMaskRow(t, Kept(mask)[k]);
    }
    NoneTrue(m);
  }

  lemma {:induction false} NoneTrue(mask: seq<bool>)
    requires forall k :: 0 <= k < |mask| ==> !mask[k]
    ensures CountTrue(mask) == 0
  {
    if |mask| > 0 {
      NoneTrue(mask[..|mask| - 1]);
    }
  }

  // ---------------------------------------------------------------------
  // Nulls

  function CellNulls(cells: seq<Option<real>>): nat
  {
    if |cells| == 0 then 0 else CellNulls(cells[..|cells| - 1]) + (if cells[|cells| - 1].None? then 1 else 0)
  }

  /** `isnull().sum().sum()`. */
  function NullCount(rows: seq<Row>): nat
  {
    if |rows| == 0 then 0 else NullCount(rows[..|rows| - 1]) + CellNulls(rows[|rows| - 1].cells)
  }

  predicate HasNull(r: Row)
  {
    exists c :: 0 <= c < |r.cells| && r.cells[c].None?
  }

  lemma {:induction false} CellNullsZero(cells: seq<Option<real>>)
    ensures CellNulls(cells) == 0 <==> forall c :: 0 <= c < |cells| ==> cells[c].Some?
  {
    if |cells| > 0 {
      CellNullsZero(cells[..|cells| - 1]);
      assert forall c :: 0 <= c < |cells| - 1 ==> cells[..|cells| - 1][c] == cells[c];
    }
  }

  /** `isnull().any(axis=1)`: the rows holding a null. */
  function NullMask(rows: seq<Row>): (m: seq<bool>)
    ensures |m| == |rows| && forall i :: 0 <= i < |rows| ==> (m[i] <==> HasNull(rows[i]))
  {
    seq(|rows|, i requires 0 <= i < |rows| => HasNull(rows[i]))
  }

  /** `dropna()`: the rows with any null go. */
  function DropNulls(rows: seq<Row>): (r: seq<Row>)
  {
    Keep(rows, NullMask(rows))
  }

  /** After dropping, no null is left, and only the rows holding one were removed. */
  lemma {:induction false} DropNullsSpec(rows: seq<Row>)
    ensures NullCount(DropNulls(rows)) == 0
    ensures |rows| - |DropNulls(rows)| == CountTrue(NullMask(rows))
  {
    var mask := NullMask(rows);
    var r := DropNulls(rows);
    forall k | 0 <= k < |r|
      ensures CellNulls(r[k].cells) == 0
    {
      assert !mask[Kept(mask)[k]];
      CellNullsZero(r[k].cells);
    }
    NullFree(r);
  }

  lemma {:induction false} NullFree(rows: seq<Row>)
    requires forall k :: 0 <= k < |rows| ==> CellNulls(rows[k].cells) == 0
    ensures NullCount(rows) == 0
  {
    if |rows| > 0 {
      NullFree(rows[..|rows| - 1]);
    }
  }

  /** A row's cells with each null taken from `prev` (when `prev` has that column). */
  function FillFrom(prev: seq<Option<real>>, cur: seq<Option<real>>): (r: seq<Option<real>>)
    ensures |r| == |cur|
  {
    seq(|cur|, c requires 0 <= c < |cur| => if cur[c].Some? then cur[c] else if c < |prev| then prev[c] else None)
  }

  /** `ffill()`: each null takes the last non-null value above it in its column. */
  function ForwardFill(rows: seq<Row>): (r: seq<Row>)
    ensures |r| == |rows|
    ensures forall i :: 0 <= i < |rows| ==> r[i].time == rows[i].time && |r[i].cells| == |rows[i].cells|
  {
    if |rows| == 0 then []
    else
      var n := |rows| - 1;
      var done := ForwardFill(rows[..n]);
      done + [Row(rows[n].time, FillFrom(if n == 0 then [] else done[n - 1].cells, rows[n].cells))]
  }

  /** `bfill()`: each null takes the first non-null value below it in its column. */
  function BackwardFill(rows: seq<Row>): (r: seq<Row>)
    ensures |r| == |rows|
    ensures forall i :: 0 <= i < |rows| ==> r[i].time == rows[i].time && |r[i].cells| == |rows[i].cells|
  {
    seq(|rows|, i requires 0 <= i < |rows| =>
      Row(rows[i].time, seq(|rows[i].cells|, c requires 0 <= c < |rows[i].cells| => FirstBelow(rows, i, c))))
  }

  /** The first value of column c at or below row i, down to the first row too short to have the column. */
  function FirstBelow(rows: seq<Row>, i: nat, c: nat): Option<real>
    requires i < |rows| && c < |rows[i].cells|
    decreases |rows| - i
  {
    if rows[i].cells[c].Some? then rows[i].cells[c]
    else if i + 1 < |rows| && c < |rows[i + 1].cells| then FirstBelow(rows, i + 1, c)
    else None
  }

  /** All rows have w cells. */
  predicate Uniform(rows: seq<Row>, w: nat)
  {
    forall i :: 0 <= i < |rows| ==> |rows[i].cells| == w
  }

  /**
   * Forward fill keeps every present value, carries the filled value down
   * over a null, and leaves a cell null exactly when its column is null
   * from the first row down to it.
   */
  lemma {:induction false} ForwardFillSpec(rows: seq<Row>, w: nat, i: nat, c: nat)
    requires Uniform(rows, w) && i < |rows| && c < w
    ensures var r := ForwardFill(rows);
      (rows[i].cells[c].Some? ==> r[i].cells[c] == rows[i].cells[c]) &&
      (i > 0 && rows[i].cells[c].None? ==> r[i].cells[c] == r[i - 1].cells[c]) &&
      (r[i].cells[c].None? <==> forall j :: 0 <= j <= i ==> rows[j].cells[c].None?)
  {
    ForwardFillStep(rows, w, i, c);
    if i > 0 {
      ForwardFillSpec(rows, w, i - 1, c);
    }
  }

  /** A filled cell is the row's own value, else the filled cell above it, else null on the first row. */
  lemma {:induction false} ForwardFillStep(rows: seq<Row>, w: nat, i: nat, c: nat)
    requires Uniform(rows, w) && i < |rows| && c < w
    ensures var r := ForwardFill(rows);
      r[i].cells[c] == if rows[i].cells[c].Some? then rows[i].cells[c] else if i > 0 then r[i - 1].cells[c] else None
    decreases |rows|
  {
    var n := |rows| - 1;
    var init := rows[..n];
    var done := ForwardFill(init);
    var prev := if n == 0 then [] else done[n - 1].cells;
    var r := ForwardFill(rows);
    assert r == done + [Row(rows[n].time, FillFrom(prev, rows[n].cells))];
    if i < n {
      assert Uniform(init, w);
      ForwardFillStep(init, w, i, c);
      assert r[i] == done[i] && init[i] == rows[i];
      if i > 0 {
        assert r[i - 1] == done[i - 1];
      }
    } else {
      FillAt(prev, rows[n].cells, c);
      if i > 0 {
        assert r[i - 1] == done[i - 1];
      }
    }
  }

  /** One cell of a filled row. */
  lemma FillAt(prev: seq<Option<real>>, cur: seq<Option<real>>, c: nat)
    requires c < |cur|
    ensures FillFrom(prev, cur)[c] == if cur[c].Some? then cur[c] else if c < |prev| then prev[c] else None
  {
  }

  /**
   * Backward fill keeps every present value, carries the filled value up
   * over a null, and leaves a cell null exactly when its column is null
   * from it down to the last row.
   */
  lemma {:induction false} BackwardFillSpec(rows: seq<Row>, w: nat, i: nat, c: nat)
    requires Uniform(rows, w) && i < |rows| && c < w
    ensures var r := BackwardFill(rows);
      (rows[i].cells[c].Some? ==> r[i].cells[c] == rows[i].cells[c]) &&
      (i + 1 < |rows| && rows[i].cells[c].None? ==> r[i].cells[c] == r[i + 1].cells[c]) &&
      (r[i].cells[c].None? <==> forall j :: i <= j < |rows| ==> rows[j].cells[c].None?)
    decreases |rows| - i
  {
    BackwardFillStep(rows, w, i, c);
    if i + 1 < |rows| {
      BackwardFillSpec(rows, w, i + 1, c);
    }
  }

  /** A filled cell is the row's own value, else the filled cell below it, else null on the last row. */
  lemma BackwardFillStep(rows: seq<Row>, w: nat, i: nat, c: nat)
    requires Uniform(rows, w) && i < |rows| && c < w
    ensures var r := BackwardFill(rows);
      r[i].cells[c] == if rows[i].cells[c].Some? then rows[i].cells[c] else if i + 1 < |rows| then r[i + 1].cells[c] else None
  {
    assert BackwardFill(rows)[i].cells[c] == FirstBelow(rows, i, c);
    if i + 1 < |rows| {
      assert BackwardFill(rows)[i + 1].cells[c] == FirstBelow(rows, i + 1, c);
    }
  }

  // ---------------------------------------------------------------------
  // Derived columns

  /** Assigning `df[name]` appends the column unless it is already there. */
  function AddColumn(columns: seq<string>, name: string): (r: seq<string>)
    ensures name in r && forall x :: x in columns ==> x in r
    ensures |columns| <= |r| && r[..|columns|] == columns
    ensures forall x :: x in r ==> x in columns || x == name
  {
    if name in columns then columns else columns + [name]
  }

  /** _add_price_features: five derived columns, only when there is a close. */
  function AddPriceFeatures(columns: seq<string>): (r: seq<string>)
    ensures "close" !in columns ==> r == columns
    ensures "close" in columns ==>
      forall x :: x in ["returns", "log_returns", "price_change", "pct_change", "volatility_20"] ==> x in r
    ensures |columns| <= |r| && r[..|columns|] == columns
    ensures forall x :: x in r ==> x in columns || x in ["returns", "log_returns", "price_change", "pct_change", "volatility_20"]
  {
    if "close" !in columns then columns
    else
      var withReturns := AddColumn(columns, "returns");
      AddColumn(AddColumn(AddColumn(AddColumn(withReturns, "log_returns"), "price_change"), "pct_change"), "volatility_20")
  }

  // ---------------------------------------------------------------------
  // Metadata

  datatype Warning =
    | InvalidOhlcRowsRemoved(count: nat)
    | NegativeRatio(field: string, value: real)
    | SuspiciousPercentage(field: string, value: real)

  datatype Transformation =
    | ColumnNamesNormalized
    | SortedByDate
    | DuplicatesRemoved(count: nat)
    | InvalidOhlcRowsDropped
    | NullRowsDropped
    | ForwardFilled
    | BackwardFilled
    | Interpolated
    | OutliersRemoved(count: nat)
    | PriceFeaturesAdded
    | FundamentalsNormalized
    | RatiosValidated
    | ColumnsSortedByDate
    | NullsReplacedByZero
    | EmptyRowsRemoved(count: nat)

  /** CleaningMetadata: the record every cleaning step updates in place. */
  class CleaningMetadata {
    var originalRows: nat
    var originalColumns: nat
    var finalRows: nat
    var finalColumns: nat
    var rowsRemoved: int
    var columnsRemoved: seq<string>
    var nullValuesFilled: nat
    var nullValuesRemoved: nat
    var duplicatesRemoved: nat
    var outliersDetected: nat
    var invalidOhlcRows: nat
    var warnings: seq<Warning>
    var transformations: seq<Transformation>

    constructor()
      ensures originalRows == originalColumns == finalRows == finalColumns == 0 && rowsRemoved == 0
      ensures nullValuesFilled == nullValuesRemoved == duplicatesRemoved == outliersDetected == invalidOhlcRows == 0
      ensures columnsRemoved == [] && warnings == [] && transformations == []
    {
      originalRows, originalColumns, finalRows, finalColumns, rowsRemoved := 0, 0, 0, 0, 0;
      columnsRemoved := [];
      nullValuesFilled, nullValuesRemoved, duplicatesRemoved, outliersDetected, invalidOhlcRows := 0, 0, 0, 0, 0;
      warnings, transformations := [], [];
    }
  }
}

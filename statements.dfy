/**
 * Cleaning of a financial statement: a table whose rows are metrics and
 * whose columns are reporting dates. Row names are stripped, date
 * columns are put newest first, nulls become 0 and rows that are all zero
 * are dropped.
 */
module Statements {
  import opened Common
  import opened Sorting
  import opened Cleaning

  /** A column label: a reporting date (a day number) or any other label. */
  datatype Label = Date(day: int) | Name(text: string)

  datatype Statement = Statement(index: seq<string>, columns: seq<Label>, rows: seq<seq<Option<real>>>)

  /** One row per index label and one cell per column. */
  predicate Rect(s: Statement)
  {
    |s.rows| == |s.index| && forall r :: r in s.rows ==> |r| == |s.columns|
  }

  /** `[str(idx).strip() for idx in index]`. */
  function StripIndex(index: seq<string>): (r: seq<string>)
    ensures |r| == |index| && forall i :: 0 <= i < |index| ==> r[i] == Strip(index[i])
  {
    seq(|index|, i requires 0 <= i < |index| => Strip(index[i]))
  }

  /** The columns are sorted only when the first is a date, and only succeed when all are. */
  predicate SortsByDate(columns: seq<Label>)
  {
    |columns| > 0 && columns[0].Date? && forall j :: 0 <= j < |columns| ==> columns[j].Date?
  }

  function Day(columns: seq<Label>, j: nat): int
  {
    if j < |columns| && columns[j].Date? then columns[j].day else 0
  }

  function Positions(n: nat): (r: seq<nat>)
    ensures |r| == n && forall j :: 0 <= j < n ==> r[j] == j
  {
    seq(n, j requires 0 <= j < n => j)
  }

  /** The sort key: later dates first. */
  function Recency(columns: seq<Label>): nat -> int
  {
    (j: nat) => -Day(columns, j)
  }

  /**
   * `sort_index(axis=1, ascending=False)` as a permutation of column
   * positions: each position once, latest date first.
   */
  function NewestFirst(columns: seq<Label>): (perm: seq<nat>)
    ensures |perm| == |columns|
    ensures forall k :: 0 <= k < |perm| ==> perm[k] < |columns|
    ensures forall j :: 0 <= j < |columns| ==> j in perm
    ensures forall k, m :: 0 <= k < m < |perm| ==> Day(columns, perm[k]) >= Day(columns, perm[m])
  {
    var perm := SortBy(Positions(|columns|), Recency(columns));
    SortBySorted(Positions(|columns|), Recency(columns));
    PermutedPositions(perm, |columns|);
    RecencyOrder(columns, perm);
    perm
  }

  lemma PermutedPositions(perm: seq<nat>, n: nat)
    requires multiset(perm) == multiset(Positions(n))
    ensures forall k :: 0 <= k < |perm| ==> perm[k] < n
    ensures forall j :: 0 <= j < n ==> j in perm
  {
    var positions := Positions(n);
    forall k | 0 <= k < |perm|
      ensures perm[k] < n
    {
      assert perm[k] in multiset(perm);
      assert perm[k] in positions;
    }
    forall j | 0 <= j < n
      ensures j in perm
    {
      assert positions[j] == j;
      assert j in multiset(positions);
    }
  }

  lemma RecencyOrder(columns: seq<Label>, perm: seq<nat>)
    requires SortedBy(perm, Recency(columns))
    ensures forall k, m :: 0 <= k < m < |perm| ==> Day(columns, perm[k]) >= Day(columns, perm[m])
  {
    forall k, m | 0 <= k < m < |perm|
      ensures Day(columns, perm[k]) >= Day(columns, perm[m])
    {
      assert Recency(columns)(perm[k]) <= Recency(columns)(perm[m]);
    }
  }

  function Permute<T>(xs: seq<T>, perm: seq<nat>): (r: seq<T>)
    requires forall k :: 0 <= k < |perm| ==> perm[k] < |xs|
    ensures |r| == |perm| && forall k :: 0 <= k < |perm| ==> r[k] == xs[perm[k]]
  {
    seq(|perm|, k requires 0 <= k < |perm| => xs[perm[k]])
  }

  /** Step 2: date columns newest first, every row's cells moved with their column. */
  function OrderColumns(s: Statement): (r: Statement)
    requires Rect(s)
    ensures Rect(r) && r.index == s.index && |r.columns| == |s.columns|
  {
    if !SortsByDate(s.columns) then s
    else
      var perm := NewestFirst(s.columns);
      var rows := seq(|s.rows|, i requires 0 <= i < |s.rows| => assert s.rows[i] in s.rows; Permute(s.rows[i], perm));
      Statement(s.index, Permute(s.columns, perm), rows)
  }

  /** `fillna(0)` on one row. */
  function ZeroFill(row: seq<Option<real>>): (r: seq<Option<real>>)
    ensures |r| == |row|
    ensures forall c :: 0 <= c < |row| ==> r[c].Some? && (row[c].Some? ==> r[c] == row[c]) && (row[c].None? ==> r[c] == Some(0.0))
  {
    seq(|row|, c requires 0 <= c < |row| => if row[c].None? then Some(0.0) else row[c])
  }

  /** `(row == 0).all()`: true for a row with no cells. */
  predicate AllZero(row: seq<Option<real>>)
  {
    forall c :: 0 <= c < |row| ==> row[c] == Some(0.0)
  }

  function ZeroRowMask(rows: seq<seq<Option<real>>>): (m: seq<bool>)
    ensures |m| == |rows| && forall i :: 0 <= i < |rows| ==> (m[i] <==> AllZero(rows[i]))
  {
    seq(|rows|, i requires 0 <= i < |rows| => AllZero(rows[i]))
  }

  /** `isnull().sum().sum()` of a statement's cells. */
  function StatementNulls(rows: seq<seq<Option<real>>>): nat
  {
    if |rows| == 0 then 0 else StatementNulls(rows[..|rows| - 1]) + CellNulls(rows[|rows| - 1])
  }

  /** The statement after step 1 (row names) and step 2 (column order). */
  function OrderedStatement(normalize: bool, s: Statement): (r: Statement)
    requires Rect(s)
    ensures Rect(r) && |r.rows| == |s.rows|
  {
    OrderColumns(Statement(if normalize then StripIndex(s.index) else s.index, s.columns, s.rows))
  }

  /** The statement after step 3 (nulls to 0). */
  function FilledStatement(normalize: bool, s: Statement): (r: Statement)
    requires Rect(s)
    ensures Rect(r) && |r.rows| == |s.rows|
  {
    var o := OrderedStatement(normalize, s);
    Statement(o.index, o.columns, seq(|o.rows|, i requires 0 <= i < |o.rows| => ZeroFill(o.rows[i])))
  }

  /** clean_financial_statement's table: step 5 drops the all-zero rows with their names. */
  function CleanStatement(normalize: bool, s: Statement): Statement
    requires Rect(s)
  {
    var f := FilledStatement(normalize, s);
    var mask := ZeroRowMask(f.rows);
    Statement(Keep(f.index, mask), f.columns, Keep(f.rows, mask))
  }

  // ---------------------------------------------------------------------
  // Properties

  /**
   * When the columns are all dates they come out newest first, every
   * column is still there, and each row's cells moved with their column;
   * other columns (or none) keep their order.
   */
  lemma OrderColumnsSpec(s: Statement)
    requires Rect(s)
    ensures !SortsByDate(s.columns) ==> OrderColumns(s) == s
    ensures SortsByDate(s.columns) ==> var r := OrderColumns(s); var perm := NewestFirst(s.columns);
      (forall k, m :: 0 <= k < m < |r.columns| ==> r.columns[k].day >= r.columns[m].day) &&
      (forall j :: 0 <= j < |s.columns| ==> s.columns[j] in r.columns) &&
      (forall i, k :: 0 <= i < |s.rows| && 0 <= k < |r.columns| ==> r.rows[i][k] == s.rows[i][perm[k]] && r.columns[k] == s.columns[perm[k]])
  {
    if !SortsByDate(s.columns) {
      return;
    }
    var r := OrderColumns(s);
    var perm := NewestFirst(s.columns);
    forall j | 0 <= j < |s.columns|
      ensures s.columns[j] in r.columns
    {
      assert j in perm;
      var k :| 0 <= k < |perm| && perm[k] == j;
      assert r.columns[k] == s.columns[j];
    }
    forall i, k | 0 <= i < |s.rows| && 0 <= k < |r.columns|
      ensures r.rows[i][k] == s.rows[i][perm[k]]
    {
      assert s.rows[i] in s.rows;
    }
  }

  /**
   * The cleaned statement has no nulls and no all-zero row; exactly the
   * all-zero rows of the filled statement went, each with its name; the
   * row names are stripped when normalising.
   */
  lemma CleanStatementSpec(normalize: bool, s: Statement)
    requires Rect(s)
    ensures var r := CleanStatement(normalize, s); var f := FilledStatement(normalize, s);
      |r.rows| == |r.index| &&
      |f.rows| - |r.rows| == CountTrue(ZeroRowMask(f.rows)) &&
      (forall i :: 0 <= i < |r.rows| ==> !AllZero(r.rows[i]) && CellNulls(r.rows[i]) == 0) &&
      (normalize ==> forall i :: 0 <= i < |r.index| ==> Strip(r.index[i]) == r.index[i])
  {
    var f := FilledStatement(normalize, s);
    var mask := ZeroRowMask(f.rows);
    var r := CleanStatement(normalize, s);
    var o := OrderedStatement(normalize, s);
    forall i | 0 <= i < |r.rows|
      ensures !AllZero(r.rows[i]) && CellNulls(r.rows[i]) == 0
    {
      var j := Kept(mask)[i];
      assert r.rows[i] == f.rows[j];
      assert f.rows[j] == ZeroFill(o.rows[j]);
      CellNullsZero(r.rows[i]);
    }
    if normalize {
      forall i | 0 <= i < |r.index|
        ensures Strip(r.index[i]) == r.index[i]
      {
        var j := Kept(mask)[i];
        assert r.index[i] == o.index[j] == Strip(s.index[j]);
        StripIdempotent(s.index[j]);
      }
    }
  }

  /** A row holding any non-zero value is kept. */
  lemma NonZeroRowKept(normalize: bool, s: Statement, j: nat)
    requires Rect(s) && j < |s.rows|
    requires !AllZero(FilledStatement(normalize, s).rows[j])
    ensures FilledStatement(normalize, s).rows[j] in CleanStatement(normalize, s).rows
  {
    var f := FilledStatement(normalize, s);
    var mask := ZeroRowMask(f.rows);
    var ix := Kept(mask);
    KeptCovers(mask);
    assert j in ix;
    var k :| 0 <= k < |ix| && ix[k] == j;
    assert CleanStatement(normalize, s).rows[k] == f.rows[j];
  }

  /** Filling replaces exactly the counted nulls: none are left. */
  lemma {:induction false} FilledNulls(normalize: bool, s: Statement)
    requires Rect(s)
    ensures StatementNulls(FilledStatement(normalize, s).rows) == 0
  {
    var f := FilledStatement(normalize, s);
    var o := OrderedStatement(normalize, s);
    forall i | 0 <= i < |f.rows|
      ensures CellNulls(f.rows[i]) == 0
    {
      assert f.rows[i] == ZeroFill(o.rows[i]);
      CellNullsZero(f.rows[i]);
    }
    NoStatementNulls(f.rows);
  }

  lemma {:induction false} NoStatementNulls(rows: seq<seq<Option<real>>>)
    requires forall i :: 0 <= i < |rows| ==> CellNulls(rows[i]) == 0
    ensures StatementNulls(rows) == 0
  {
    if |rows| > 0 {
      NoStatementNulls(rows[..|rows| - 1]);
    }
  }
}

/**
 * DataCleaner: the configured cleaner and its three entry points, which
 * each create a fresh CleaningMetadata and record every step into it.
 * Each step of the price pipeline is also a function, so that what the
 * pipeline promises is proved about the functions.
 */
module DataCleaning {
  import opened Common
  import opened Sorting
  import opened Cleaning
  import opened Interpolation
  import opened Outliers
  import opened Fundamentals
  import opened Statements

  function RowTime(r: Row): int
  {
    r.time
  }

  /** Sorting rows by time keeps the table's shape and makes the times non-decreasing. */
  lemma SortedShape(t: PriceTable)
    requires Shaped(t)
    ensures var rows := SortBy(t.rows, RowTime);
      Shaped(PriceTable(t.columns, rows)) &&
      forall i, j :: 0 <= i < j < |rows| ==> rows[i].time <= rows[j].time
  {
    var rows := SortBy(t.rows, RowTime);
    SortBySorted(t.rows, RowTime);
    forall r | r in rows
      ensures |r.cells| == |t.columns|
    {
      assert r in multiset(rows);
    }
    forall i, j | 0 <= i < j < |rows|
      ensures rows[i].time <= rows[j].time
    {
      assert RowTime(rows[i]) <= RowTime(rows[j]);
    }
  }

  /** What a fill_method string selects; any other string fills nothing. */
  datatype FillKind = Drop | Forward | Backward | TimeInterpolation | NoFill

  function FillKindOf(fillMethod: string): (k: FillKind)
    ensures k == Drop <==> fillMethod == "drop"
    ensures k == Forward <==> fillMethod == "forward"
    ensures k == Backward <==> fillMethod == "backward"
    ensures k == TimeInterpolation <==> fillMethod == "interpolate"
  {
    if fillMethod == "drop" then Drop
    else if fillMethod == "forward" then Forward
    else if fillMethod == "backward" then Backward
    else if fillMethod == "interpolate" then TimeInterpolation
    else NoFill
  }

  /** The counts and logs clean_price_data leaves in its metadata. */
  datatype Report = Report(duplicatesRemoved: nat, invalidOhlcRows: nat, nullValuesFilled: nat, nullValuesRemoved: nat,
    outliersDetected: nat, warnings: seq<Warning>, transformations: seq<Transformation>)

  /** The metadata holds the report's counts and logs. */
  predicate Recorded(metadata: CleaningMetadata, r: Report)
    reads metadata
  {
    metadata.duplicatesRemoved == r.duplicatesRemoved && metadata.invalidOhlcRows == r.invalidOhlcRows &&
    metadata.nullValuesFilled == r.nullValuesFilled && metadata.nullValuesRemoved == r.nullValuesRemoved &&
    metadata.outliersDetected == r.outliersDetected && metadata.warnings == r.warnings &&
    metadata.transformations == r.transformations
  }

  /** Writes a report and the final shape into fresh metadata. */
  method Record(metadata: CleaningMetadata, r: Report, rows: nat, columns: nat)
    modifies metadata
    ensures Recorded(metadata, r)
    ensures metadata.originalRows == old(metadata.originalRows) && metadata.originalColumns == old(metadata.originalColumns)
    ensures metadata.finalRows == rows && metadata.finalColumns == columns
    ensures metadata.rowsRemoved == metadata.originalRows - rows
    ensures metadata.columnsRemoved == old(metadata.columnsRemoved)
  {
    metadata.duplicatesRemoved, metadata.invalidOhlcRows := r.duplicatesRemoved, r.invalidOhlcRows;
    metadata.nullValuesFilled, metadata.nullValuesRemoved := r.nullValuesFilled, r.nullValuesRemoved;
    metadata.outliersDetected, metadata.warnings, metadata.transformations := r.outliersDetected, r.warnings, r.transformations;
    metadata.finalRows, metadata.finalColumns := rows, columns;
    metadata.rowsRemoved := metadata.originalRows - rows;
  }

  /** The constructor's settings. */
  datatype DataCleaner = DataCleaner(
    fillMethod: string,
    removeOutliers: bool,
    outlierThreshold: real,
    validateOhlc: bool,
    normalizeColumnNames: bool)
  {
    // -------------------------------------------------------------------
    // clean_price_data, step by step

    /** Steps 1-4: names normalised, rows sorted by time, repeated timestamps dropped. */
    function Prepared(data: PriceTable): (t: PriceTable)
      requires Shaped(data)
      ensures Shaped(t) && StrictlyIncreasing(t.rows)
      ensures |t.columns| == |data.columns| && |t.rows| <= |data.rows|
    {
      var named := if normalizeColumnNames then PriceTable(NormalizeColumns(data.columns), data.rows) else data;
      SortedShape(named);
      var sorted := SortBy(named.rows, RowTime);
      DeduplicateSorted(sorted);
      KeepMembers(sorted, DuplicatedMask(sorted));
      PriceTable(named.columns, Deduplicate(sorted))
    }

    /** Step 5's mask: all false when validation is off. */
    function InvalidMask(t: PriceTable): (m: seq<bool>)
      requires Shaped(t)
      ensures |m| == |t.rows|
    {
      if validateOhlc then OhlcMask(t) else seq(|t.rows|, _ => false)
    }

    /** Step 5 on a prepared table: the invalid rows go (the table is left alone when there are none). */
    function ValidStep(t: PriceTable): (r: PriceTable)
      requires Shaped(t) && StrictlyIncreasing(t.rows)
      ensures Shaped(r) && StrictlyIncreasing(r.rows)
    {
      var mask := InvalidMask(t);
      if CountTrue(mask) > 0 then
        KeepMembers(t.rows, mask);
        KeepIncreasing(t.rows, mask);
        PriceTable(t.columns, Keep(t.rows, mask))
      else t
    }

    function Validated(data: PriceTable): (t: PriceTable)
      requires Shaped(data)
      ensures Shaped(t) && StrictlyIncreasing(t.rows)
    {
      ValidStep(Prepared(data))
    }

    /** Step 6 on the rows: drop, forward, backward, interpolate, or (any other method) nothing. */
    function FillNulls(rows: seq<Row>): seq<Row>
      requires StrictlyIncreasing(rows)
    {
      match FillKindOf(fillMethod)
      case Drop => DropNulls(rows)
      case Forward => ForwardFill(rows)
      case Backward => BackwardFill(rows)
      case TimeInterpolation => Interpolate(rows)
      case NoFill => rows
    }

    function Filled(data: PriceTable): PriceTable
      requires Shaped(data)
    {
      var v := Validated(data);
      PriceTable(v.columns, FillNulls(v.rows))
    }

    /** Step 8's mask: all false when outlier removal is off. */
    function OutlierFlags(t: PriceTable): (m: seq<bool>)
      ensures |m| == |t.rows|
    {
      if removeOutliers then OutlierMask(t, outlierThreshold) else seq(|t.rows|, _ => false)
    }

    /** Step 8 on a filled table: the outlier rows go (the table is left alone when there are none). */
    function OutlierStep(t: PriceTable): PriceTable
    {
      var mask := OutlierFlags(t);
      if CountTrue(mask) > 0 then PriceTable(t.columns, Keep(t.rows, mask)) else t
    }

    /** The cleaned table before the derived columns of step 9. */
    function Cleaned(data: PriceTable): PriceTable
      requires Shaped(data)
    {
      OutlierStep(Filled(data))
    }

    /** The transformation recorded by step 6. */
    function FillRecord(): seq<Transformation>
    {
      match FillKindOf(fillMethod)
      case Drop => [NullRowsDropped]
      case Forward => [ForwardFilled]
      case Backward => [BackwardFilled]
      case TimeInterpolation => [Interpolated]
      case NoFill => []
    }

    /** The transformations steps 1-4 record. */
    function PrepareRecord(data: PriceTable): seq<Transformation>
      requires Shaped(data)
    {
      var duplicates := |data.rows| - |Prepared(data).rows|;
      (if normalizeColumnNames then [ColumnNamesNormalized] else []) + [SortedByDate] +
      (if duplicates > 0 then [DuplicatesRemoved(duplicates)] else [])
    }

    /** The rows step 6 drops for holding a null: none unless the method is "drop". */
    function DroppedForNulls(t: PriceTable): nat
    {
      if FillKindOf(fillMethod) == Drop then CountTrue(NullMask(t.rows)) else 0
    }

    /** What clean_price_data records in its metadata, step by step. */
    function PriceReport(data: PriceTable): Report
      requires Shaped(data)
    {
      var prepared := Prepared(data);
      var invalid := CountTrue(InvalidMask(prepared));
      var nulls := NullCount(Validated(data).rows);
      var kind := FillKindOf(fillMethod);
      var outliers := CountTrue(OutlierFlags(Filled(data)));
      Report(
        |data.rows| - |prepared.rows|,
        invalid,
        if kind == Forward || kind == Backward || kind == TimeInterpolation then nulls else 0,
        if kind == Drop then nulls else 0,
        outliers,
        if invalid > 0 then [InvalidOhlcRowsRemoved(invalid)] else [],
        PrepareRecord(data) + (if invalid > 0 then [InvalidOhlcRowsDropped] else []) + FillRecord() +
          (if outliers > 0 then [OutliersRemoved(outliers)] else []) + [PriceFeaturesAdded])
    }

    /**
     * clean_price_data. The returned table holds the cleaned input
     * columns; `columns` is its column list once the derived feature
     * columns are added; the fresh metadata holds the counts and the
     * log of the steps taken.
     */
    method CleanPriceData(data: PriceTable) returns (cleaned: PriceTable, columns: seq<string>, metadata: CleaningMetadata)
      requires Shaped(data)
      ensures fresh(metadata)
      ensures cleaned == Cleaned(data) && columns == AddPriceFeatures(cleaned.columns)
      ensures metadata.originalRows == |data.rows| && metadata.originalColumns == |data.columns|
      ensures metadata.finalRows == |cleaned.rows| && metadata.finalColumns == |columns|
      ensures metadata.rowsRemoved == |data.rows| - |cleaned.rows|
      ensures metadata.columnsRemoved == []
      ensures Recorded(metadata, PriceReport(data))
    {
      metadata := new CleaningMetadata();
      metadata.originalRows, metadata.originalColumns := |data.rows|, |data.columns|;
      cleaned := Cleaned(data);
      columns := AddPriceFeatures(cleaned.columns);
      Record(metadata, PriceReport(data), |cleaned.rows|, |columns|);
    }

    // -------------------------------------------------------------------
    // Properties of the price pipeline

    /**
     * rows_removed accounts for every row: the repeated timestamps, the
     * invalid OHLC rows, the rows dropped for a null and the outliers.
     */
    lemma RowsAccounted(data: PriceTable)
      requires Shaped(data)
      ensures var r := PriceReport(data);
        |data.rows| - |Cleaned(data).rows| ==
          r.duplicatesRemoved + r.invalidOhlcRows + DroppedForNulls(Validated(data)) + r.outliersDetected
    {
      var v := Validated(data);
      FilledLength(v);
    }

    /** Step 6 keeps every row, except that "drop" removes the rows holding a null. */
    lemma FilledLength(t: PriceTable)
      requires StrictlyIncreasing(t.rows)
      ensures |FillNulls(t.rows)| + DroppedForNulls(t) == |t.rows|
    {
      if FillKindOf(fillMethod) == Drop {
        DropNullsSpec(t.rows);
      }
    }

    /** Every fill method keeps the timestamps of the rows it keeps strictly increasing. */
    lemma FillIncreasing(rows: seq<Row>)
      requires StrictlyIncreasing(rows)
      ensures StrictlyIncreasing(FillNulls(rows))
    {
      var r := FillNulls(rows);
      match FillKindOf(fillMethod)
      case Drop => KeepIncreasing(rows, NullMask(rows));
      case NoFill =>
      case _ =>
        IncreasingPairs(rows);
        IncreasingPairs(r);
    }

    /** The cleaned table is in strictly increasing time order, whatever the settings. */
    lemma CleanedIncreasing(data: PriceTable)
      requires Shaped(data)
      ensures StrictlyIncreasing(Cleaned(data).rows)
    {
      var f := Filled(data);
      FillIncreasing(Validated(data).rows);
      KeepIncreasing(f.rows, OutlierFlags(f));
    }

    /** With validation on, no row of the validated table breaks the OHLC rules. */
    lemma ValidatedConsistent(data: PriceTable)
      requires Shaped(data) && validateOhlc
      ensures CountTrue(OhlcMask(Validated(data))) == 0
    {
      NoInvalidLeft(Prepared(data));
    }

    /** With fill method "drop" no null is left, and nullValuesRemoved counts the nulls that were there. */
    lemma DropLeavesNoNulls(data: PriceTable)
      requires Shaped(data) && fillMethod == "drop"
      ensures NullCount(Filled(data).rows) == 0
      ensures PriceReport(data).nullValuesRemoved == NullCount(Validated(data).rows)
      ensures PriceReport(data).nullValuesFilled == 0
    {
      DropNullsSpec(Validated(data).rows);
    }

    // -------------------------------------------------------------------
    // clean_fundamental_data and _validate_fundamental_ratios

    /**
     * _validate_fundamental_ratios: appends the checks' warnings, in field
     * order, and stops at the first value that cannot be compared.
     */
    method ValidateFundamentalRatios(data: map<string, Value>, metadata: CleaningMetadata) returns (failure: Option<Error>)
      modifies metadata`warnings
      ensures metadata.warnings == old(metadata.warnings) + RatioChecks(data).warnings
      ensures failure == RatioChecks(data).failure
    {
      failure := CheckFields(data, PositiveRatios, true, metadata);
      if failure.Some? {
        return;
      }
      failure := CheckFields(data, PercentageFields, false, metadata);
    }

    /** One of the two loops: the fields in order, each warning appended, stopping at the first that raises. */
    static method CheckFields(data: map<string, Value>, fields: seq<string>, positive: bool, metadata: CleaningMetadata)
      returns (failure: Option<Error>)
      modifies metadata`warnings
      ensures metadata.warnings == old(metadata.warnings) + Checks(data, fields, positive).warnings
      ensures failure == Checks(data, fields, positive).failure
    {
      var i := 0;
      while i < |fields|
        invariant 0 <= i <= |fields|
        invariant Checks(data, fields[..i], positive).failure.None?
        invariant metadata.warnings == old(metadata.warnings) + Checks(data, fields[..i], positive).warnings
      {
        assert fields[..i + 1][..i] == fields[..i];
        var check := if positive then PositiveCheck(data, fields[i]) else PercentageCheck(data, fields[i]);
        if check.failure.Some? {
          ChecksStuck(data, fields, positive, i, |fields|);
          assert fields[..|fields|] == fields;
          return check.failure;
        }
        metadata.warnings := metadata.warnings + check.warnings;
        i := i + 1;
      }
      assert fields[..i] == fields;
      failure := None;
    }

    /**
     * clean_fundamental_data: each entry cleaned under its cleaned key
     * (a later entry with the same cleaned key wins), nulls counted, then
     * the ratio checks, whose TypeError propagates.
     */
    method CleanFundamentalData(data: seq<(string, Value)>) returns (r: Result<map<string, Value>>, metadata: CleaningMetadata)
      ensures fresh(metadata)
      ensures metadata.nullValuesFilled == NullEntries(data)
      ensures var checks := RatioChecks(CleanedEntries(normalizeColumnNames, data));
        metadata.warnings == checks.warnings &&
        (checks.failure.Some? ==> r == Err(checks.failure.value) && metadata.transformations == []) &&
        (checks.failure.None? ==>
          r == Ok(CleanedEntries(normalizeColumnNames, data)) &&
          metadata.transformations == [FundamentalsNormalized, RatiosValidated])
    {
      metadata := new CleaningMetadata();
      var cleaned := CleanEntries(data, metadata);
      var failure := ValidateFundamentalRatios(cleaned, metadata);
      if failure.Some? {
        return Err(failure.value), metadata;
      }
      metadata.transformations := metadata.transformations + [FundamentalsNormalized, RatiosValidated];
      r := Ok(cleaned);
    }

    /** The loop of clean_fundamental_data: every entry cleaned, every null counted. */
    method CleanEntries(data: seq<(string, Value)>, metadata: CleaningMetadata) returns (cleaned: map<string, Value>)
      modifies metadata`nullValuesFilled
      ensures cleaned == CleanedEntries(normalizeColumnNames, data)
      ensures metadata.nullValuesFilled == old(metadata.nullValuesFilled) + NullEntries(data)
    {
      cleaned := map[];
      var i := 0;
      while i < |data|
        invariant 0 <= i <= |data|
        invariant cleaned == CleanedEntries(normalizeColumnNames, data[..i])
        invariant metadata.nullValuesFilled == old(metadata.nullValuesFilled) + NullEntries(data[..i])
      {
        var (key, value) := data[i];
        ghost var done := data[..i + 1];
        assert done[..i] == data[..i] && done[i] == (key, value);
        assert NullEntries(done) == NullEntries(data[..i]) + (if IsNull(value) then 1 else 0);
        assert CleanedEntries(normalizeColumnNames, done)
          == CleanedEntries(normalizeColumnNames, data[..i])[CleanKey(normalizeColumnNames, key) := CleanValue(value)];
        if IsNull(value) {
          metadata.nullValuesFilled := metadata.nullValuesFilled + 1;
        }
        cleaned := cleaned[CleanKey(normalizeColumnNames, key) := CleanValue(value)];
        i := i + 1;
      }
      assert data[..i] == data;
    }

    // -------------------------------------------------------------------
    // clean_financial_statement

    /** What clean_financial_statement records: the nulls it replaced and the steps it took. */
    function StatementReport(data: Statement): Report
      requires Rect(data)
    {
      var removed := CountTrue(ZeroRowMask(FilledStatement(normalizeColumnNames, data).rows));
      Report(0, 0, StatementNulls(OrderedStatement(normalizeColumnNames, data).rows), 0, 0, [],
        (if SortsByDate(data.columns) then [ColumnsSortedByDate] else []) + [NullsReplacedByZero] +
        (if removed > 0 then [EmptyRowsRemoved(removed)] else []))
    }

    /**
     * clean_financial_statement: row names stripped, date columns newest
     * first, nulls counted and replaced by 0, all-zero rows dropped.
     */
    method CleanFinancialStatement(data: Statement) returns (cleaned: Statement, metadata: CleaningMetadata)
      requires Rect(data)
      ensures fresh(metadata)
      ensures cleaned == CleanStatement(normalizeColumnNames, data)
      ensures metadata.originalRows == |data.rows| && metadata.originalColumns == |data.columns|
      ensures metadata.finalRows == |cleaned.rows| && metadata.finalColumns == |cleaned.columns|
      ensures metadata.rowsRemoved == |data.rows| - |cleaned.rows|
      ensures metadata.columnsRemoved == []
      ensures Recorded(metadata, StatementReport(data))
    {
      metadata := new CleaningMetadata();
      metadata.originalRows, metadata.originalColumns := |data.rows|, |data.columns|;
      cleaned := CleanStatement(normalizeColumnNames, data);
      Record(metadata, StatementReport(data), |cleaned.rows|, |cleaned.columns|);
    }

    /** The rows removed are exactly the all-zero rows of the filled statement, and none is left. */
    lemma StatementRowsAccounted(data: Statement)
      requires Rect(data)
      ensures var r := StatementReport(data); var c := CleanStatement(normalizeColumnNames, data);
        |data.rows| - |c.rows| == CountTrue(ZeroRowMask(FilledStatement(normalizeColumnNames, data).rows)) &&
        (r.transformations[|r.transformations| - 1] == NullsReplacedByZero <==> |c.rows| == |data.rows|) &&
        forall i :: 0 <= i < |c.rows| ==> !AllZero(c.rows[i])
    {
      CleanStatementSpec(normalizeColumnNames, data);
    }
  }

  /** The default settings of the constructor. */
  const Defaults: DataCleaner := DataCleaner("forward", false, 3.0, true, true)

  /** Once check i raises, every longer prefix of the checks ends with the same warnings and that error. */
  lemma {:induction false} ChecksStuck(data: map<string, Value>, fields: seq<string>, positive: bool, i: nat, k: nat)
    requires i < k <= |fields|
    requires Checks(data, fields[..i], positive).failure.None?
    requires (if positive then PositiveCheck(data, fields[i]) else PercentageCheck(data, fields[i])).failure.Some?
    ensures Checks(data, fields[..k], positive) == Checked(Checks(data, fields[..i], positive).warnings, Some(TypeError))
    decreases k
  {
    assert fields[..k][..k - 1] == fields[..k - 1];
    if k > i + 1 {
      ChecksStuck(data, fields, positive, i, k - 1);
    }
  }
}

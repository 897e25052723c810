/**
 * create_historical_tables: the evolution of selected statement lines
 * over the first reporting columns, one table per statement, a free cash
 * flow row, and per-year ratios guarded against missing and zero
 * operands. Values are kept as the unit choice of format_number; the
 * ratio strings are kept as the numbers they would print.
 */
module HistoricalTables {
  import opened Common
  import opened Series
  import opened Cleaning
  import opened NumberFormat

  /** A statement as the provider returns it: line labels, column labels as `str()` renders them, cells (None is NaN). */
  datatype Sheet = Sheet(index: seq<string>, columns: seq<string>, cells: seq<seq<Option<real>>>)

  /** One cell per line and column. */
  predicate Rect(s: Sheet)
  {
    |s.cells| == |s.index| && forall i :: 0 <= i < |s.cells| ==> |s.cells[i]| == |s.columns|
  }

  /** `sheet.loc[key, year]`, KeyError for a label the sheet lacks (the first occurrence of a repeated label is used). */
  function Lookup(s: Sheet, key: string, year: string): (r: Result<Option<real>>)
    requires Rect(s)
    ensures r.Err? <==> key !in s.index || year !in s.columns
    ensures key in s.index && year !in s.columns ==> r == Err(KeyError(year))
  {
    match ColumnIndex(s.index, key)
    case None => Err(KeyError(key))
    case Some(i) =>
      match ColumnIndex(s.columns, year)
      case None => Err(KeyError(year))
      case Some(j) => Ok(s.cells[i][j])
  }

  /** `columns[:min(max_years, n)]` with Python's slicing: a negative stop counts from the end. */
  function Years(columns: seq<string>, maxYears: int): (r: seq<string>)
    ensures |r| <= |columns| && r == columns[..|r|]
    ensures maxYears >= 0 ==> |r| == Min(maxYears, |columns|)
    ensures maxYears < 0 ==> |r| == Max(0, |columns| + maxYears)
  {
    var stop := if maxYears < |columns| then maxYears else |columns|;
    if stop >= 0 then columns[..stop]
    else if |columns| + stop >= 0 then columns[..|columns| + stop]
    else []
  }

  function Min(a: int, b: int): int
  {
    if a < b then a else b
  }

  function Max(a: int, b: int): int
  {
    if a < b then b else a
  }

  /** `str(y)[:4]`. */
  function YearLabel(y: string): (r: string)
    ensures |r| == Min(4, |y|) && r == y[..|r|]
  {
    if |y| <= 4 then y else y[..4]
  }

  function YearLabels(years: seq<string>): (r: seq<string>)
    ensures |r| == |years| && forall k :: 0 <= k < |years| ==> r[k] == YearLabel(years[k])
  {
    seq(|years|, k requires 0 <= k < |years| => YearLabel(years[k]))
  }

  /** The lines shown for each statement: (row name in the table, label in the statement). */
  const IncomeMetrics: seq<(string, string)> := [
    ("Total Revenue", "Total Revenue"), ("Cost of Revenue", "Cost Of Revenue"),
    ("Gross Profit", "Gross Profit"), ("Operating Income", "Operating Income"),
    ("Net Income", "Net Income"), ("EBITDA", "EBITDA")]

  const BalanceMetrics: seq<(string, string)> := [
    ("Total Assets", "Total Assets"), ("Total Liabilities", "Total Liab"),
    ("Total Stockholder Equity", "Stockholders Equity"),
    ("Cash And Cash Equivalents", "Cash And Cash Equivalents"), ("Total Debt", "Total Debt"),
    ("Current Assets", "Current Assets"), ("Current Liabilities", "Current Liabilities")]

  const CashflowMetrics: seq<(string, string)> := [
    ("Operating Cash Flow", "Total Cash From Operating Activities"),
    ("Capital Expenditure", "Capital Expenditures"),
    ("Dividends Paid", "Dividends Paid"), ("Net Borrowings", "Net Borrowings")]

  const OperatingCashFlow: string := "Total Cash From Operating Activities"
  const CapitalExpenditures: string := "Capital Expenditures"

  /** Appends `acc` in front of a computed list, or passes its error on. */
  function Extend<T>(acc: seq<T>, rest: Result<seq<T>>): Result<seq<T>>
  {
    match rest
    case Err(e) => Err(e)
    case Ok(xs) => Ok(acc + xs)
  }

  lemma ExtendAssoc<T>(acc: seq<T>, more: seq<T>, rest: Result<seq<T>>)
    ensures Extend(acc, Extend(more, rest)) == Extend(acc + more, rest)
    ensures Extend([], rest) == rest
  {
    if rest.Ok? {
      assert acc + (more + rest.value) == acc + more + rest.value;
      assert [] + rest.value == rest.value;
    }
  }

  /** One line's values over the years: `format_number(val)` (NaN gives 'N/A'). */
  function LineValues(s: Sheet, key: string, years: seq<string>): Result<seq<Formatted>>
    requires Rect(s)
  {
    if |years| == 0 then Ok([])
    else match Lookup(s, key, years[0])
      case Err(e) => Err(e)
      case Ok(c) => Extend([FormatNumber(c)], LineValues(s, key, years[1..]))
  }

  /** The rows of a history table: one per metric whose label the sheet has, in the metrics' order. */
  function MetricRows(s: Sheet, metrics: seq<(string, string)>, years: seq<string>): Result<seq<(string, seq<Formatted>)>>
    requires Rect(s)
  {
    if |metrics| == 0 then Ok([])
    else if metrics[0].1 !in s.index then MetricRows(s, metrics[1..], years)
    else match LineValues(s, metrics[0].1, years)
      case Err(e) => Err(e)
      case Ok(vs) => Extend([(metrics[0].0, vs)], MetricRows(s, metrics[1..], years))
  }

  /** `operating_cf - abs(capex)` when neither is NaN, else 'N/A'. */
  function FreeCashFlow(operating: Option<real>, capex: Option<real>): Formatted
  {
    if operating.Some? && capex.Some? then FormatNumber(Some(operating.value - Abs(capex.value))) else NotAvailable
  }

  function FcfValues(s: Sheet, years: seq<string>): Result<seq<Formatted>>
    requires Rect(s)
  {
    if |years| == 0 then Ok([])
    else match Lookup(s, OperatingCashFlow, years[0])
      case Err(e) => Err(e)
      case Ok(o) =>
        match Lookup(s, CapitalExpenditures, years[0])
        case Err(e) => Err(e)
        case Ok(c) => Extend([FreeCashFlow(o, c)], FcfValues(s, years[1..]))
  }

  /** The cash-flow rows, with 'Free Cash Flow' last when both of its lines are present. */
  function CashflowRows(s: Sheet, years: seq<string>): Result<seq<(string, seq<Formatted>)>>
    requires Rect(s)
  {
    match MetricRows(s, CashflowMetrics, years)
    case Err(e) => Err(e)
    case Ok(rows) =>
      if OperatingCashFlow in s.index && CapitalExpenditures in s.index then
        match FcfValues(s, years)
        case Err(e) => Err(e)
        case Ok(fcf) => Ok(rows + [("Free Cash Flow", fcf)])
      else Ok(rows)
  }

  // ---------------------------------------------------------------------
  // Ratios

  /** A ratio operand: None when the line is missing, else its cell (None is NaN). */
  datatype Operand = Missing | Present(cell: Option<real>)

  /** Python truthiness: None and 0 are false, NaN is true. */
  predicate Truthy(x: Operand)
  {
    x.Present? && (x.cell.None? || x.cell.value != 0.0)
  }

  /** A ratio: not computed ('N/A'), or computed, where a NaN operand gives NaN ('nan%'). */
  datatype Ratio = NotComputed | Computed(value: Option<real>)

  /** `num / den * scale if num and den and den != 0 else None`. */
  function RatioOf(num: Operand, den: Operand, scale: real): (r: Ratio)
    ensures r.Computed? <==> Truthy(num) && Truthy(den)
    ensures r.Computed? && r.value.Some? ==> num.cell.Some? && den.cell.Some? && r.value.value * den.cell.value == num.cell.value * scale
  {
    if Truthy(num) && Truthy(den) then
      Computed(if num.cell.Some? && den.cell.Some? then Some(num.cell.value / den.cell.value * scale) else None)
    else NotComputed
  }

  /** `sheet.loc[key, year] if key in sheet.index else None`. */
  function GetOperand(s: Sheet, key: string, year: string): (r: Result<Operand>)
    requires Rect(s)
    ensures r.Ok? && r.value.Missing? <==> key !in s.index
  {
    if key !in s.index then Ok(Missing)
    else match Lookup(s, key, year)
      case Err(e) => Err(e)
      case Ok(c) => Ok(Present(c))
  }

  datatype RatioRow = RatioRow(profitMargin: Ratio, roa: Ratio, roe: Ratio, debtToEquity: Ratio)

  function FirstError(rs: seq<Result<Operand>>): (r: Option<Error>)
    ensures r.None? <==> forall k :: 0 <= k < |rs| ==> rs[k].Ok?
  {
    if |rs| == 0 then None else if rs[0].Err? then Some(rs[0].error) else FirstError(rs[1..])
  }

  /** One year's ratios: revenue and net income from the income statement, assets, equity and debt from the balance sheet. */
  function YearRatios(income: Sheet, balance: Sheet, year: string): Result<RatioRow>
    requires Rect(income) && Rect(balance)
  {
    var operands := [GetOperand(income, "Total Revenue", year), GetOperand(income, "Net Income", year),
      GetOperand(balance, "Total Assets", year), GetOperand(balance, "Stockholders Equity", year),
      GetOperand(balance, "Total Debt", year)];
    match FirstError(operands)
    case Some(e) => Err(e)
    case None =>
      var revenue, netIncome, assets, equity, debt :=
        operands[0].value, operands[1].value, operands[2].value, operands[3].value, operands[4].value;
      Ok(RatioRow(RatioOf(netIncome, revenue, 100.0), RatioOf(netIncome, assets, 100.0),
        RatioOf(netIncome, equity, 100.0), RatioOf(debt, equity, 1.0)))
  }

  /** `d.get(key)` on a dict kept as its items in insertion order: the first entry with that key. */
  function Get<V>(entries: seq<(string, V)>, key: string): (r: Option<V>)
    ensures r.None? <==> forall k :: 0 <= k < |entries| ==> entries[k].0 != key
    ensures r.Some? ==> (key, r.value) in entries
  {
    if |entries| == 0 then None
    else if entries[0].0 == key then Some(entries[0].1)
    else Get(entries[1..], key)
  }

  /** `d[key] = value` on a dict kept as its items in insertion order: an existing key keeps its place. */
  function Put<V>(entries: seq<(string, V)>, key: string, value: V): (r: seq<(string, V)>)
    ensures |r| == |entries| || |r| == |entries| + 1
    ensures forall k :: 0 <= k < |entries| ==> r[k].0 == entries[k].0
    ensures forall k :: 0 <= k < |entries| && entries[k].0 != key ==> r[k] == entries[k]
    ensures (key, value) in r
    ensures Get(r, key) == Some(value)
    ensures forall other :: other != key ==> Get(r, other) == Get(entries, other)
    ensures |r| == |entries| <==> exists k :: 0 <= k < |entries| && entries[k].0 == key
  {
    if |entries| == 0 then [(key, value)]
    else if entries[0].0 == key then [(key, value)] + entries[1..]
    else [entries[0]] + Put(entries[1..], key, value)
  }

  /** The last of the years labelled `tag`: the year whose ratios `d[label] = …` leaves in the dict. */
  function LastWithLabel(years: seq<string>, tag: string): (r: Option<string>)
    ensures r.None? <==> forall k :: 0 <= k < |years| ==> YearLabel(years[k]) != tag
    ensures r.Some? ==> exists k :: (0 <= k < |years| && years[k] == r.value && YearLabel(r.value) == tag &&
      forall j :: k < j < |years| ==> YearLabel(years[j]) != tag)
  {
    if |years| == 0 then None
    else
      var rest := LastWithLabel(years[1..], tag);
      if rest.Some? then
        assert forall j :: 0 <= j < |years| - 1 ==> years[1..][j] == years[j + 1];
        rest
      else if YearLabel(years[0]) == tag then Some(years[0])
      else None
  }

  /** The ratios dict after the remaining years, keyed by year label; a repeated label keeps its place and its last row. */
  function RatiosFrom(income: Sheet, balance: Sheet, acc: seq<(string, RatioRow)>, years: seq<string>): Result<seq<(string, RatioRow)>>
    requires Rect(income) && Rect(balance)
    decreases |years|
  {
    if |years| == 0 then Ok(acc)
    else match YearRatios(income, balance, years[0])
      case Err(e) => Err(e)
      case Ok(row) => RatiosFrom(income, balance, Put(acc, YearLabel(years[0]), row), years[1..])
  }

  /** A table: its rows (one per column of the DataFrame) over the year labels. */
  datatype History = History(labels: seq<string>, rows: seq<(string, seq<Formatted>)>)

  /** The dict of tables: each is there only when it has a row. */
  datatype Tables = Tables(
    income: Option<History>, balance: Option<History>, cashflow: Option<History>,
    ratios: Option<seq<(string, RatioRow)>>)

  function Table(labels: seq<string>, rows: seq<(string, seq<Formatted>)>): Option<History>
  {
    if |rows| > 0 then Some(History(labels, rows)) else None
  }

  /** create_historical_tables, with the KeyError a missing year column raises. */
  function HistoricalTables(income: Sheet, balance: Sheet, cashflow: Sheet, maxYears: int): Result<Tables>
    requires Rect(income) && Rect(balance) && Rect(cashflow)
  {
    var years := Years(income.columns, maxYears);
    var labels := YearLabels(years);
    match MetricRows(income, IncomeMetrics, years)
    case Err(e) => Err(e)
    case Ok(incomeRows) =>
      match MetricRows(balance, BalanceMetrics, years)
      case Err(e) => Err(e)
      case Ok(balanceRows) =>
        match CashflowRows(cashflow, years)
        case Err(e) => Err(e)
        case Ok(cashRows) =>
          match RatiosFrom(income, balance, [], years)
          case Err(e) => Err(e)
          case Ok(ratios) =>
            Ok(Tables(Table(labels, incomeRows), Table(labels, balanceRows), Table(labels, cashRows),
              if |ratios| > 0 then Some(ratios) else None))
  }

  // ---------------------------------------------------------------------
  // The loops

  /** The inner loop over the years for one line. */
  method LineHistory(s: Sheet, key: string, years: seq<string>) returns (r: Result<seq<Formatted>>)
    requires Rect(s)
    ensures r == LineValues(s, key, years)
  {
    var values: seq<Formatted> := [];
    var i := 0;
    assert years[0..] == years;
    ExtendAssoc(values, values, LineValues(s, key, years));
    while i < |years|
      invariant i <= |years|
      invariant LineValues(s, key, years) == Extend(values, LineValues(s, key, years[i..]))
    {
      assert years[i..][1..] == years[i + 1..];
      var val := Lookup(s, key, years[i]);
      if val.Err? {
        return Err(val.error);
      }
      var shown := if val.value.None? then NotAvailable else FormatNumber(val.value);
      ExtendAssoc(values, [shown], LineValues(s, key, years[i + 1..]));
      values := values + [shown];
      i := i + 1;
    }
    assert values + [] == values;
    return Ok(values);
  }

  /** The outer loop over the metrics of one statement. */
  method MetricHistory(s: Sheet, metrics: seq<(string, string)>, years: seq<string>)
    returns (r: Result<seq<(string, seq<Formatted>)>>)
    requires Rect(s)
    ensures r == MetricRows(s, metrics, years)
  {
    var history: seq<(string, seq<Formatted>)> := [];
    var i := 0;
    assert metrics[0..] == metrics;
    ExtendAssoc(history, history, MetricRows(s, metrics, years));
    while i < |metrics|
      invariant i <= |metrics|
      invariant MetricRows(s, metrics, years) == Extend(history, MetricRows(s, metrics[i..], years))
    {
      assert metrics[i..][1..] == metrics[i + 1..];
      var (name, key) := metrics[i];
      if key in s.index {
        var values := LineHistory(s, key, years);
        if values.Err? {
          return Err(values.error);
        }
        ExtendAssoc(history, [(name, values.value)], MetricRows(s, metrics[i + 1..], years));
        history := history + [(name, values.value)];
      }
      i := i + 1;
    }
    assert history + [] == history;
    return Ok(history);
  }

  /** The free-cash-flow loop. */
  method FcfHistory(s: Sheet, years: seq<string>) returns (r: Result<seq<Formatted>>)
    requires Rect(s)
    ensures r == FcfValues(s, years)
  {
    var values: seq<Formatted> := [];
    var i := 0;
    assert years[0..] == years;
    ExtendAssoc(values, values, FcfValues(s, years));
    while i < |years|
      invariant i <= |years|
      invariant FcfValues(s, years) == Extend(values, FcfValues(s, years[i..]))
    {
      assert years[i..][1..] == years[i + 1..];
      var operating := Lookup(s, OperatingCashFlow, years[i]);
      if operating.Err? {
        return Err(operating.error);
      }
      var capex := Lookup(s, CapitalExpenditures, years[i]);
      if capex.Err? {
        return Err(capex.error);
      }
      ExtendAssoc(values, [FreeCashFlow(operating.value, capex.value)], FcfValues(s, years[i + 1..]));
      values := values + [FreeCashFlow(operating.value, capex.value)];
      i := i + 1;
    }
    assert values + [] == values;
    return Ok(values);
  }

  /** The ratios loop over the years. */
  method RatiosHistory(income: Sheet, balance: Sheet, years: seq<string>) returns (r: Result<seq<(string, RatioRow)>>)
    requires Rect(income) && Rect(balance)
    ensures r == RatiosFrom(income, balance, [], years)
  {
    var ratios: seq<(string, RatioRow)> := [];
    var i := 0;
    assert years[0..] == years;
    while i < |years|
      invariant i <= |years|
      invariant RatiosFrom(income, balance, [], years) == RatiosFrom(income, balance, ratios, years[i..])
    {
      assert years[i..][1..] == years[i + 1..];
      var row := YearRatios(income, balance, years[i]);
      if row.Err? {
        return Err(row.error);
      }
      ratios := Put(ratios, YearLabel(years[i]), row.value);
      i := i + 1;
    }
    return Ok(ratios);
  }

  method CreateHistoricalTables(income: Sheet, balance: Sheet, cashflow: Sheet, maxYears: int) returns (r: Result<Tables>)
    requires Rect(income) && Rect(balance) && Rect(cashflow)
    ensures r == HistoricalTables(income, balance, cashflow, maxYears)
  {
    var years := Years(income.columns, maxYears);
    var labels := YearLabels(years);
    var incomeRows := MetricHistory(income, IncomeMetrics, years);
    if incomeRows.Err? {
      return Err(incomeRows.error);
    }
    var balanceRows := MetricHistory(balance, BalanceMetrics, years);
    if balanceRows.Err? {
      return Err(balanceRows.error);
    }
    var cashRows := MetricHistory(cashflow, CashflowMetrics, years);
    if cashRows.Err? {
      return Err(cashRows.error);
    }
    var cash := cashRows.value;
    if OperatingCashFlow in cashflow.index && CapitalExpenditures in cashflow.index {
      var fcf := FcfHistory(cashflow, years);
      if fcf.Err? {
        return Err(fcf.error);
      }
      cash := cash + [("Free Cash Flow", fcf.value)];
    }
    var ratios := RatiosHistory(income, balance, years);
    if ratios.Err? {
      return Err(ratios.error);
    }
    return Ok(Tables(Table(labels, incomeRows.value), Table(labels, balanceRows.value), Table(labels, cash),
      if |ratios.value| > 0 then Some(ratios.value) else None));
  }
  // ---------------------------------------------------------------------
  // Properties

  /** The metrics whose label the sheet has, in order. */
  function PresentMetrics(metrics: seq<(string, string)>, index: seq<string>): (r: seq<(string, string)>)
    ensures forall m :: m in r <==> m in metrics && m.1 in index
  {
    if |metrics| == 0 then []
    else (if metrics[0].1 in index then [metrics[0]] else []) + PresentMetrics(metrics[1..], index)
  }

  /** Some year is not a column of the sheet: `.loc` on it raises KeyError. */
  predicate MissingYear(s: Sheet, years: seq<string>)
  {
    exists y :: y in years && y !in s.columns
  }

  /**
   * A present line's values: KeyError exactly when a year is missing from
   * the sheet, and otherwise format_number of each year's cell in turn.
   */
  lemma {:induction false} LineValuesSpec(s: Sheet, key: string, years: seq<string>)
    requires Rect(s) && key in s.index
    ensures var r := LineValues(s, key, years);
      (r.Err? <==> MissingYear(s, years)) &&
      (r.Err? ==> r.error.KeyError? && r.error.key in years) &&
      (r.Ok? ==> (|r.value| == |years| &&
        forall k :: 0 <= k < |years| ==> Lookup(s, key, years[k]).Ok? && r.value[k] == FormatNumber(Lookup(s, key, years[k]).value)))
  {
    if |years| > 0 {
      var rest := years[1..];
      LineValuesSpec(s, key, rest);
      assert forall y :: y in years <==> y == years[0] || y in rest;
    }
  }

  /**
   * A history table has one row per metric whose label the sheet has, in
   * the metrics' order, named by the metric and holding that line's values;
   * it raises exactly when there is such a row and a year is missing.
   */
  lemma {:induction false} MetricRowsSpec(s: Sheet, metrics: seq<(string, string)>, years: seq<string>)
    requires Rect(s)
    ensures var r := MetricRows(s, metrics, years); var p := PresentMetrics(metrics, s.index);
      (r.Err? <==> |p| > 0 && MissingYear(s, years)) &&
      (r.Ok? ==> (|r.value| == |p| &&
        forall k :: 0 <= k < |p| ==> r.value[k].0 == p[k].0 && LineValues(s, p[k].1, years) == Ok(r.value[k].1)))
  {
    if |metrics| > 0 {
      MetricRowsSpec(s, metrics[1..], years);
      if metrics[0].1 in s.index {
        LineValuesSpec(s, metrics[0].1, years);
      }
    }
  }

  /** With both lines present and every year a column, the free-cash-flow row is operating cash flow minus |capex| per year. */
  lemma {:induction false} FcfValuesSpec(s: Sheet, years: seq<string>)
    requires Rect(s) && OperatingCashFlow in s.index && CapitalExpenditures in s.index
    ensures FcfValues(s, years).Err? <==> MissingYear(s, years)
    ensures var r := FcfValues(s, years);
      r.Ok? ==> |r.value| == |years| && forall k :: 0 <= k < |years| ==>
        Lookup(s, OperatingCashFlow, years[k]).Ok? && Lookup(s, CapitalExpenditures, years[k]).Ok? &&
        r.value[k] == FreeCashFlow(Lookup(s, OperatingCashFlow, years[k]).value, Lookup(s, CapitalExpenditures, years[k]).value)
  {
    if |years| > 0 {
      var rest := years[1..];
      FcfValuesSpec(s, rest);
      assert forall y :: y in years <==> y == years[0] || y in rest;
    }
  }

  /** Free cash flow is never above operating cash flow, and is 'N/A' when either cell is NaN or it is exactly zero. */
  lemma FreeCashFlowSpec(operating: Option<real>, capex: Option<real>)
    ensures var f := FreeCashFlow(operating, capex);
      (f.NotAvailable? <==> operating.None? || capex.None? || operating.value == Abs(capex.value)) &&
      (f.Amount? ==> (f.scaled * Unit(f.suffix) <= operating.value &&
        f.scaled * Unit(f.suffix) == operating.value - Abs(capex.value)))
  {
  }

  /**
   * The ratio guards: a missing or zero net income leaves profit margin,
   * ROA and ROE uncomputed; NaN is truthy, so a NaN net income with a
   * truthy revenue gives a NaN profit margin rather than 'N/A'; debt to
   * equity needs a truthy debt and equity.
   */
  lemma YearRatiosGuards(income: Sheet, balance: Sheet, year: string)
    requires Rect(income) && Rect(balance) && YearRatios(income, balance, year).Ok?
    ensures var row := YearRatios(income, balance, year).value;
      ("Net Income" !in income.index || Lookup(income, "Net Income", year) == Ok(Some(0.0)) ==>
        row.profitMargin == NotComputed && row.roa == NotComputed && row.roe == NotComputed) &&
      ("Net Income" in income.index && Lookup(income, "Net Income", year) == Ok(None) &&
        "Total Revenue" in income.index && Lookup(income, "Total Revenue", year).Ok? &&
        Truthy(Present(Lookup(income, "Total Revenue", year).value)) ==>
        row.profitMargin == Computed(None)) &&
      ("Total Debt" !in balance.index || "Stockholders Equity" !in balance.index ==> row.debtToEquity == NotComputed)
  {
    var operands := [GetOperand(income, "Total Revenue", year), GetOperand(income, "Net Income", year),
      GetOperand(balance, "Total Assets", year), GetOperand(balance, "Stockholders Equity", year),
      GetOperand(balance, "Total Debt", year)];
    assert FirstError(operands).None?;
    assert operands[1].Ok?;
  }

  /** Each year's lookups succeed when the year is an income column and a balance column wherever a ratio line is present. */
  lemma YearRatiosOk(income: Sheet, balance: Sheet, year: string)
    requires Rect(income) && Rect(balance) && year in income.columns
    requires "Total Assets" in balance.index || "Stockholders Equity" in balance.index || "Total Debt" in balance.index ==>
      year in balance.columns
    ensures YearRatios(income, balance, year).Ok?
  {
    var operands := [GetOperand(income, "Total Revenue", year), GetOperand(income, "Net Income", year),
      GetOperand(balance, "Total Assets", year), GetOperand(balance, "Stockholders Equity", year),
      GetOperand(balance, "Total Debt", year)];
    assert forall k :: 0 <= k < |operands| ==> operands[k].Ok?;
  }

  /**
   * The ratios dict: earlier keys keep their places, every year's label
   * becomes a key, and there are never more entries than years added.
   */
  lemma {:induction false} RatiosFromSpec(income: Sheet, balance: Sheet, acc: seq<(string, RatioRow)>, years: seq<string>)
    requires Rect(income) && Rect(balance)
    requires forall y :: y in years ==> YearRatios(income, balance, y).Ok?
    ensures var r := RatiosFrom(income, balance, acc, years);
      r.Ok? && |acc| <= |r.value| <= |acc| + |years| &&
      (forall k :: 0 <= k < |acc| ==> r.value[k].0 == acc[k].0) &&
      (forall y :: y in years ==> exists k :: 0 <= k < |r.value| && r.value[k].0 == YearLabel(y)) &&
      (forall tag :: Get(r.value, tag) ==
        if LastWithLabel(years, tag).Some? then Some(YearRatios(income, balance, LastWithLabel(years, tag).value).value)
        else Get(acc, tag))
    decreases |years|
  {
    if |years| > 0 {
      var y := years[0];
      var row := YearRatios(income, balance, y).value;
      var next := Put(acc, YearLabel(y), row);
      assert forall z :: z in years[1..] ==> z in years;
      RatiosFromSpec(income, balance, next, years[1..]);
      var r := RatiosFrom(income, balance, acc, years);
      assert r == RatiosFrom(income, balance, next, years[1..]);
      var j :| 0 <= j < |next| && next[j] == (YearLabel(y), row);
      assert r.value[j].0 == YearLabel(y);
      forall tag
        ensures Get(r.value, tag) ==
          if LastWithLabel(years, tag).Some? then Some(YearRatios(income, balance, LastWithLabel(years, tag).value).value)
          else Get(acc, tag)
      {
        assert LastWithLabel(years, tag) ==
          if LastWithLabel(years[1..], tag).Some? then LastWithLabel(years[1..], tag)
          else if YearLabel(y) == tag then Some(y) else None;
      }
    }
  }

  /**
   * create_historical_tables raises (KeyError on a year) exactly when the
   * balance sheet or the cash-flow statement has one of its lines but
   * lacks one of the income statement's first years; the income table and
   * the ratios never raise first.
   */
  lemma HistoricalErrors(income: Sheet, balance: Sheet, cashflow: Sheet, maxYears: int)
    requires Rect(income) && Rect(balance) && Rect(cashflow)
    ensures var years := Years(income.columns, maxYears); var r := HistoricalTables(income, balance, cashflow, maxYears);
      (r.Err? <==>
        (|PresentMetrics(BalanceMetrics, balance.index)| > 0 && MissingYear(balance, years)) ||
        (|PresentMetrics(CashflowMetrics, cashflow.index)| > 0 && MissingYear(cashflow, years))) &&
      (r.Err? ==> r.error.KeyError? && r.error.key in years)
  {
    var years := Years(income.columns, maxYears);
    assert forall y :: y in years ==> y in income.columns;
    MetricRowsSpec(income, IncomeMetrics, years);
    MetricRowsSpec(balance, BalanceMetrics, years);
    MetricRowsSpec(cashflow, CashflowMetrics, years);
    var balanceOk := !(|PresentMetrics(BalanceMetrics, balance.index)| > 0 && MissingYear(balance, years));
    var cashOk := !(|PresentMetrics(CashflowMetrics, cashflow.index)| > 0 && MissingYear(cashflow, years));
    if balanceOk && cashOk {
      if OperatingCashFlow in cashflow.index && CapitalExpenditures in cashflow.index {
        assert CashflowMetrics[0] in PresentMetrics(CashflowMetrics, cashflow.index);
        FcfValuesSpec(cashflow, years);
      }
      RatiosAllOk(income, balance, years);
      RatiosFromSpec(income, balance, [], years);
    } else {
      ErrorsAreYears(balance, BalanceMetrics, years);
      ErrorsAreYears(cashflow, CashflowMetrics, years);
    }
  }

  /** A history table's error is a KeyError on one of the years. */
  lemma {:induction false} ErrorsAreYears(s: Sheet, metrics: seq<(string, string)>, years: seq<string>)
    requires Rect(s)
    ensures MetricRows(s, metrics, years).Err? ==>
      MetricRows(s, metrics, years).error.KeyError? && MetricRows(s, metrics, years).error.key in years
  {
    if |metrics| > 0 {
      ErrorsAreYears(s, metrics[1..], years);
      if metrics[0].1 in s.index {
        LineValuesSpec(s, metrics[0].1, years);
      }
    }
  }

  /**
   * When the tables are built, every table is labelled by the first four
   * characters of the first min(max_years, n) income columns, and the
   * ratios table is there exactly when there is a year, with one entry per
   * distinct label.
   */
  lemma TablesShape(income: Sheet, balance: Sheet, cashflow: Sheet, maxYears: int)
    requires Rect(income) && Rect(balance) && Rect(cashflow)
    requires HistoricalTables(income, balance, cashflow, maxYears).Ok?
    ensures var t := HistoricalTables(income, balance, cashflow, maxYears).value; var years := Years(income.columns, maxYears);
      (t.income.Some? ==> t.income.value.labels == YearLabels(years)) &&
      (t.balance.Some? ==> t.balance.value.labels == YearLabels(years)) &&
      (t.cashflow.Some? ==> t.cashflow.value.labels == YearLabels(years)) &&
      (t.ratios.Some? <==> |years| > 0) &&
      (t.ratios.Some? ==> (|t.ratios.value| <= |years| &&
        forall y :: y in years ==> exists k :: 0 <= k < |t.ratios.value| && t.ratios.value[k].0 == YearLabel(y)))
  {
    var years := Years(income.columns, maxYears);
    TablesParts(income, balance, cashflow, maxYears);
    MetricRowsSpec(balance, BalanceMetrics, years);
    assert forall y :: y in years ==> y in income.columns;
    RatiosAllOk(income, balance, years);
    RatiosShape(income, balance, years);
  }

  /**
   * In the built ratios table each year's label holds the ratios of the
   * last of the years with that label, as the repeated `d[label] = …`
   * assignments leave it.
   */
  lemma TablesRatios(income: Sheet, balance: Sheet, cashflow: Sheet, maxYears: int)
    requires Rect(income) && Rect(balance) && Rect(cashflow)
    requires HistoricalTables(income, balance, cashflow, maxYears).Ok?
    ensures var t := HistoricalTables(income, balance, cashflow, maxYears).value; var years := Years(income.columns, maxYears);
      t.ratios.Some? ==> forall k :: 0 <= k < |years| ==>
        LastWithLabel(years, YearLabel(years[k])).Some? &&
        YearRatios(income, balance, LastWithLabel(years, YearLabel(years[k])).value).Ok? &&
        Get(t.ratios.value, YearLabel(years[k])) ==
          Some(YearRatios(income, balance, LastWithLabel(years, YearLabel(years[k])).value).value)
  {
    var years := Years(income.columns, maxYears);
    TablesParts(income, balance, cashflow, maxYears);
    MetricRowsSpec(balance, BalanceMetrics, years);
    assert forall y :: y in years ==> y in income.columns;
    RatiosAllOk(income, balance, years);
    RatiosShape(income, balance, years);
  }

  /** Built tables are the four tables of the year labels, and the ratios when there are some. */
  lemma TablesParts(income: Sheet, balance: Sheet, cashflow: Sheet, maxYears: int)
    requires Rect(income) && Rect(balance) && Rect(cashflow)
    requires HistoricalTables(income, balance, cashflow, maxYears).Ok?
    ensures var years := Years(income.columns, maxYears); var labels := YearLabels(years);
      MetricRows(income, IncomeMetrics, years).Ok? && MetricRows(balance, BalanceMetrics, years).Ok? &&
      CashflowRows(cashflow, years).Ok? && RatiosFrom(income, balance, [], years).Ok? &&
      var ratios := RatiosFrom(income, balance, [], years).value;
      HistoricalTables(income, balance, cashflow, maxYears).value ==
        Tables(Table(labels, MetricRows(income, IncomeMetrics, years).value), Table(labels, MetricRows(balance, BalanceMetrics, years).value),
          Table(labels, CashflowRows(cashflow, years).value), if |ratios| > 0 then Some(ratios) else None)
  {
  }

  /** The ratios of every year are keyed by distinct labels, one for each year, and there are some exactly when there is a year. */
  lemma RatiosShape(income: Sheet, balance: Sheet, years: seq<string>)
    requires Rect(income) && Rect(balance)
    requires forall y :: y in years ==> YearRatios(income, balance, y).Ok?
    ensures RatiosFrom(income, balance, [], years).Ok?
    ensures var r := RatiosFrom(income, balance, [], years).value;
      (|r| > 0 <==> |years| > 0) && |r| <= |years| &&
      (forall y :: y in years ==> exists k :: 0 <= k < |r| && r[k].0 == YearLabel(y)) &&
      forall k :: 0 <= k < |years| ==>
        LastWithLabel(years, YearLabel(years[k])).Some? &&
        Get(r, YearLabel(years[k])) == Some(YearRatios(income, balance, LastWithLabel(years, YearLabel(years[k])).value).value)
  {
    RatiosFromSpec(income, balance, [], years);
    if |years| > 0 {
      assert years[0] in years;
    }
  }

  /** With the balance sheet's table buildable, every year's ratios are looked up without error. */
  lemma RatiosAllOk(income: Sheet, balance: Sheet, years: seq<string>)
    requires Rect(income) && Rect(balance)
    requires forall y :: y in years ==> y in income.columns
    requires !(|PresentMetrics(BalanceMetrics, balance.index)| > 0 && MissingYear(balance, years))
    ensures forall y :: y in years ==> YearRatios(income, balance, y).Ok?
  {
    forall y | y in years
      ensures YearRatios(income, balance, y).Ok?
    {
      if "Total Assets" in balance.index || "Stockholders Equity" in balance.index || "Total Debt" in balance.index {
        assert BalanceMetrics[0] in PresentMetrics(BalanceMetrics, balance.index) ||
          BalanceMetrics[2] in PresentMetrics(BalanceMetrics, balance.index) ||
          BalanceMetrics[4] in PresentMetrics(BalanceMetrics, balance.index);
      }
      YearRatiosOk(income, balance, y);
    }
  }
}

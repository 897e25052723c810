/**
 * Shared vocabulary of the indicator library: optional values (pandas NaN),
 * results carrying the errors the library raises, a bar of OHLCV data, the
 * column check every indicator starts with, and the string helpers used to
 * build and normalise column names.
 */
module Common {

  /** An entry that pandas would hold as NaN is None. */
  datatype Option<T> = None | Some(value: T)

  /** The exceptions the library (or pandas underneath it) raises. */
  datatype Error =
    | MissingColumn(name: string)   // ValueError: "Columna '...' no encontrada"
    | InvalidWindow                 // pandas rejects a rolling/ewm window
    | InvalidPeriod                 // the library's own period checks
    | IndexError                    // numpy indexing of an empty array
    | EmptyReduction                // nanmin/nanmax of a zero-size window
    | NotDatetimeIndex              // VWAP needs a DatetimeIndex
    | TypeError                     // comparing a string with a number
    | KeyError(key: string)         // .loc on a missing label
    | InvalidStatementType(kind: string)
    | NoData                        // an empty download
    | ConnectionFailed              // every download attempt failed

  datatype Result<T> = Ok(value: T) | Err(error: Error)

  /** One row of OHLCV data. */
  datatype Bar = Bar(open: real, high: real, low: real, close: real, volume: real)

  function Highs(bars: seq<Bar>): (r: seq<real>)
    ensures |r| == |bars| && forall i :: 0 <= i < |bars| ==> r[i] == bars[i].high
  {
    seq(|bars|, i requires 0 <= i < |bars| => bars[i].high)
  }

  function Lows(bars: seq<Bar>): (r: seq<real>)
    ensures |r| == |bars| && forall i :: 0 <= i < |bars| ==> r[i] == bars[i].low
  {
    seq(|bars|, i requires 0 <= i < |bars| => bars[i].low)
  }

  function Closes(bars: seq<Bar>): (r: seq<real>)
    ensures |r| == |bars| && forall i :: 0 <= i < |bars| ==> r[i] == bars[i].close
  {
    seq(|bars|, i requires 0 <= i < |bars| => bars[i].close)
  }

  function Volumes(bars: seq<Bar>): (r: seq<real>)
    ensures |r| == |bars| && forall i :: 0 <= i < |bars| ==> r[i] == bars[i].volume
  {
    seq(|bars|, i requires 0 <= i < |bars| => bars[i].volume)
  }

  /** A DataFrame's columns by name; input columns hold no NaN. */
  type Frame = map<string, seq<real>>

  /** Every column of a DataFrame has the same number of rows. */
  predicate Rectangular(df: Frame)
  {
    forall a, b :: a in df && b in df ==> |df[a]| == |df[b]|
  }

  /**
   * The index of a DataFrame, as far as the model needs it: integer labels
   * (the default RangeIndex is 0, 1, ..., n - 1), a DatetimeIndex given as
   * the calendar day of each row, or labels of another kind.
   */
  datatype Index = IntLabels(labels: seq<int>) | Dates(days: seq<int>) | OtherIndex

  /** The index has one label per row of every column. */
  predicate IndexFits(df: Frame, index: Index)
  {
    forall c :: c in df ==>
      (index.IntLabels? ==> |index.labels| == |df[c]|) && (index.Dates? ==> |index.days| == |df[c]|)
  }

  /** The default RangeIndex of n rows. */
  function RangeIndex(n: nat): Index
  {
    IntLabels(seq(n, i => i))
  }

  /**
   * `df[col] = pd.Series(values)`: the new Series carries the default index
   * 0..n-1, and pandas aligns it on the frame's labels, so row i receives
   * the value at the position equal to its label, or NaN when its label is
   * not one of 0..n-1.
   */
  function Aligned(index: Index, values: seq<Option<real>>): (r: seq<Option<real>>)
    requires index.IntLabels? ==> |index.labels| == |values|
    ensures |r| == |values|
  {
    seq(|values|, i requires 0 <= i < |values| =>
      if index.IntLabels? && 0 <= index.labels[i] < |values| then values[index.labels[i]] else None)
  }

  /** On the default RangeIndex the assignment is positional. */
  lemma AlignedDefault(values: seq<Option<real>>)
    ensures Aligned(RangeIndex(|values|), values) == values
  {
  }

  /** On a DatetimeIndex, or any index without integer labels, no row matches: the column is NaN throughout. */
  lemma AlignedLost(index: Index, values: seq<Option<real>>)
    requires !index.IntLabels?
    ensures forall i :: 0 <= i < |values| ==> Aligned(index, values)[i] == None
  {
  }

  /** The typical price (high + low + close) / 3. */
  function TypicalPrice(b: Bar): real
  {
    (b.high + b.low + b.close) / 3.0
  }

  /** A bar whose range contains its open and close. */
  predicate WellFormed(b: Bar)
  {
    b.low <= b.open <= b.high && b.low <= b.close <= b.high
  }

  /**
   * Index of the first required column that is absent, or |required| when all
   * are present: the `for col in required_cols: if col not in df.columns: raise`
   * loop at the head of every indicator.
   */
  function FirstMissing(present: set<string>, required: seq<string>): (k: nat)
    ensures k <= |required|
    ensures forall j :: 0 <= j < k ==> required[j] in present
    ensures k < |required| ==> required[k] !in present
  {
    if |required| == 0 then 0
    else if required[0] !in present then 0
    else 1 + FirstMissing(present, required[1..])
  }

  /** None when every required column is present, else the error raised for the first missing one. */
  function CheckColumns(present: set<string>, required: seq<string>): (r: Option<Error>)
    ensures r.None? <==> forall j :: 0 <= j < |required| ==> required[j] in present
    ensures r.Some? ==> exists j :: 0 <= j < |required| && r.value == MissingColumn(required[j]) && required[j] !in present
  {
    var k := FirstMissing(present, required);
    if k == |required| then None else Some(MissingColumn(required[k]))
  }

  /** The columns most indicators require. */
  const PriceColumns: seq<string> := ["high", "low", "close"]
  const BarColumns: seq<string> := ["high", "low", "close", "volume"]

  predicate HasPrices(df: Frame)
  {
    "high" in df && "low" in df && "close" in df
  }

  predicate HasBars(df: Frame)
  {
    HasPrices(df) && "volume" in df
  }

  lemma PriceCheck(df: Frame)
    ensures CheckColumns(df.Keys, PriceColumns).None? <==> HasPrices(df)
  {
    if CheckColumns(df.Keys, PriceColumns).None? {
      assert PriceColumns[0] in df && PriceColumns[1] in df && PriceColumns[2] in df;
    }
  }

  lemma BarCheck(df: Frame)
    ensures CheckColumns(df.Keys, BarColumns).None? <==> HasBars(df)
  {
    if CheckColumns(df.Keys, BarColumns).None? {
      assert BarColumns[0] in df && BarColumns[1] in df && BarColumns[2] in df && BarColumns[3] in df;
    }
  }

  // ---------------------------------------------------------------------
  // Strings: lowercasing of the Latin-1 letters and Python's str.strip().

  /**
   * `str.lower()` on one character, for the upper-case letters of ASCII
   * and Latin-1 (A-Z and À-Þ except ×); other scripts are kept as they are.
   */
  function LowerChar(c: char): char
  {
    var k := c as int;
    if 0x41 <= k <= 0x5A || (0xC0 <= k <= 0xDE && k != 0xD7) then (k + 0x20) as char else c
  }

  function Lower(s: string): (r: string)
    ensures |r| == |s| && forall i :: 0 <= i < |s| ==> r[i] == LowerChar(s[i])
  {
    seq(|s|, i requires 0 <= i < |s| => LowerChar(s[i]))
  }

  /**
   * The characters `str.strip()` removes: those for which `str.isspace()`
   * holds, the ASCII controls \t-\r and \x1c-\x1f, the space, NEL, the
   * no-break space and the Unicode spaces and separators.
   */
  predicate IsSpace(c: char)
  {
    var k := c as int;
    k == 0x20 || 0x09 <= k <= 0x0D || 0x1C <= k <= 0x1F || k == 0x85 || k == 0xA0 || k == 0x1680 ||
    0x2000 <= k <= 0x200A || k == 0x2028 || k == 0x2029 || k == 0x202F || k == 0x205F || k == 0x3000
  }

  function StripLeft(s: string): (r: string)
    ensures |r| <= |s| && r == s[|s| - |r|..]
    ensures |r| > 0 ==> !IsSpace(r[0])
    ensures forall i :: 0 <= i < |s| - |r| ==> IsSpace(s[i])
  {
    if |s| > 0 && IsSpace(s[0]) then StripLeft(s[1..]) else s
  }

  function StripRight(s: string): (r: string)
    ensures |r| <= |s| && r == s[..|r|]
    ensures |r| > 0 ==> !IsSpace(r[|r| - 1])
    ensures forall i :: |r| <= i < |s| ==> IsSpace(s[i])
  {
    if |s| > 0 && IsSpace(s[|s| - 1]) then StripRight(s[..|s| - 1]) else s
  }

  /** Python's `str.strip()`. */
  function Strip(s: string): (r: string)
    ensures |r| == 0 || (!IsSpace(r[0]) && !IsSpace(r[|r| - 1]))
  {
    StripRight(StripLeft(s))
  }

  /** The column-name normalisation `col.lower().strip()`. */
  function NormalizeName(s: string): string
  {
    Strip(Lower(s))
  }

  lemma StripLeftNoop(s: string)
    requires |s| == 0 || !IsSpace(s[0])
    ensures StripLeft(s) == s
  {
  }

  lemma StripRightNoop(s: string)
    requires |s| == 0 || !IsSpace(s[|s| - 1])
    ensures StripRight(s) == s
  {
  }

  /** Stripping twice changes nothing more. */
  lemma StripIdempotent(s: string)
    ensures Strip(Strip(s)) == Strip(s)
  {
    var t := Strip(s);
    StripLeftNoop(t);
    StripRightNoop(t);
  }

  lemma {:induction false} LowerStripLeft(s: string)
    ensures Lower(StripLeft(s)) == StripLeft(Lower(s))
  {
    if |s| > 0 && IsSpace(s[0]) {
      assert Lower(s)[1..] == Lower(s[1..]);
      LowerStripLeft(s[1..]);
    }
  }

  lemma {:induction false} LowerStripRight(s: string)
    ensures Lower(StripRight(s)) == StripRight(Lower(s))
  {
    if |s| > 0 && IsSpace(s[|s| - 1]) {
      assert Lower(s)[..|s| - 1] == Lower(s[..|s| - 1]);
      LowerStripRight(s[..|s| - 1]);
    }
  }

  lemma LowerIdempotent(s: string)
    ensures Lower(Lower(s)) == Lower(s)
  {
  }

  /** Normalising an already normalised name is the identity. */
  lemma NormalizeNameIdempotent(s: string)
    ensures NormalizeName(NormalizeName(s)) == NormalizeName(s)
  {
    var l := Lower(s);
    LowerStripLeft(l);
    LowerStripRight(StripLeft(l));
    LowerIdempotent(s);
    StripIdempotent(l);
  }

  /** A trailing no-break space is stripped as Python strips it: "CLOSE" + NBSP names the column "close". */
  lemma NormalizeNoBreakSpace()
    ensures NormalizeName("CLOSE" + [0xA0 as char]) == "close"
  {
    var l := Lower("CLOSE" + [0xA0 as char]);
    assert l == "close" + [0xA0 as char];
    assert StripLeft(l) == l;
    assert StripRight(l) == StripRight("close");
  }

  // ---------------------------------------------------------------------
  // Decimal rendering of periods in column names (`f'SMA_{period}'`).

  function DigitChar(d: nat): char
    requires d < 10
  {
    ('0' as int + d) as char
  }

  function NatToString(n: nat): (r: string)
    ensures |r| >= 1
    ensures forall i :: 0 <= i < |r| ==> '0' <= r[i] <= '9'
    decreases n
  {
    if n < 10 then [DigitChar(n)] else NatToString(n / 10) + [DigitChar(n % 10)]
  }

  /** Reads back a non-empty string of decimal digits. */
  function ParseNat(s: string): nat
    requires forall i :: 0 <= i < |s| ==> '0' <= s[i] <= '9'
    decreases |s|
  {
    if |s| == 0 then 0 else 10 * ParseNat(s[..|s| - 1]) + (s[|s| - 1] as int - '0' as int)
  }

  /** Rendering then reading a period gives it back, so distinct periods give distinct names. */
  lemma {:induction false} ParseNatToString(n: nat)
    ensures ParseNat(NatToString(n)) == n
    decreases n
  {
    if n >= 10 {
      var s := NatToString(n);
      assert s[..|s| - 1] == NatToString(n / 10);
      ParseNatToString(n / 10);
    }
  }

  lemma NatToStringInjective(m: nat, n: nat)
    requires NatToString(m) == NatToString(n)
    ensures m == n
  {
    ParseNatToString(m);
    ParseNatToString(n);
  }

  /** The output column name `f'{prefix}_{period}'`. */
  function ColumnName(prefix: string, period: nat): (r: string)
    ensures |r| > |prefix| + 1 && r[..|prefix|] == prefix && r[|prefix|] == '_'
  {
    prefix + "_" + NatToString(period)
  }

  /** Distinct periods give distinct column names under one prefix. */
  lemma ColumnNameInjective(prefix: string, m: nat, n: nat)
    requires ColumnName(prefix, m) == ColumnName(prefix, n)
    ensures m == n
  {
    var k := |prefix| + 1;
    assert ColumnName(prefix, m)[k..] == NatToString(m);
    assert ColumnName(prefix, n)[k..] == NatToString(n);
    NatToStringInjective(m, n);
  }
}

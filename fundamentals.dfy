/**
 * Cleaning of fundamental data: a dictionary of named values whose keys
 * are normalised, whose numbers become floats, whose strings are
 * stripped and whose nulls are counted; then the sanity checks on the
 * usual ratios, which only warn.
 */
module Fundamentals {
  import opened Common
  import opened Cleaning

  /** A Python value as the cleaner distinguishes it. */
  datatype Value =
    | VNone
    | VNaN              // a float NaN
    | VFloat(f: real)
    | VInt(i: int)
    | VBool(b: bool)    // an int subclass in Python: True is 1
    | VStr(s: string)
    | VScalar(x: Option<real>)  // a number of another type (numpy.int64, numpy.float32, Decimal):
                                // kept as it is, compared as a number; None is its NaN
    | VOther            // anything else: kept as it is, and not comparable with numbers

  /** The cleaned value of one entry. */
  function CleanValue(v: Value): (r: Value)
    ensures (v.VNone? || v.VNaN?) <==> r.VNone?
    ensures !(r.VNaN? || r.VInt? || r.VBool?)
    ensures v.VFloat? ==> r == v
    ensures v.VInt? ==> r == VFloat(v.i as real)
    ensures v.VStr? ==> r == VStr(Strip(v.s))
    ensures v.VScalar? || v.VOther? ==> r == v
  {
    match v
    case VNone => VNone
    case VNaN => VNone
    case VFloat(f) => VFloat(f)
    case VInt(i) => VFloat(i as real)
    case VBool(b) => VFloat(if b then 1.0 else 0.0)
    case VStr(s) => VStr(Strip(s))
    case VScalar(x) => VScalar(x)
    case VOther => VOther
  }

  /** Cleaning a cleaned value changes nothing. */
  lemma CleanValueIdempotent(v: Value)
    ensures CleanValue(CleanValue(v)) == CleanValue(v)
  {
    if v.VStr? {
      StripIdempotent(v.s);
    }
  }

  /** `str(key).lower().strip()` when normalising, else the key as is. */
  function CleanKey(normalize: bool, key: string): string
  {
    if normalize then NormalizeName(key) else key
  }

  predicate IsNull(v: Value)
  {
    v.VNone? || v.VNaN?
  }

  /** The cleaned dictionary after the first n entries: a later key that normalises the same overwrites. */
  function CleanedEntries(normalize: bool, items: seq<(string, Value)>): map<string, Value>
  {
    if |items| == 0 then map[]
    else
      var n := |items| - 1;
      CleanedEntries(normalize, items[..n])[CleanKey(normalize, items[n].0) := CleanValue(items[n].1)]
  }

  /** The number of null entries: what null_values_filled counts. */
  function NullEntries(items: seq<(string, Value)>): (n: nat)
    ensures n <= |items|
  {
    if |items| == 0 then 0
    else NullEntries(items[..|items| - 1]) + (if IsNull(items[|items| - 1].1) then 1 else 0)
  }

  /** The cleaned dictionary has exactly the cleaned keys. */
  lemma {:induction false} CleanedKeys(normalize: bool, items: seq<(string, Value)>, k: string)
    ensures k in CleanedEntries(normalize, items) <==> exists i :: 0 <= i < |items| && CleanKey(normalize, items[i].0) == k
  {
    if |items| > 0 {
      var n := |items| - 1;
      CleanedKeys(normalize, items[..n], k);
      if exists i :: 0 <= i < n && CleanKey(normalize, items[..n][i].0) == k {
        var i :| 0 <= i < n && CleanKey(normalize, items[..n][i].0) == k;
        assert items[i] == items[..n][i];
      }
      if exists i :: 0 <= i < n && CleanKey(normalize, items[i].0) == k {
        var i :| 0 <= i < n && CleanKey(normalize, items[i].0) == k;
        assert items[i] == items[..n][i];
      }
    }
  }

  /** Each key holds the cleaned value of the last entry that cleans to it. */
  lemma {:induction false} CleanedLast(normalize: bool, items: seq<(string, Value)>, i: nat)
    requires i < |items|
    requires forall j :: i < j < |items| ==> CleanKey(normalize, items[j].0) != CleanKey(normalize, items[i].0)
    ensures var m := CleanedEntries(normalize, items);
      CleanKey(normalize, items[i].0) in m && m[CleanKey(normalize, items[i].0)] == CleanValue(items[i].1)
  {
    var n := |items| - 1;
    if i < n {
      assert items[..n][i] == items[i];
      forall j | i < j < n
        ensures CleanKey(normalize, items[..n][j].0) != CleanKey(normalize, items[..n][i].0)
      {
        assert items[..n][j] == items[j];
      }
      CleanedLast(normalize, items[..n], i);
    }
  }

  /** No cleaned value is NaN, an int or a bool. */
  lemma {:induction false} CleanedValues(normalize: bool, items: seq<(string, Value)>, k: string)
    requires k in CleanedEntries(normalize, items)
    ensures var v := CleanedEntries(normalize, items)[k];
      !(v.VNaN? || v.VInt? || v.VBool?)
  {
    var n := |items| - 1;
    if k != CleanKey(normalize, items[n].0) {
      CleanedValues(normalize, items[..n], k);
    }
  }

  /** With normalisation on, every key of the cleaned dictionary is already normalised. */
  lemma KeysNormalized(items: seq<(string, Value)>, k: string)
    requires k in CleanedEntries(true, items)
    ensures NormalizeName(k) == k
  {
    CleanedKeys(true, items, k);
    var i :| 0 <= i < |items| && CleanKey(true, items[i].0) == k;
    NormalizeNameIdempotent(items[i].0);
  }

  // ---------------------------------------------------------------------
  // _validate_fundamental_ratios

  /** The ratios expected to be non-negative. */
  const PositiveRatios: seq<string> := ["pe_ratio", "price_to_book", "price_to_sales", "roe", "roa"]

  /** The fields expected to be percentages. */
  const PercentageFields: seq<string> := ["dividend_yield", "payout_ratio", "profit_margin"]

  /** The warnings issued so far and the error that stopped the checks, if one did. */
  datatype Checked = Checked(warnings: seq<Warning>, failure: Option<Error>)

  /** A number as `<` and `>` see it; None for NaN (every comparison false) and for non-numbers. */
  function Numeric(v: Value): Option<real>
  {
    match v
    case VFloat(f) => Some(f)
    case VInt(i) => Some(i as real)
    case VBool(b) => Some(if b then 1.0 else 0.0)
    case VScalar(x) => x
    case _ => None
  }

  /** One positive-ratio check: `data[ratio] < 0` warns; comparing a string or other object raises. */
  function PositiveCheck(data: map<string, Value>, field: string): (r: Checked)
    ensures r.failure.Some? <==> Incomparable(data, field)
    ensures r.failure.Some? ==> r == Checked([], Some(TypeError))
    ensures r.warnings != [] <==> field in data && Numeric(data[field]).Some? && Numeric(data[field]).value < 0.0
    ensures r.warnings != [] ==> r.warnings == [NegativeRatio(field, Numeric(data[field]).value)]
  {
    if field !in data || data[field].VNone? then Checked([], None)
    else if data[field].VStr? || data[field].VOther? then Checked([], Some(TypeError))
    else
      var x := Numeric(data[field]);
      if x.Some? && x.value < 0.0 then Checked([NegativeRatio(field, x.value)], None) else Checked([], None)
  }

  /** The value a percentage field is judged by: a decimal below 1 is scaled by 100. */
  function AsPercentage(x: real): real
  {
    if x < 1.0 then x * 100.0 else x
  }

  /** One percentage check: the scaled value above 1000 warns. */
  function PercentageCheck(data: map<string, Value>, field: string): (r: Checked)
    ensures r.failure.Some? <==> Incomparable(data, field)
    ensures r.failure.Some? ==> r == Checked([], Some(TypeError))
    ensures r.warnings != [] <==> field in data && Numeric(data[field]).Some? && Numeric(data[field]).value > 1000.0
  {
    if field !in data || data[field].VNone? then Checked([], None)
    else if data[field].VStr? || data[field].VOther? then Checked([], Some(TypeError))
    else
      var x := Numeric(data[field]);
      if x.Some? && AsPercentage(x.value) > 1000.0 then Checked([SuspiciousPercentage(field, AsPercentage(x.value))], None)
      else Checked([], None)
  }

  /** Adds one check's outcome, unless an earlier check already raised. */
  function Then(done: Checked, next: Checked): Checked
  {
    if done.failure.Some? then done else Checked(done.warnings + next.warnings, next.failure)
  }

  /** The checks of `fields`, in order, each positive (true) or percentage (false). */
  function Checks(data: map<string, Value>, fields: seq<string>, positive: bool): Checked
  {
    if |fields| == 0 then Checked([], None)
    else
      var n := |fields| - 1;
      Then(Checks(data, fields[..n], positive),
        if positive then PositiveCheck(data, fields[n]) else PercentageCheck(data, fields[n]))
  }

  /** All ratio checks: the positive ratios first, then the percentages. */
  function RatioChecks(data: map<string, Value>): Checked
  {
    Then(Checks(data, PositiveRatios, true), Checks(data, PercentageFields, false))
  }

  /** A field stops the checks when its value cannot be compared with a number. */
  predicate Incomparable(data: map<string, Value>, field: string)
  {
    field in data && (data[field].VStr? || data[field].VOther?)
  }

  lemma {:induction false} ChecksFailure(data: map<string, Value>, fields: seq<string>, positive: bool)
    ensures Checks(data, fields, positive).failure.Some? <==> exists f :: f in fields && Incomparable(data, f)
    ensures Checks(data, fields, positive).failure.Some? ==> Checks(data, fields, positive).failure == Some(TypeError)
  {
    if |fields| > 0 {
      var n := |fields| - 1;
      ChecksFailure(data, fields[..n], positive);
      assert fields == fields[..n] + [fields[n]];
    }
  }

  /**
   * The checks raise TypeError exactly when one of the eight fields holds
   * a string or another object that is not a number; otherwise they only
   * warn. A numpy or Decimal number is compared like a float.
   */
  lemma RatioChecksFailure(data: map<string, Value>)
    ensures RatioChecks(data).failure.Some? <==>
      exists f :: (f in PositiveRatios || f in PercentageFields) && Incomparable(data, f)
    ensures RatioChecks(data).failure.Some? ==> RatioChecks(data).failure == Some(TypeError)
  {
    ChecksFailure(data, PositiveRatios, true);
    ChecksFailure(data, PercentageFields, false);
  }

  /** A numpy or Decimal number never makes a check raise, and as a ratio it warns exactly when negative. */
  lemma ScalarCompared(data: map<string, Value>, field: string, x: real)
    requires field in data && data[field] == VScalar(Some(x))
    ensures PositiveCheck(data, field).failure.None? && PercentageCheck(data, field).failure.None?
    ensures PositiveCheck(data, field).warnings != [] <==> x < 0.0
    ensures PercentageCheck(data, field).warnings != [] <==> x > 1000.0
  {
  }

  /**
   * A percentage warns exactly when its raw value is above 1000: a decimal
   * below 1 scales to under 100, so the scaling never triggers a warning.
   */
  lemma PercentageWarnsIff(x: real)
    ensures AsPercentage(x) > 1000.0 <==> x > 1000.0
    ensures x < 1.0 ==> AsPercentage(x) < 100.0
  {
  }
}

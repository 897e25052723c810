/**
 * format_number: the unit a large amount is shown in. The model keeps the
 * choice of suffix and the scaled amount; rendering with two decimals and
 * a dollar sign is left to the caller.
 */
module NumberFormat {
  import opened Common
  import opened Series

  /** 'N/A', or `$<scaled><suffix>` with suffix "B", "M", "K" or none. */
  datatype Formatted = NotAvailable | Amount(scaled: real, suffix: string)

  /** The power of ten a suffix stands for. */
  function Unit(suffix: string): real
  {
    if suffix == "B" then 1000000000.0
    else if suffix == "M" then 1000000.0
    else if suffix == "K" then 1000.0
    else 1.0
  }

  /** NaN (None here) and zero are 'N/A'; otherwise the largest unit not above |value|. */
  function FormatNumber(value: Option<real>): (r: Formatted)
    ensures r.NotAvailable? <==> value.None? || value.value == 0.0
    ensures r.Amount? ==> r.scaled * Unit(r.suffix) == value.value
    ensures r.Amount? ==> (r.suffix == "B" <==> Abs(value.value) >= 1000000000.0)
    ensures r.Amount? ==> (r.suffix == "M" <==> 1000000.0 <= Abs(value.value) < 1000000000.0)
    ensures r.Amount? ==> (r.suffix == "K" <==> 1000.0 <= Abs(value.value) < 1000000.0)
    ensures r.Amount? ==> (r.suffix == "" <==> Abs(value.value) < 1000.0)
  {
    if value.None? || value.value == 0.0 then NotAvailable
    else
      var v := value.value;
      if Abs(v) >= 1000000000.0 then Amount(v / 1000000000.0, "B")
      else if Abs(v) >= 1000000.0 then Amount(v / 1000000.0, "M")
      else if Abs(v) >= 1000.0 then Amount(v / 1000.0, "K")
      else Amount(v, "")
  }

  /**
   * The scaled amount keeps the sign of the value and, below billions,
   * shows fewer than four integer digits; with a suffix it is at least 1
   * in absolute value.
   */
  lemma FormatNumberRange(value: real)
    requires value != 0.0
    ensures var r := FormatNumber(Some(value));
      r.Amount? && (r.scaled > 0.0 <==> value > 0.0) &&
      (r.suffix != "B" ==> Abs(r.scaled) < 1000.0) &&
      (r.suffix != "" ==> Abs(r.scaled) >= 1.0)
  {
    var r := FormatNumber(Some(value));
    var u := Unit(r.suffix);
    assert u >= 1.0;
    assert r.scaled * u == value;
    assert Abs(r.scaled) * u == Abs(value);
    if r.suffix == "M" {
      assert Abs(r.scaled) * 1000000.0 < 1000000000.0;
    } else if r.suffix == "K" {
      assert Abs(r.scaled) * 1000.0 < 1000000.0;
    }
  }

  /** A larger magnitude never gets a smaller unit. */
  lemma FormatNumberMonotone(a: real, b: real)
    requires a != 0.0 && Abs(a) <= Abs(b)
    ensures Unit(FormatNumber(Some(a)).suffix) <= Unit(FormatNumber(Some(b)).suffix)
  {
  }
}

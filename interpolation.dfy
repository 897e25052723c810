/**
 * `interpolate(method='time')` on the numeric columns of a price table:
 * a null between two values of its column takes the value on the line
 * through them at its timestamp, a null after the last value repeats it,
 * and a null before the first value stays null.
 */
module Interpolation {
  import opened Common
  import opened Series
  import opened Cleaning

  /** Cell c of a row; a row without that column reads as null. */
  function Cell(r: Row, c: nat): Option<real>
  {
    if c < |r.cells| then r.cells[c] else None
  }

  /** The last row before i whose column c holds a value. */
  function LastValidBefore(rows: seq<Row>, c: nat, i: nat): (r: Option<nat>)
    requires i <= |rows|
    ensures r.Some? ==> r.value < i && Cell(rows[r.value], c).Some?
    ensures r.Some? ==> forall j :: r.value < j < i ==> Cell(rows[j], c).None?
    ensures r.None? ==> forall j :: 0 <= j < i ==> Cell(rows[j], c).None?
  {
    if i == 0 then None
    else if Cell(rows[i - 1], c).Some? then Some(i - 1)
    else LastValidBefore(rows, c, i - 1)
  }

  /** The first row after i whose column c holds a value. */
  function FirstValidAfter(rows: seq<Row>, c: nat, i: nat): (r: Option<nat>)
    requires i < |rows|
    ensures r.Some? ==> i < r.value < |rows| && Cell(rows[r.value], c).Some?
    ensures r.Some? ==> forall j :: i < j < r.value ==> Cell(rows[j], c).None?
    ensures r.None? ==> forall j :: i < j < |rows| ==> Cell(rows[j], c).None?
    decreases |rows| - i
  {
    if i + 1 >= |rows| then None
    else if Cell(rows[i + 1], c).Some? then Some(i + 1)
    else FirstValidAfter(rows, c, i + 1)
  }

  /** The value on the line through (ta, va) and (tb, vb) at time t. */
  function Line(ta: int, va: real, tb: int, vb: real, t: int): real
    requires ta < tb
  {
    va + (vb - va) * ((t - ta) as real / (tb - ta) as real)
  }

  /** Cell c of row i after interpolation. */
  function InterpolatedCell(rows: seq<Row>, c: nat, i: nat): Option<real>
    requires i < |rows| && StrictlyIncreasing(rows)
  {
    IncreasingPairs(rows);
    if Cell(rows[i], c).Some? then Cell(rows[i], c)
    else match LastValidBefore(rows, c, i)
      case None => None
      case Some(a) =>
        match FirstValidAfter(rows, c, i)
        case None => Cell(rows[a], c)
        case Some(b) =>
          Some(Line(rows[a].time, Cell(rows[a], c).value, rows[b].time, Cell(rows[b], c).value, rows[i].time))
  }

  /** The whole table after interpolation: timestamps and widths are kept. */
  function Interpolate(rows: seq<Row>): (r: seq<Row>)
    requires StrictlyIncreasing(rows)
    ensures |r| == |rows|
    ensures forall i :: 0 <= i < |rows| ==> r[i].time == rows[i].time && |r[i].cells| == |rows[i].cells|
  {
    seq(|rows|, i requires 0 <= i < |rows| =>
      Row(rows[i].time, seq(|rows[i].cells|, c requires 0 <= c < |rows[i].cells| => InterpolatedCell(rows, c, i))))
  }

  /** The line between two points takes values between theirs at times between theirs. */
  lemma LineWithin(ta: int, va: real, tb: int, vb: real, t: int)
    requires ta <= t <= tb && ta < tb
    ensures Min2(va, vb) <= Line(ta, va, tb, vb, t) <= Max2(va, vb)
    ensures t == ta ==> Line(ta, va, tb, vb, t) == va
  {
    var f := (t - ta) as real / (tb - ta) as real;
    DivBounds((t - ta) as real, (tb - ta) as real, 0.0, 1.0);
    assert Line(ta, va, tb, vb, t) == f * vb + (1.0 - f) * va;
    ConvexWithin(f, vb, va, Min2(va, vb), Max2(va, vb));
  }

  /**
   * Interpolation keeps every value, leaves a cell null exactly when its
   * column holds no value at or above it, repeats the last value after
   * it, and puts every filled cell between its column's neighbouring
   * values.
   */
  lemma InterpolateSpec(rows: seq<Row>, i: nat, c: nat)
    requires StrictlyIncreasing(rows) && i < |rows| && c < |rows[i].cells|
    ensures var r := Interpolate(rows)[i].cells[c];
      (Cell(rows[i], c).Some? ==> r == Cell(rows[i], c)) &&
      (r.None? <==> forall j :: 0 <= j <= i ==> Cell(rows[j], c).None?) &&
      (Cell(rows[i], c).None? && LastValidBefore(rows, c, i).Some? && FirstValidAfter(rows, c, i).None? ==>
        r == Cell(rows[LastValidBefore(rows, c, i).value], c)) &&
      (Cell(rows[i], c).None? && LastValidBefore(rows, c, i).Some? && FirstValidAfter(rows, c, i).Some? ==>
        var va := Cell(rows[LastValidBefore(rows, c, i).value], c).value;
        var vb := Cell(rows[FirstValidAfter(rows, c, i).value], c).value;
        Min2(va, vb) <= r.value <= Max2(va, vb))
  {
    IncreasingPairs(rows);
    if Cell(rows[i], c).None? {
      match LastValidBefore(rows, c, i)
      case None =>
      case Some(a) =>
        match FirstValidAfter(rows, c, i)
        case None =>
        case Some(b) =>
          LineWithin(rows[a].time, Cell(rows[a], c).value, rows[b].time, Cell(rows[b], c).value, rows[i].time);
    }
  }
}

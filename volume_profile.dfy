/**
 * Volume profile: for every bar, a histogram of the typical prices in a
 * trailing window weighted by volume, over bins spanning the whole
 * high/low range; its point of control, value area, and the share of the
 * window's volume in the bin of the bar's close.
 */
module VolumeProfile {
  import opened Common
  import opened Series
  import opened Binning
  import Volume

  datatype ProfileColumns = ProfileColumns(poc: seq<real>, valueHigh: seq<real>, valueLow: seq<real>, density: seq<real>)

  /** The levels of one bar and its volume density. */
  datatype BarProfile = BarProfile(levels: Levels, density: real)

  /** `df[['high', 'low']].min().min()` and the matching maximum. */
  function PriceFloor(high: seq<real>, low: seq<real>): real
    requires |high| > 0 && |low| > 0
  {
    Min2(Min(high), Min(low))
  }

  function PriceCeiling(high: seq<real>, low: seq<real>): real
    requires |high| > 0 && |low| > 0
  {
    Max2(Max(high), Max(low))
  }

  /** The volume-weighted histogram of bar i's window of typical prices. */
  function BarHist(high: seq<real>, low: seq<real>, close: seq<real>, volume: seq<real>, bins: nat, i: nat): (h: seq<real>)
    requires |high| == |low| == |close| == |volume| && bins >= 1 && i < |close|
    requires PriceFloor(high, low) < PriceCeiling(high, low)
    ensures |h| == bins
  {
    var w := ProfileWindow(|close|);
    Hist(Trailing(Volume.TypicalPrices(high, low, close), w, i), Trailing(volume, w, i),
      PriceFloor(high, low), PriceCeiling(high, low), bins)
  }

  /** The bin's share of the total, or 0 when the total is not positive. */
  function Density(h: seq<real>, k: nat): real
    requires k < |h|
  {
    if Sum(h) > 0.0 then h[k] / Sum(h) else 0.0
  }

  /** The levels and density of bar i. */
  function BarProfileAt(high: seq<real>, low: seq<real>, close: seq<real>, volume: seq<real>, bins: nat, corrected: bool, i: nat): BarProfile
    requires |high| == |low| == |close| == |volume| && bins >= 1 && i < |close|
    requires PriceFloor(high, low) < PriceCeiling(high, low)
  {
    var lo, hi := PriceFloor(high, low), PriceCeiling(high, low);
    var h := BarHist(high, low, close, volume, bins, i);
    BarProfile(LevelsOf(h, lo, hi, bins, corrected), Density(h, DigitizeIndex(close[i], lo, hi, bins)))
  }

  /**
   * calculate_volume_profile. The four columns are checked in order. An
   * empty frame has a NaN range and gets empty columns; a flat high/low
   * range repeats close[0] with density 1; otherwise zero bins leave an
   * empty histogram whose argmax fails on the first bar.
   */
  method CalculateVolumeProfile(df: Frame, bins: nat) returns (r: Result<ProfileColumns>)
    requires Rectangular(df)
    ensures !HasBars(df) ==> CheckColumns(df.Keys, BarColumns).Some? && r == Err(CheckColumns(df.Keys, BarColumns).value)
    ensures HasBars(df) ==> var h, l := df["high"], df["low"];
      (r.Err? <==> |h| > 0 && PriceFloor(h, l) < PriceCeiling(h, l) && bins == 0) &&
      (r.Err? ==> r.error == EmptyReduction)
    ensures r.Ok? ==> HasBars(df) && var c := df["close"];
      |r.value.poc| == |r.value.valueHigh| == |r.value.valueLow| == |r.value.density| == |c|
    ensures r.Ok? ==> var h, l, c := df["high"], df["low"], df["close"];
      |c| > 0 && PriceFloor(h, l) == PriceCeiling(h, l) ==>
        forall i :: 0 <= i < |c| ==>
          r.value.poc[i] == r.value.valueHigh[i] == r.value.valueLow[i] == c[0] && r.value.density[i] == 1.0
    ensures r.Ok? ==> var h, l, c, v := df["high"], df["low"], df["close"], df["volume"];
      |c| > 0 && PriceFloor(h, l) < PriceCeiling(h, l) ==>
        forall i :: 0 <= i < |c| ==>
          BarProfile(Levels(r.value.poc[i], r.value.valueHigh[i], r.value.valueLow[i]), r.value.density[i])
            == BarProfileAt(h, l, c, v, bins, false, i)
  {
    var missing := CheckColumns(df.Keys, BarColumns);
    BarCheck(df);
    if missing.Some? {
      return Err(missing.value);
    }
    var h, l, c, v := df["high"], df["low"], df["close"], df["volume"];
    var n := |c|;
    if n == 0 {
      return Ok(ProfileColumns([], [], [], []));
    }
    var lo, hi := PriceFloor(h, l), PriceCeiling(h, l);
    if hi - lo == 0.0 {
      var flat := seq(n, _ => c[0]);
      return Ok(ProfileColumns(flat, flat, flat, seq(n, _ => 1.0)));
    }
    if bins == 0 {
      return Err(EmptyReduction);
    }
    ghost var spec := seq(n, k requires 0 <= k < n => BarProfileAt(h, l, c, v, bins, false, k));
    var poc, high, low, density := VolumeProfileLoop(h, l, c, v, bins, spec);
    r := Ok(ProfileColumns(poc, high, low, density));
  }

  /**
   * The per-bar loop appending to the four output lists; `spec` holds the
   * profile each bar is to get.
   */
  method VolumeProfileLoop(h: seq<real>, l: seq<real>, c: seq<real>, v: seq<real>, bins: nat, ghost spec: seq<BarProfile>)
    returns (pocs: seq<real>, highs: seq<real>, lows: seq<real>, densities: seq<real>)
    requires |h| == |l| == |c| == |v| > 0 && bins >= 1 && PriceFloor(h, l) < PriceCeiling(h, l)
    requires Profiles(h, l, c, v, bins, spec)
    ensures |pocs| == |highs| == |lows| == |densities| == |c|
    ensures forall k :: 0 <= k < |c| ==> BarProfile(Levels(pocs[k], highs[k], lows[k]), densities[k]) == spec[k]
  {
    var n := |c|;
    var windowSize := ProfileWindow(n);
    pocs, highs, lows, densities := [], [], [], [];
    var i := 0;
    while i < n
      invariant 0 <= i <= n
      invariant |pocs| == |highs| == |lows| == |densities| == i
      invariant forall k :: 0 <= k < i ==> BarProfile(Levels(pocs[k], highs[k], lows[k]), densities[k]) == spec[k]
    {
      var poc, valueHigh, valueLow, density := BarStep(h, l, c, v, bins, windowSize, i, spec);
      pocs, highs, lows, densities := pocs + [poc], highs + [valueHigh], lows + [valueLow], densities + [density];
      i := i + 1;
    }
  }

  /**
   * One iteration: slice the window, weigh its typical prices into bins,
   * read the levels, then the share of the volume in the close's bin.
   */
  method BarStep(h: seq<real>, l: seq<real>, c: seq<real>, v: seq<real>, bins: nat, windowSize: nat, i: nat, ghost spec: seq<BarProfile>)
    returns (poc: real, valueHigh: real, valueLow: real, density: real)
    requires |h| == |l| == |c| == |v| && bins >= 1 && i < |c| && PriceFloor(h, l) < PriceCeiling(h, l)
    requires windowSize == ProfileWindow(|c|)
    requires Profiles(h, l, c, v, bins, spec)
    ensures BarProfile(Levels(poc, valueHigh, valueLow), density) == spec[i]
  {
    var lo, hi := PriceFloor(h, l), PriceCeiling(h, l);
    var start := if i < windowSize then 0 else i - windowSize + 1;
    var tp := Volume.TypicalPrices(h[start..i + 1], l[start..i + 1], c[start..i + 1]);
    var volumes := v[start..i + 1];
    WindowRows(h, l, c, v, windowSize, i, start, tp);
    var profile := Hist(tp, volumes, lo, hi, bins);
    assert profile == BarHist(h, l, c, v, bins, i);
    poc, valueHigh, valueLow := ReadLevels(profile, lo, hi, bins);
    density := DensityStep(profile, c[i], lo, hi, bins);
    assert spec[i] == BarProfileAt(h, l, c, v, bins, false, i);
  }

  /** `spec` holds the profile of every bar. */
  ghost predicate Profiles(high: seq<real>, low: seq<real>, close: seq<real>, volume: seq<real>, bins: nat, spec: seq<BarProfile>)
    requires |high| == |low| == |close| == |volume| > 0 && bins >= 1
    requires PriceFloor(high, low) < PriceCeiling(high, low)
  {
    |spec| == |close| &&
    forall k {:trigger BarProfileAt(high, low, close, volume, bins, false, k)} :: 0 <= k < |close| ==>
      spec[k] == BarProfileAt(high, low, close, volume, bins, false, k)
  }

  /** `np.digitize(current_price, bin_edges) - 1`, clamped, and the bin's share of the total. */
  method DensityStep(profile: seq<real>, price: real, lo: real, hi: real, bins: nat) returns (density: real)
    requires bins >= 1 && |profile| == bins
    ensures density == Density(profile, DigitizeIndex(price, lo, hi, bins))
  {
    var total := Sum(profile);
    if total > 0.0 {
      var idx := EdgesAtMost(price, lo, hi, bins, bins + 1) as int - 1;
      idx := if idx < 0 then 0 else if idx > bins - 1 then bins - 1 else idx;
      density := profile[idx] / total;
    } else {
      density := 0.0;
    }
  }

  /** The typical prices of the window's rows are the window of the typical-price column. */
  lemma WindowRows(h: seq<real>, l: seq<real>, c: seq<real>, v: seq<real>, w: nat, i: nat, start: nat, tp: seq<real>)
    requires |h| == |l| == |c| == |v| && i < |c|
    requires start == (if i < w then 0 else i - w + 1)
    requires tp == Volume.TypicalPrices(h[start..i + 1], l[start..i + 1], c[start..i + 1])
    ensures tp == Trailing(Volume.TypicalPrices(h, l, c), w, i)
    ensures v[start..i + 1] == Trailing(v, w, i)
  {
  }

  // ---------------------------------------------------------------------
  // Properties

  /**
   * The histogram holds exactly the volume of the window's bars whose
   * typical price lies within the high/low range.
   */
  lemma BarTotal(high: seq<real>, low: seq<real>, close: seq<real>, volume: seq<real>, bins: nat, i: nat)
    requires |high| == |low| == |close| == |volume| && bins >= 1 && i < |close|
    requires PriceFloor(high, low) < PriceCeiling(high, low)
    ensures var w := ProfileWindow(|close|);
      Sum(BarHist(high, low, close, volume, bins, i)) ==
        InRangeWeight(Trailing(Volume.TypicalPrices(high, low, close), w, i), Trailing(volume, w, i),
          PriceFloor(high, low), PriceCeiling(high, low))
  {
    var w := ProfileWindow(|close|);
    HistTotal(Trailing(Volume.TypicalPrices(high, low, close), w, i), Trailing(volume, w, i),
      PriceFloor(high, low), PriceCeiling(high, low), bins);
  }

  /** With non-negative volumes every bin, and so every density, is non-negative and at most 1. */
  lemma DensityWithin(high: seq<real>, low: seq<real>, close: seq<real>, volume: seq<real>, bins: nat, i: nat)
    requires |high| == |low| == |close| == |volume| && bins >= 1 && i < |close|
    requires PriceFloor(high, low) < PriceCeiling(high, low)
    requires forall k :: 0 <= k < |volume| ==> volume[k] >= 0.0
    ensures 0.0 <= BarProfileAt(high, low, close, volume, bins, false, i).density <= 1.0
  {
    var h := BarHist(high, low, close, volume, bins, i);
    var w := ProfileWindow(|close|);
    HistNonNegative(Trailing(Volume.TypicalPrices(high, low, close), w, i), Trailing(volume, w, i),
      PriceFloor(high, low), PriceCeiling(high, low), bins);
    DensityBounds(h, DigitizeIndex(close[i], PriceFloor(high, low), PriceCeiling(high, low), bins));
  }

  lemma DensityBounds(h: seq<real>, k: nat)
    requires k < |h|
    requires forall m :: 0 <= m < |h| ==> h[m] >= 0.0
    ensures 0.0 <= Density(h, k) <= 1.0
  {
    if Sum(h) > 0.0 {
      EntryAtMostSum(h, k);
      DivBounds(h[k], Sum(h), 0.0, 1.0);
    }
  }

  /**
   * The density is read from the bin np.histogram counts the close in
   * when the close is inside the range, from the first bin below it and
   * from the last bin at or above its top; it is 0 when the window holds
   * no volume in range.
   */
  lemma DensityBin(high: seq<real>, low: seq<real>, close: seq<real>, volume: seq<real>, bins: nat, i: nat)
    requires |high| == |low| == |close| == |volume| && bins >= 1 && i < |close|
    requires PriceFloor(high, low) < PriceCeiling(high, low)
    ensures var lo, hi := PriceFloor(high, low), PriceCeiling(high, low);
      var h := BarHist(high, low, close, volume, bins, i);
      var d := BarProfileAt(high, low, close, volume, bins, false, i).density;
      (Sum(h) <= 0.0 ==> d == 0.0) &&
      (Sum(h) > 0.0 && close[i] < lo ==> d == h[0] / Sum(h)) &&
      (Sum(h) > 0.0 && close[i] >= hi ==> d == h[bins - 1] / Sum(h)) &&
      (Sum(h) > 0.0 && lo <= close[i] < hi ==>
        BinOf(close[i], lo, hi, bins).Some? && d == h[BinOf(close[i], lo, hi, bins).value] / Sum(h))
  {
    var lo, hi := PriceFloor(high, low), PriceCeiling(high, low);
    var h := BarHist(high, low, close, volume, bins, i);
    assert BarProfileAt(high, low, close, volume, bins, false, i).density == Density(h, DigitizeIndex(close[i], lo, hi, bins));
    DensityOfPrice(h, close[i], lo, hi, bins);
  }

  /** The density of a price's bin, by where the price lies against the range. */
  lemma DensityOfPrice(h: seq<real>, x: real, lo: real, hi: real, bins: nat)
    requires bins >= 1 && |h| == bins && lo < hi
    ensures var d := Density(h, DigitizeIndex(x, lo, hi, bins));
      (Sum(h) <= 0.0 ==> d == 0.0) &&
      (Sum(h) > 0.0 && x < lo ==> d == h[0] / Sum(h)) &&
      (Sum(h) > 0.0 && x >= hi ==> d == h[bins - 1] / Sum(h)) &&
      (Sum(h) > 0.0 && lo <= x < hi ==> BinOf(x, lo, hi, bins).Some? && d == h[BinOf(x, lo, hi, bins).value] / Sum(h))
  {
    DigitizeMatchesBin(x, lo, hi, bins);
  }

  /**
   * With non-negative volumes: the point of control is the centre of a
   * bin holding the most volume; the value-area low is the centre of the
   * lowest bin whenever the total is positive and that bin qualifies, and
   * otherwise both value-area ends are the point of control; all three
   * lie strictly inside the high/low range, low <= high.
   */
  lemma VolumeLevelsShape(high: seq<real>, low: seq<real>, close: seq<real>, volume: seq<real>, bins: nat, i: nat)
    requires |high| == |low| == |close| == |volume| && bins >= 1 && i < |close|
    requires PriceFloor(high, low) < PriceCeiling(high, low)
    requires forall k :: 0 <= k < |volume| ==> volume[k] >= 0.0
    ensures var lo, hi := PriceFloor(high, low), PriceCeiling(high, low);
      var h := BarHist(high, low, close, volume, bins, i);
      var l := BarProfileAt(high, low, close, volume, bins, false, i).levels;
      l.poc == Centre(lo, hi, bins, FirstMax(h)) &&
      (forall j :: 0 <= j < bins ==> h[j] <= h[FirstMax(h)]) &&
      lo < l.valueLow <= l.valueHigh < hi && lo < l.poc < hi &&
      (Sum(h) > 0.0 && Qualifies(h, 0) ==> l.valueLow == Centre(lo, hi, bins, 0)) &&
      (!(Sum(h) > 0.0 && Qualifies(h, 0)) ==> l.valueLow == l.poc == l.valueHigh)
  {
    var w := ProfileWindow(|close|);
    var h := BarHist(high, low, close, volume, bins, i);
    HistNonNegative(Trailing(Volume.TypicalPrices(high, low, close), w, i), Trailing(volume, w, i),
      PriceFloor(high, low), PriceCeiling(high, low), bins);
    LevelsShape(h, PriceFloor(high, low), PriceCeiling(high, low), bins);
  }
}

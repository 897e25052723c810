# Sistema de Análisis Financiero — a verified model of its indicators, cleaner and data provider

This project is a Dafny model of the computational core of the financial-analysis system:

- the technical-analysis indicators:
  - trend: SMA, EMA, WMA, HMA and their per-period series;
  - momentum: RSI, ADX with ±DI and DX, stochastic RSI;
  - volatility: true range, ATR, Bollinger bands;
  - volume: volume SMA and ratio, daily VWAP, MFI, accumulation/distribution;
  - price action: fractals, swing support and resistance, pivot points;
- the composite indicators: Ichimoku, MACD, SuperTrend and the volatility-adaptive moving average;
- the experimental indicators: Parabolic SAR, market profile, volume profile and the Wyckoff phase classifier;
- the `DataCleaner` of the data layer: price, fundamental and financial-statement cleaning, with its `CleaningMetadata`;
- the pure and decision-making parts of the Yahoo Finance `DataProvider`:
  - cache paths and cache freshness;
  - the cache/retry/back-off/fallback order of the three getters;
  - `clear_cache`'s file selection;
  - `format_number`;
  - `create_historical_tables`.

`src/data/data.py` and `src/data/raw/data_yahoo_finance.py` hold the same `DataProvider` code. Its lines in `data.py` sit four lines above those in the Yahoo file. It is modelled once, and the table below cites whichever file states a property more directly.

Conventions:

- Prices, volumes and every intermediate quantity are Dafny `real`: exact arithmetic, not IEEE doubles.
- An entry pandas holds as NaN is `Option<real>`'s `None`.
  - Quotients whose division by zero pandas stores as ±inf are the exception: the Wyckoff classifier's ratios and the volume ratio and `pct_change` columns. These keep IEEE's infinity or NaN as a `Series.Float`.
- A DataFrame is a map from column name to column. The price tables of the cleaner are rows with a timestamp and cells.
- Every exception the code raises (a missing column, a bad period, a `KeyError`, a `TypeError`, `ConnectionError`) is an `Err` of a `Result`. Preconditions ask only for what a DataFrame guarantees: columns of one length and one index label per row. The restrictions on inputs are listed under "## Left out": price and volume cells are never NaN, and periods are never negative.
- A DataFrame's index is a separate argument where the code depends on it: integer labels (the default RangeIndex is 0, 1, …, n - 1), dates, or other labels. VWAP needs dates. A column the code builds as a Series on the default index and stores with `df[name] = series` is aligned on the frame's labels (`Common.Aligned`): it is positional on the default RangeIndex and NaN throughout on a frame indexed by dates (see "## Findings").
- Where the source loops, the model loops. Each loop is a `method` whose `ensures` ties its result to a specification function, and the properties are lemmas about those functions:
  - the Wilder smoothing loops;
  - the fractal scan;
  - the Parabolic SAR and SuperTrend state machines;
  - the profile loops;
  - the Wyckoff loop;
  - the adaptive average;
  - the cleaner's dictionary loop and ratio checks;
  - the provider's retry loop and deletion loop;
  - the historical-table loops.
- The cleaner's metadata is a `class` whose fields the methods update.
- Network, filesystem and clock are parameters of the model:
  - the outcome of each download attempt;
  - the cache directory as found before and after the downloads;
  - a file's age;
  - which deletions fail.

  The seconds slept are returned as a list.
- The rolling standard deviation of the Bollinger bands is an input column. The z-score outlier test is compared in squared form, so no square root is needed.

The Wilder averages (RSI, ATR, MFI and ADX's inputs) are modelled exactly as the loops write them. The loop starts at `period + 1`, so row `period` keeps the plain rolling mean of rows 1..period. With a zero gain or range at bar 0, that value is the textbook Wilder seed. The row before it, `period - 1`, carries an extra early value. This is the code's behaviour, stated as such in `Smoothing.WilderAverage`, and not a defect.

## Model

| member | source | states |
|---|---|---|
| Smoothing.WilderAverage | src/analisis/technical/indicators/momentum.py:66-74 | the smoothed column has one value per row: the full-window rolling mean up to the seed row, then (previous·(p-1) + x[i]) / p on every later row |
| Smoothing.WilderWithin | src/analisis/technical/indicators/momentum.py:66-74 | every smoothed value lies in any range [lo, hi] that holds every defined input |
| Smoothing.WilderNonNegative | src/analisis/technical/indicators/momentum.py:66-74 | a column without negative entries smooths to no negative value |
| Smoothing.WilderDefined | src/analisis/technical/indicators/momentum.py:66-74 | an input that is NaN on exactly its first d rows gives an output that is NaN on exactly its first d + p - 1 rows |
| Smoothing.OscillatorShare | src/analisis/technical/indicators/momentum.py:77-78 | for non-negative averages 100 - 100/(1 + up/down) equals 100·up/(up + down): undefined exactly when both are 0, within [0, 100], below 100 whenever down is positive |
| Momentum.Gains | src/analisis/technical/indicators/momentum.py:58-61 | one gain per price |
| Momentum.Losses | src/analisis/technical/indicators/momentum.py:58-62 | one loss per price |
| Momentum.GainLossSplit | src/analisis/technical/indicators/momentum.py:58-62 | gains and losses are non-negative, never both positive, both 0 on row 0, and from row 1 their difference is the price change |
| Momentum.Rsi | src/analisis/technical/indicators/momentum.py:46-83 | the lower-cased column must exist (ValueError otherwise); the result is the RSI column of that price series |
| Momentum.RsiRange | src/analisis/technical/indicators/momentum.py:64-78 | both averages are defined exactly from row period-1 on; RSI is then defined unless both are 0, lies in [0, 100], and lies below 100 whenever the average loss is positive |
| Momentum.DirectionalMovement | src/analisis/technical/indicators/momentum.py:147-166 | the ±DM loop yields one +DM and one -DM per bar, each the up or down move when it is the larger one and positive, else 0 |
| Momentum.DirectionalMovementExclusive | src/analisis/technical/indicators/momentum.py:150-166 | ±DM are never negative, never both positive, and both 0 on bar 0 |
| Momentum.DirectionalIndexNonNegative | src/analisis/technical/indicators/momentum.py:187-188 | a DI is never negative when its DM average is not and the ATR is positive |
| Momentum.DirectionalSpreadRange | src/analisis/technical/indicators/momentum.py:191 | DX of non-negative DIs is defined exactly when their sum is positive and then lies in [0, 100] |
| Momentum.Adx | src/analisis/technical/indicators/momentum.py:122-207 | a missing high/low/close column is the first one reported; otherwise ADX, +DI and -DI as the three `df[...] =` assignments store them: the positional columns (±DI from the Wilder averages seeded at row period, ADX as DX's Wilder average seeded at row 2·period - 1) aligned on the frame's index, so NaN on every row of a frame indexed by dates |
| Momentum.DINonNegative | src/analisis/technical/indicators/momentum.py:174-188 | on bars with low <= high both positional DIs are never negative where defined |
| Momentum.AdxRange | src/analisis/technical/indicators/momentum.py:186-200 | on bars with low <= high the positional DIs are non-negative and DX and ADX lie in [0, 100] wherever defined |
| Momentum.StretchRange | src/analisis/technical/indicators/momentum.py:259-266 | the stretched RSI lies in [0, 100] and is the neutral 50 when the window's minimum equals its maximum |
| Momentum.StochKRange | src/analisis/technical/indicators/momentum.py:254-266 | %K is NaN before the first full window and lies in [0, 100] where defined |
| Momentum.StochK | src/analisis/technical/indicators/momentum.py:254-266 | the %K loop yields one value per row, the stretch of the current RSI over the last stoch_period values |
| Momentum.StochasticRsi | src/analisis/technical/indicators/momentum.py:245-279 | a missing close column, an empty %K window (nanmin raises) and a zero d_period are errors; otherwise %K per row, stored by position from a list, and %D, the min_periods=1 mean of the last d_period %K values, aligned on the frame's index, so NaN on every row of a frame indexed by dates |
| Momentum.StochDRange | src/analisis/technical/indicators/momentum.py:268-270 | the positional %D, a mean of %K values, lies in [0, 100] |
| Trend.SourceColumn | src/analisis/technical/indicators/trend.py:47-49 | the lower-cased column is used when present; otherwise ValueError naming the lower-cased column |
| Trend.Sma | src/analisis/technical/indicators/trend.py:44-58 | a missing column or a window of 0 is an error; otherwise the result is the column's `Series.RollingMean` (the mean of the last min(period, i+1) prices), which lies between their minimum and maximum |
| Trend.Alpha | src/analisis/technical/indicators/trend.py:97 | the EMA smoothing factor 2/(span + 1) lies in (0, 1] |
| Trend.EmaWithin | src/analisis/technical/indicators/trend.py:97 | the EMA at row i lies in any range holding every price up to row i |
| Trend.EmaBetweenPrefixMinMax | src/analisis/technical/indicators/trend.py:97 | the EMA at row i lies between the minimum and maximum of the prices up to row i |
| Trend.EmaConstant | src/analisis/technical/indicators/trend.py:97 | a constant column is its own EMA |
| Trend.Ema | src/analisis/technical/indicators/trend.py:85-99 | a missing column or a span of 0 is an error; otherwise the adjust=False EMA of the column, row by row |
| Trend.Triangle | src/analisis/technical/indicators/trend.py:105-107 | the weight sum 1 + … + n is at least 1 for n >= 1 |
| Trend.WeightedSumWithin | src/analisis/technical/indicators/trend.py:105-107 | the weighted sum of a window lies between the weight sum times any lower and upper bound of the window |
| Trend.WmaAt | src/analisis/technical/indicators/trend.py:106-109 | the weighted average at row i is defined exactly when the last period values are all defined |
| Trend.WmaWithin | src/analisis/technical/indicators/trend.py:105-109 | a weighted average lies in any range holding its window |
| Trend.WeightedMovingAverage | src/analisis/technical/indicators/trend.py:102-109 | a period below 1 raises; otherwise one value per row, defined exactly where the full window is |
| Trend.ISqrt | src/analisis/technical/indicators/trend.py:134 | int(sqrt(n)) is the integer square root: r² <= n < (r+1)² |
| Trend.HalfPeriod | src/analisis/technical/indicators/trend.py:133 | max(1, period // 2) lies in [1, period] |
| Trend.SqrtPeriod | src/analisis/technical/indicators/trend.py:134 | max(1, int(sqrt(period))) lies in [1, period] |
| Trend.HullRaw | src/analisis/technical/indicators/trend.py:136-138 | one raw Hull value per row |
| Trend.Hma | src/analisis/technical/indicators/trend.py:122-141 | the column check comes before the period check (period < 2 raises); otherwise row i is the ⌊√p⌋-weighted average `WmaAt` of the raw Hull column 2·WMA(p/2) − WMA(p), whose definedness and constants `HmaDefined` and `HmaConstant` give |
| Trend.HmaDefined | src/analisis/technical/indicators/trend.py:133-139 | the Hull average is defined exactly from row period + ⌊√period⌋ - 2 on |
| Trend.HmaConstant | src/analisis/technical/indicators/trend.py:136-139 | a constant column gives that constant wherever the Hull average is defined |
| Trend.PerPeriodKeys | src/analisis/technical/indicators/trend.py:166-168 | exactly one column `{prefix}_{p}` per distinct period |
| Trend.PerPeriodValues | src/analisis/technical/indicators/trend.py:166-168 | each `{prefix}_{p}` column is the single-period average for p |
| Trend.FirstZero | src/analisis/technical/indicators/trend.py:166-168 | the position of the first period of 0, the one at which pandas raises |
| Trend.MaSeries | src/analisis/technical/indicators/trend.py:160-199 | a missing column is an error, and so is a period of 0 anywhere in the list; otherwise exactly the `{prefix}_{p}` columns, each the SMA or EMA for p |
| Volatility.TrueRange | src/analisis/technical/indicators/volatility.py:65-74 | the tr_list loop yields one true range per bar: high - low on bar 0, the largest of the three distances afterwards |
| Volatility.TrueRangeSpan | src/analisis/technical/indicators/volatility.py:66-74 | on a bar with low <= high the true range is at least high - low >= 0, and from bar 1 it is max(high, previous close) - min(low, previous close) |
| Volatility.Atr | src/analisis/technical/indicators/volatility.py:48-91 | the first missing high/low/close column raises; otherwise the column `df[output_column] = atr` stores: the positional Wilder average of the true ranges aligned on the frame's index, hence that average on the default RangeIndex and NaN on every row of a frame indexed by dates |
| Volatility.AtrShape | src/analisis/technical/indicators/volatility.py:77-86 | the positional ATR (what a default RangeIndex frame receives) is NaN on exactly the first period - 1 rows and, on bars with low <= high, never negative |
| Volatility.DatedFrameLosesAtr | src/analisis/technical/indicators/volatility.py:77-89 | two bars indexed by date with period 1: the positional ATR is defined on both rows, but the stored column is NaN on both |
| Volatility.Bollinger | src/analisis/technical/indicators/volatility.py:136-172 | a missing column or a window of 0 raises; otherwise five columns of the input's length, the middle band being the min_periods=1 rolling mean |
| Volatility.BandsAround | src/analisis/technical/indicators/volatility.py:154-158 | the upper and lower bands sit std·std_dev above and below the middle band, so the width is 2·std·std_dev |
| Volatility.PercentBEnds | src/analisis/technical/indicators/volatility.py:162-163 | a defined %B is 0 exactly at the lower band and 1 exactly at the upper band |
| Volatility.BollingerShape | src/analisis/technical/indicators/volatility.py:148-170 | the bands are defined exactly where the standard deviation is, sit symmetrically around the middle band with width 2·std·std_dev, and %B is 0 at the lower and 1 at the upper band |
| Volume.TypicalPriceWithin | src/analisis/technical/indicators/volume.py:104 | a typical price lies inside its bar's range when the close does |
| Volume.VolumeIndicators | src/analisis/technical/indicators/volume.py:45-60 | ValueError exactly when there is no volume column; otherwise the 20-row min_periods=1 SMA, volume over SMA and pct_change, one per row, the last two in float arithmetic (NaN or ±inf after a zero divisor) |
| Volume.VolumeSmaBounds | src/analisis/technical/indicators/volume.py:52 | the volume SMA lies between the smallest and largest volume of its window |
| Volume.RatioInverse | src/analisis/technical/indicators/volume.py:55 | the ratio is finite exactly when the SMA is non-zero and then multiplies back into the volume; over a zero SMA it is NaN for a zero volume and +inf (-inf) for a positive (negative) one; a volume over itself is 1 |
| Volume.VolumeFirstRow | src/analisis/technical/indicators/volume.py:52-55 | on row 0 the SMA is the volume itself, so a non-zero first volume has ratio 1 |
| Volume.PercentChangeInverse | src/analisis/technical/indicators/volume.py:58 | the change is NaN on row 0, finite exactly from row 1 after a non-zero volume with v[i-1]·(1 + change) == v[i], and after a zero volume NaN for 0 → 0, +inf for a rise and -inf for a fall |
| Volume.Vwap | src/analisis/technical/indicators/volume.py:91-119 | a missing bar column raises first, then a non-datetime index; otherwise one value per row, the day's cumulative price·volume over the day's cumulative volume |
| Volume.DaySumOtherDays | src/analisis/technical/indicators/volume.py:110-111 | rows of other days contribute nothing to a day's cumulative sum |
| Volume.VwapFirstBar | src/analisis/technical/indicators/volume.py:110-111 | VWAP restarts each day: at the first row of a day with non-zero volume it is that row's typical price |
| Volume.DaySumWeighted | src/analisis/technical/indicators/volume.py:107-111 | with non-negative volumes the day's cumulative price·volume lies between lo and hi times the day's cumulative volume |
| Volume.VwapWithin | src/analisis/technical/indicators/volume.py:104-111 | with positive volumes VWAP is defined and lies between any bounds of the typical prices of the day's rows so far |
| Volume.FlowsExclusive | src/analisis/technical/indicators/volume.py:173-177 | a bar's flow goes to at most one side, to neither on row 0 or an unchanged price, and wholly to the side of the change otherwise |
| Volume.Mfi | src/analisis/technical/indicators/volume.py:154-200 | a missing bar column raises; otherwise one value per row, the oscillator of the two seed-then-Wilder flow averages |
| Volume.MfiRange | src/analisis/technical/indicators/volume.py:181-195 | with non-negative prices and volumes both averages are defined exactly from row period - 1 on, MFI lies in [0, 100], and lies below 100 whenever the negative average is positive |
| Volume.MultiplierRange | src/analisis/technical/indicators/volume.py:222-224 | a close inside the bar's range gives a multiplier in [-1, 1], and a zero range gives 0 |
| Volume.Ad | src/analisis/technical/indicators/volume.py:210-229 | a missing bar column raises; otherwise one A/D value per row |
| Volume.AdSteps | src/analisis/technical/indicators/volume.py:222-227 | the line starts at the first bar's money-flow volume and moves by each bar's money-flow volume |
| PriceAction.HighLowCheck | src/analisis/technical/indicators/price_action.py:50-53 | the column check finds nothing missing exactly when both high and low are present |
| PriceAction.Fractals | src/analisis/technical/indicators/price_action.py:59-82 | the nested loops mark bar i up (down) exactly when its low (high) is strictly below (above) every other one within period bars; bars without a full window stay unmarked |
| PriceAction.CalculateFractals | src/analisis/technical/indicators/price_action.py:47-88 | the first missing high/low column raises; otherwise one up and one down flag per bar, each the fractal predicate |
| PriceAction.FractalsSpaced | src/analisis/technical/indicators/price_action.py:63-82 | two up fractals, or two down fractals, are more than period bars apart |
| PriceAction.FewBarsNoFractals | src/analisis/technical/indicators/price_action.py:63 | a frame shorter than 2·period + 1 bars has no fractal at all |
| PriceAction.SwingHighIff | src/analisis/technical/indicators/price_action.py:104-105 | a swing high is a bar whose whole centred window fits in the frame and whose high is at least every high in it (ties count) |
| PriceAction.SwingLowIff | src/analisis/technical/indicators/price_action.py:104-106 | a swing low is a bar whose whole centred window fits in the frame and whose low is at most every low in it |
| PriceAction.LastMarked | src/analisis/technical/indicators/price_action.py:108-109 | the latest marked row at or before i, None exactly when no row up to i is marked |
| PriceAction.ForwardFill | src/analisis/technical/indicators/price_action.py:108-109 | each row holds the value of the latest marked row at or before it, NaN before the first |
| PriceAction.SupportResistance | src/analisis/technical/indicators/price_action.py:97-116 | the first missing high/low column raises, then a negative window; otherwise the swing flags and the forward-filled resistance and support |
| PriceAction.ResistanceIsSwingHigh | src/analisis/technical/indicators/price_action.py:105-108 | where defined, resistance at row i is the high of a swing-high bar k <= i and so at least every high within lookback bars of k |
| PriceAction.PivotPoints | src/analisis/technical/indicators/price_action.py:124-147 | the first missing high/low/close column raises; otherwise row 0 has no levels and every later row holds all five levels (pp, r1, s1, r2, s2) of the previous bar, related as `PivotLevels` states |
| PriceAction.PivotLevels | src/analisis/technical/indicators/price_action.py:135-139 | R1 - S1 is the previous bar's range and R2 - S2 twice that; a close inside the range orders S2 <= S1 <= PP <= R1 <= R2 |
| Ichimoku.Midpoint | src/analisis/technical/composite_indicators/ichimoku.py:79-81 | one midpoint per bar: the average of the min_periods=1 rolling maximum of the highs and minimum of the lows |
| Ichimoku.MaxSkipNaN | src/analisis/technical/composite_indicators/ichimoku.py:102 | the row maximum skips NaN: NaN only when both spans are, otherwise one of them and at least each defined one |
| Ichimoku.MinSkipNaN | src/analisis/technical/composite_indicators/ichimoku.py:103 | the row minimum skips NaN: NaN only when both spans are, otherwise one of them and at most each defined one |
| Ichimoku.CalculateIchimoku | src/analisis/technical/composite_indicators/ichimoku.py:66-114 | the first missing price column raises, then a window of 0; otherwise the seven columns: the three midpoints, spans A and B shifted forward, the close shifted back, and the cloud |
| Ichimoku.MidpointWithin | src/analisis/technical/composite_indicators/ichimoku.py:79-95 | on bars with low <= high a midpoint lies between the window's lowest low and highest high |
| Ichimoku.AverageBetween | src/analisis/technical/composite_indicators/ichimoku.py:89 | span A before the shift lies between the conversion and base lines on every bar |
| Ichimoku.LeadingSpan | src/analisis/technical/composite_indicators/ichimoku.py:89-90 | leading span A is undefined on exactly the first offset bars and elsewhere the average of the two lines offset bars earlier |
| Ichimoku.LaggingSpan | src/analisis/technical/composite_indicators/ichimoku.py:99 | the lagging span is the close offset bars later, undefined on exactly the last offset bars |
| Series.ShiftRoundTrip | src/analisis/technical/composite_indicators/ichimoku.py:90-99 | `shift(-k)` undoes `shift(k)` on every row whose value survives both shifts, and `shift(k)` undoes `shift(-k)`; the other rows are NaN |
| Ichimoku.CloudOrdered | src/analisis/technical/composite_indicators/ichimoku.py:102-103 | the cloud's top and bottom are defined together, the bottom is at most the top, and each is one of the two spans |
| Macd.CalculateMacd | src/analisis/technical/composite_indicators/macd.py:56-86 | a missing close raises first, then a span of 0; otherwise the line, the signal and the histogram, one value each per bar |
| Macd.FirstBarZero | src/analisis/technical/composite_indicators/macd.py:63-76 | every adjust=False average starts at its first input, so bar 0 has line, signal and histogram all 0 |
| Macd.ConstantCloseZero | src/analisis/technical/composite_indicators/macd.py:63-76 | a constant close gives a zero line, signal and histogram on every bar |
| Macd.HistogramFromPreviousSignal | src/analisis/technical/composite_indicators/macd.py:73-76 | after bar 0 the histogram is (1 - alpha) times the line's distance from the previous signal, so for a span above 1 it is positive exactly when the line is above the previous signal |
| Macd.EmaStep | src/analisis/technical/composite_indicators/macd.py:73 | each adjust=False EMA value is alpha·x[i] + (1 - alpha)·previous value |
| SuperTrend.BandsSymmetric | src/analisis/technical/composite_indicators/supertrend.py:66-68 | the bands sit multiplier·ATR above and below (high + low) / 2 |
| SuperTrend.DecideStep | src/analisis/technical/composite_indicators/supertrend.py:79-102 | the loop body for a bar i >= 1, with its writes and overwrites, yields exactly the bar's decision |
| SuperTrend.SuperTrendLoop | src/analisis/technical/composite_indicators/supertrend.py:71-102 | the loop fills one line value and one trend per bar, each the bar's decision given the previous line value |
| SuperTrend.CalculateSuperTrend | src/analisis/technical/composite_indicators/supertrend.py:54-111 | the first missing price column raises; otherwise the line and trend columns of the loop over bands built from the ATR column as calculate_atr stored it, aligned on the frame's index (the temporary ATR column is dropped) |
| SuperTrend.DecideShape | src/analisis/technical/composite_indicators/supertrend.py:79-102 | a decision is bearish (-1) or bullish (1), and its line is the upper band, the lower band or the close |
| SuperTrend.DecideSide | src/analisis/technical/composite_indicators/supertrend.py:91-102 | with ordered bands a bullish bar's line is at or below its close and a bearish bar's at or above it |
| SuperTrend.RunShape | src/analisis/technical/composite_indicators/supertrend.py:75-102 | every bar's trend is 1 or -1 and its line one of its bands or its close; bar 0 is bearish at the upper band |
| SuperTrend.RunSide | src/analisis/technical/composite_indicators/supertrend.py:79-102 | on every bar i >= 1 with defined, ordered bands the line sits on the side of the close the trend implies |
| SuperTrend.BandsOrdered | src/analisis/technical/composite_indicators/supertrend.py:67-68 | with a non-negative multiplier and ATR the lower band is never above the upper one |
| SuperTrend.LostAtrRun | src/analisis/technical/composite_indicators/supertrend.py:63-102 | with an ATR that is NaN on every row, as on a frame indexed by dates, both bands are NaN, the line is NaN on every bar and the trend is -1 on bar 0 and 1 on every later bar |
| AdaptiveMa.AtrRatio | src/analisis/technical/composite_indicators/adaptive_ma.py:58-66 | the ATR ratio lies in [0.5, 2.0]; an undefined or infinite quotient gives 1.0, an in-range quotient is kept, one below 0.5 becomes exactly 0.5 and one above 2 exactly 2.0 |
| AdaptiveMa.EffectivePeriod | src/analisis/technical/composite_indicators/adaptive_ma.py:71-72 | the effective period lies between the fast and slow periods, is slow_period / ratio when that lies between them, and is exactly the nearer bound when it lies outside |
| AdaptiveMa.SmoothingFactor | src/analisis/technical/composite_indicators/adaptive_ma.py:84 | the factor 2/(period + 1) lies in (0, 2], is at most 1 for a period of at least 1, and times (period + 1) gives 2 |
| AdaptiveMa.AdaptiveSeries | src/analisis/technical/composite_indicators/adaptive_ma.py:76-85 | the loop fills one value per bar: the close on bar 0, then alpha·close + (1 - alpha)·previous value |
| AdaptiveMa.CalculateAdaptiveMa | src/analisis/technical/composite_indicators/adaptive_ma.py:46-93 | the first missing price column raises, then a period of 0; otherwise the adaptive series over the factors derived from the ATR column as calculate_atr stored it, aligned on the frame's index |
| AdaptiveMa.AlphasInUnit | src/analisis/technical/composite_indicators/adaptive_ma.py:71-84 | with both periods at least 1 every smoothing factor lies in (0, 1] |
| AdaptiveMa.AdaptiveWithin | src/analisis/technical/composite_indicators/adaptive_ma.py:78-85 | with factors in [0, 1] the output stays inside any range holding every close so far |
| AdaptiveMa.AdaptiveBetweenPrefixMinMax | src/analisis/technical/composite_indicators/adaptive_ma.py:58-85 | for periods at least 1 the adaptive average lies between the smallest and largest close so far |
| AdaptiveMa.AdaptiveConstant | src/analisis/technical/composite_indicators/adaptive_ma.py:58-85 | a constant close is reproduced on every bar |
| AdaptiveMa.LostAtrSlowEma | src/analisis/technical/composite_indicators/adaptive_ma.py:55-85 | with an ATR that is NaN on every row, as on a frame indexed by dates, the ratio is filled with 1.0 and the adaptive average is exactly the adjust=False EMA of span slow_period |
| AdaptiveMa.LostAtrAlpha | src/analisis/technical/composite_indicators/adaptive_ma.py:62-83 | an undefined ATR gives the smoothing factor 2/(slow_period + 1), whatever fast_period is |
| AdaptiveMa.ConstantFactorEma | src/analisis/technical/composite_indicators/adaptive_ma.py:78-85 | with every factor equal to 2/(p + 1) the loop's recurrence is the adjust=False EMA of span p |
| ParabolicSar.SarStep | src/analisis/technical/experimental/parabolic_sar.py:37-73 | the loop body for bar i >= 1, as written, yields exactly the model's step from the previous bar's sar, trend, ep and af |
| ParabolicSar.SarLoop | src/analisis/technical/experimental/parabolic_sar.py:26-73 | the loop, as written, fills one SAR per bar, each the SAR of the state after that bar |
| ParabolicSar.CalculateParabolicSar | src/analisis/technical/experimental/parabolic_sar.py:17-76 | the first missing price column raises, then an empty frame (sar[0]); otherwise one SAR per bar |
| ParabolicSar.LongForever | src/analisis/technical/experimental/parabolic_sar.py:42-57 | as written the trend is 1 on every bar and from bar 1 the SAR is at or below both the previous and the current low, so the reversal never happens |
| ParabolicSar.ExtremeIsRunningMax | src/analisis/technical/experimental/parabolic_sar.py:33-50 | as written the extreme point is the highest high so far |
| ParabolicSar.AccelerationRule | src/analisis/technical/experimental/parabolic_sar.py:45-50 | as written af grows by the increment, capped at af_max, exactly on bars that make a new high, and stays put otherwise |
| ParabolicSar.AccelerationBounds | src/analisis/technical/experimental/parabolic_sar.py:34-50 | af never exceeds max(af_start, af_max); with a non-negative increment and af_start <= af_max it never decreases and stays in [af_start, af_max] |
| ParabolicSar.CrashExample | src/analisis/technical/experimental/parabolic_sar.py:42-57 | on highs 10, 10, 2 and lows 9, 9, 1 the code as written stays long with the stop at 1, while the corrected clamp reverses to short at the old extreme 10 |
| ParabolicSar.StepShape | src/analisis/technical/experimental/parabolic_sar.py:42-73 | each step keeps the trend at ±1 and the extreme point at or beyond the bar; without a reversal the stop stays on the trend's side of the bar; a reversal puts the stop at the old extreme point and resets af |
| ParabolicSar.CorrectedReverses | src/analisis/technical/experimental/parabolic_sar.py:42-73 | with the corrected clamp a bar reverses the trend exactly when its low (high) pierces the clamped stop |
| ParabolicSar.RunShape | src/analisis/technical/experimental/parabolic_sar.py:31-73 | on every bar, for either clamp, the trend is ±1 and the extreme point is at or beyond the bar |
| Binning.EdgesAndCentres | src/analisis/technical/experimental/market_profile.py:30-31 | the edges run from the minimum to the maximum in steps of (max - min)/bins, and each centre is its bin's midpoint |
| Binning.BinOf | src/analisis/technical/experimental/market_profile.py:40 | the np.histogram bin of a value: half-open [e_k, e_k+1) except the last, which also holds the maximum; values outside the range are not counted |
| Binning.Hist | src/analisis/technical/experimental/market_profile.py:40 | one weight total per bin |
| Binning.HistTotal | src/analisis/technical/experimental/volume_profile.py:46 | the histogram holds exactly the weight of the values inside the range |
| Binning.HistNonNegative | src/analisis/technical/experimental/volume_profile.py:46 | non-negative weights give non-negative bins |
| Binning.FirstMax | src/analisis/technical/experimental/market_profile.py:41 | np.argmax: the first index holding the largest entry |
| Binning.PrefixArea | src/analisis/technical/experimental/market_profile.py:44-55 | the value area as written: from the first to the last bin whose running total is within 70% of the whole |
| Binning.PrefixAreaStartsAtZero | src/analisis/technical/experimental/market_profile.py:47-52 | with non-negative bins the qualifying bins are a prefix: the value area as written always starts at bin 0 |
| Binning.CorrectedArea | src/analisis/technical/experimental/market_profile.py:44-55 | the conventional value area, grown from the point of control towards the larger neighbour, contains the point of control and holds at least 70% of the total or every bin; for non-negative bins it always holds at least 70% |
| Binning.PrefixAreaMissesPoc | src/analisis/technical/experimental/market_profile.py:41-52 | the histogram [1, 0, 9] has its point of control in bin 2, but the area as written is bins 0..1; the conventional area is bin 2 |
| Binning.CentreWithin | src/analisis/technical/experimental/market_profile.py:30-31 | every bin centre lies strictly between the minimum and the maximum, and centres increase with the bin |
| Binning.CorrectedLevelsShape | src/analisis/technical/experimental/market_profile.py:41-58 | with the conventional area and a positive total, the point of control lies between the value-area ends, whose bins hold at least 70% of the total |
| Binning.ReadLevels | src/analisis/technical/experimental/market_profile.py:41-58 | the loop body's argmax, total and mask read the same three levels as the model |
| Binning.LevelsShape | src/analisis/technical/experimental/market_profile.py:41-58 | the point of control is the centre of a fullest bin; the value-area low is the first centre exactly when the total is positive and bin 0 qualifies, else both ends are the point of control; low <= high, all inside (min, max) |
| Binning.DigitizeIndex | src/analisis/technical/experimental/volume_profile.py:65-66 | the clamped np.digitize index lies in [0, bins - 1] |
| Binning.DigitizeMatchesBin | src/analisis/technical/experimental/volume_profile.py:65-66 | the clamped digitize index is bin 0 below the minimum, the last bin at or above the maximum, and otherwise the bin np.histogram counts the price in |
| MarketProfile.Window | src/analisis/technical/experimental/market_profile.py:33-39 | bar i's window is the last min(i + 1, window_size) closes up to i |
| MarketProfile.WindowSlice | src/analisis/technical/experimental/market_profile.py:39 | the two slices of the source are that window |
| MarketProfile.CalculateMarketProfile | src/analisis/technical/experimental/market_profile.py:15-68 | a missing close raises; zero bins on a non-flat, non-empty close fail at argmax; a flat close repeats close[0]; otherwise one level triple per bar |
| MarketProfile.MarketProfileLoop | src/analisis/technical/experimental/market_profile.py:34-62 | the loop appends one level triple per bar, each that bar's levels |
| MarketProfile.BarLevels | src/analisis/technical/experimental/market_profile.py:39-58 | one iteration reads the levels of bar i |
| MarketProfile.MarketTotal | src/analisis/technical/experimental/market_profile.py:39-44 | every close of the window is counted: the histogram's total is the window's length |
| MarketProfile.MarketLevelsShape | src/analisis/technical/experimental/market_profile.py:40-58 | the point of control is the centre of a bin holding the most closes; the value-area low is the first centre exactly when bin 0 qualifies, else all three levels coincide; all lie strictly between min and max close |
| MarketProfile.CorrectedMarketLevels | src/analisis/technical/experimental/market_profile.py:40-58 | with the conventional value area the point of control lies between the value-area ends, strictly inside the close range |
| MarketProfile.CorrectedMarketCoverage | src/analisis/technical/experimental/market_profile.py:40-58 | the histogram of every bar totals the window's closes, and its conventional value area holds at least 70% of that total |
| VolumeProfile.BarHist | src/analisis/technical/experimental/volume_profile.py:43-46 | the volume-weighted histogram of bar i's window has one entry per bin |
| VolumeProfile.CalculateVolumeProfile | src/analisis/technical/experimental/volume_profile.py:15-83 | the first missing column raises; zero bins on a non-flat, non-empty range fail at argmax; a flat range repeats close[0] with density 1; otherwise one level triple and density per bar |
| VolumeProfile.VolumeProfileLoop | src/analisis/technical/experimental/volume_profile.py:37-76 | given the profile of every bar, the loop appends one level triple and density per bar, each equal to that bar's profile |
| VolumeProfile.BarStep | src/analisis/technical/experimental/volume_profile.py:43-71 | one iteration reads bar i's levels and density, equal to bar i's profile |
| VolumeProfile.DensityStep | src/analisis/technical/experimental/volume_profile.py:64-67 | the density is the share of the close's clamped digitize bin in the total |
| VolumeProfile.WindowRows | src/analisis/technical/experimental/volume_profile.py:43-45 | the window's typical prices and volumes are the trailing windows of the typical-price and volume columns |
| VolumeProfile.BarTotal | src/analisis/technical/experimental/volume_profile.py:43-51 | the histogram holds exactly the volume of the window's bars whose typical price lies in the high/low range |
| VolumeProfile.DensityWithin | src/analisis/technical/experimental/volume_profile.py:64-71 | with non-negative volumes every density lies in [0, 1] |
| VolumeProfile.DensityBin | src/analisis/technical/experimental/volume_profile.py:64-71 | the density is read from the bin np.histogram counts the close in (the first bin below the range, the last above it), and is 0 when the window holds no volume in range |
| VolumeProfile.DensityOfPrice | src/analisis/technical/experimental/volume_profile.py:64-67 | the same reading for any histogram and price: 0 without positive total, else the share of bin 0 below the range, of the last bin at or above its top, of the price's histogram bin inside it |
| VolumeProfile.VolumeLevelsShape | src/analisis/technical/experimental/volume_profile.py:46-71 | with non-negative volumes: the point of control is the centre of a bin holding the most volume; the value-area low is the first centre exactly when the total is positive and bin 0 qualifies, else all three coincide; all inside the range |
| Series.Div | src/analisis/technical/experimental/wyckoff.py:20-27 | IEEE division of finite values: finite exactly for a non-zero divisor (and then multiplies back), NaN for 0/0, ±inf otherwise |
| Wyckoff.IdentifyWyckoffPhases | src/analisis/technical/experimental/wyckoff.py:13-53 | the first missing column raises; otherwise one phase per bar from the rule chain |
| Wyckoff.PhaseConditions | src/analisis/technical/experimental/wyckoff.py:39-48 | Markup and Markdown need a move over 1% in their direction with volume ratio above 1.2 and volatility ratio below 1; Accumulation a move under 0.5% with volume ratio above 1.1 and volatility ratio below 0.9; Distribution never occurs |
| Wyckoff.TrendConditionsExclusive | src/analisis/technical/experimental/wyckoff.py:39-43 | no change is both above 1% and below -1%, and a change under 0.5% in size is neither |
| Wyckoff.NoDistribution | src/analisis/technical/experimental/wyckoff.py:29-48 | no bar is ever Distribution, and the first 20 bars are Unknown |
| Wyckoff.ConstantVolumeUnknown | src/analisis/technical/experimental/wyckoff.py:21-48 | a constant positive volume has ratio exactly 1, so every bar is Unknown |
| Common.CheckColumns | src/analisis/technical/indicators/volume.py:94-97 | no error exactly when every required column is present; otherwise the error names a required column that is missing |
| Common.FirstMissing | src/analisis/technical/indicators/volume.py:94-97 | the required columns are checked in order: every column before the reported one is present and the reported one is not |
| Common.PriceCheck | src/analisis/technical/indicators/volatility.py:51-54 | the column check passes exactly when the frame holds high, low and close |
| Common.BarCheck | src/analisis/technical/indicators/volume.py:94-97 | the column check passes exactly when the frame holds high, low, close and volume |
| Common.AlignedDefault | src/analisis/technical/indicators/volatility.py:77-89 | a Series built on the default index 0..n-1 and assigned to a frame with the default RangeIndex keeps every value in place |
| Common.AlignedLost | src/analisis/technical/indicators/volatility.py:77-89 | assigned to a frame indexed by dates, or by any labels that are not integers, such a Series leaves the column NaN on every row |
| Common.StripIdempotent | src/data/cleaning/data_cleaner.py:144 | `strip()` removes all leading and trailing whitespace in Python's sense (ASCII controls, NEL, no-break and Unicode spaces), so stripping a stripped name changes nothing |
| Common.LowerStripLeft | src/data/cleaning/data_cleaner.py:144 | lower-casing commutes with removing leading whitespace |
| Common.LowerStripRight | src/data/cleaning/data_cleaner.py:144 | lower-casing commutes with removing trailing whitespace |
| Common.NormalizeNameIdempotent | src/data/cleaning/data_cleaner.py:144 | `col.lower().strip()` applied to a normalised name gives it back |
| Common.NormalizeNoBreakSpace | src/data/cleaning/data_cleaner.py:144 | "CLOSE" followed by a no-break space normalises to "close", as `col.lower().strip()` does |
| Common.ParseNatToString | src/analisis/technical/indicators/trend.py:52-53 | the decimal rendering of a period reads back as that period |
| Common.ColumnNameInjective | src/analisis/technical/indicators/trend.py:52-53 | two periods give the same output column name under one prefix only when they are equal |
| Series.RollingMeanBounds | src/analisis/technical/indicators/trend.py:56 | every rolling mean lies between the minimum and the maximum of its window |
| Series.Clip | src/analisis/technical/composite_indicators/adaptive_ma.py:66 | the clipped value lies within the bounds, equals the input whenever the input already does, and is exactly the lower (upper) bound for an input below (above) it |
| Series.RollingMeanFull | src/analisis/technical/indicators/momentum.py:66-67 | `rolling(window, min_periods=window).mean()` at a row is defined exactly when a full window ends there and holds no NaN |
| Series.RollingMeanPresent | src/analisis/technical/indicators/momentum.py:270 | `rolling(window, min_periods=1).mean()` over a column with NaN is defined exactly when its window holds a value |
| Cleaning.NormalizeColumnsIdempotent | src/data/cleaning/data_cleaner.py:143-145 | normalising already normalised column names changes nothing |
| Cleaning.ColumnIndex | src/data/cleaning/data_cleaner.py:201 | no position exactly when the column is absent; otherwise the first position holding that name |
| Cleaning.IncreasingPairs | src/data/cleaning/data_cleaner.py:155-161 | adjacent timestamps increasing is the same as every earlier row having an earlier timestamp |
| Cleaning.Keep | src/data/cleaning/data_cleaner.py:161 | boolean-mask selection `df[~mask]`: the kept rows are the unflagged ones, in order, and their number is the row count minus the flagged count |
| Cleaning.KeptIncreasing | src/data/cleaning/data_cleaner.py:161 | the positions kept by a mask are strictly increasing, so row order is kept |
| Cleaning.KeptCovers | src/data/cleaning/data_cleaner.py:161 | every unflagged position is kept |
| Cleaning.KeepMembers | src/data/cleaning/data_cleaner.py:161 | every kept row is a row of the input |
| Cleaning.KeepIncreasing | src/data/cleaning/data_cleaner.py:161 | selecting rows of a table with strictly increasing timestamps leaves them strictly increasing |
| Cleaning.FirstOccurrence | src/data/cleaning/data_cleaner.py:161 | every timestamp has an unflagged row at or before any row carrying it |
| Cleaning.DeduplicateDistinct | src/data/cleaning/data_cleaner.py:161 | after de-duplication the timestamps are pairwise distinct |
| Cleaning.DeduplicateCovers | src/data/cleaning/data_cleaner.py:161 | every timestamp of the input is still present after de-duplication |
| Cleaning.DeduplicateKeepsFirst | src/data/cleaning/data_cleaner.py:161 | the row kept for a timestamp is its first occurrence |
| Cleaning.DeduplicateSorted | src/data/cleaning/data_cleaner.py:155-161 | sorting then dropping repeated timestamps gives strictly increasing timestamps |
| Cleaning.OhlcRule | src/data/cleaning/data_cleaner.py:351-360 | a row is invalid exactly when high is below open or close or low is above open or close (the close test repeats these); with all four prices present, exactly when open or close lies outside [low, high]; a NaN comparison never flags |
| Cleaning.OhlcMaskRow | src/data/cleaning/data_cleaner.py:345-362 | the mask is all false when open, high, low or close is missing, and otherwise flags row i by that row's own prices |
| Cleaning.NoInvalidLeft | src/data/cleaning/data_cleaner.py:168-175 | after the flagged rows are removed the mask flags no row |
| Cleaning.CellNullsZero | src/data/cleaning/data_cleaner.py:178 | a row's null count is zero exactly when every cell holds a value |
| Cleaning.DropNullsSpec | src/data/cleaning/data_cleaner.py:180-182 | after `dropna()` no null is left and the rows removed are exactly the rows that held one |
| Cleaning.ForwardFillSpec | src/data/cleaning/data_cleaner.py:184-185 | `ffill()`: values are kept, a null takes the filled value above it, and a cell stays null exactly when its column is null from the first row down to it |
| Cleaning.BackwardFillSpec | src/data/cleaning/data_cleaner.py:188-189 | `bfill()`: values are kept, a null takes the filled value below it, and a cell stays null exactly when its column is null from it down to the last row |
| Cleaning.ForwardFillStep | src/data/cleaning/data_cleaner.py:184-185 | a forward-filled cell is the row's own value, else the filled cell above it, else null on the first row |
| Cleaning.BackwardFillStep | src/data/cleaning/data_cleaner.py:188-189 | a backward-filled cell is the row's own value, else the filled cell below it, else null on the last row |
| Cleaning.AddPriceFeatures | src/data/cleaning/data_cleaner.py:379-399 | without a close column the columns are unchanged; with one, the input columns stay first and in order, returns, log_returns, price_change, pct_change and volatility_20 are all present, and no other name is added |
| Cleaning.CleaningMetadata.constructor | src/data/cleaning/data_cleaner.py:27-42 | every count is zero and the lists of removed columns, warnings and transformations are empty |
| Sorting.InsertMultiset | src/data/cleaning/data_cleaner.py:156 | insertion adds exactly the new element |
| Sorting.InsertSorted | src/data/cleaning/data_cleaner.py:156 | inserting into a sorted sequence keeps it sorted |
| Sorting.SortBy | src/data/cleaning/data_cleaner.py:156 | `sort_index()`: the result is a permutation of the rows |
| Sorting.SortBySorted | src/data/cleaning/data_cleaner.py:156 | the sorted rows are in non-decreasing key order |
| Sorting.SortSorted | src/data/cleaning/data_cleaner.py:156 | sorting rows that are already in order changes nothing |
| Interpolation.LastValidBefore | src/data/cleaning/data_cleaner.py:192-194 | the nearest earlier row holding a value in the column, with only nulls between; none when all earlier rows are null |
| Interpolation.FirstValidAfter | src/data/cleaning/data_cleaner.py:192-194 | the nearest later row holding a value in the column, with only nulls between; none when all later rows are null |
| Interpolation.LineWithin | src/data/cleaning/data_cleaner.py:192-194 | the time-weighted line between two values stays between them and starts at the first |
| Interpolation.InterpolateSpec | src/data/cleaning/data_cleaner.py:192-194 | `interpolate(method='time')`: values are kept; a cell stays null exactly when its column is null at and above it; after the last value the last value repeats; between two values the filled value lies between them |
| Outliers.SampleVariance | src/data/cleaning/data_cleaner.py:374 | `std()` squared: defined exactly for two or more values, never negative |
| Outliers.ZScoreForm | src/data/cleaning/data_cleaner.py:374-375 | the squared comparison used by the model is the z-score test `abs((x - mean)/std) > threshold` for a positive deviation |
| Outliers.MeanNotBeyond | src/data/cleaning/data_cleaner.py:374-375 | a value equal to the column mean is never an outlier for a non-negative threshold |
| Outliers.ConstantColumnNotBeyond | src/data/cleaning/data_cleaner.py:374-375 | in a column holding one constant value no row is an outlier |
| Outliers.ThresholdMonotone | src/data/cleaning/data_cleaner.py:374-375 | a value flagged at a threshold is flagged at every lower threshold |
| Outliers.OutlierMask | src/data/cleaning/data_cleaner.py:364-377 | one flag per row: the union of the open, high, low and close tests, a missing column contributing nothing |
| Fundamentals.CleanValue | src/data/cleaning/data_cleaner.py:255-264 | None and float NaN become None; an int or bool becomes its float; a float is kept; a string is stripped of Python's whitespace; a numpy or Decimal number and any other object are kept as they are |
| Fundamentals.CleanValueIdempotent | src/data/cleaning/data_cleaner.py:255-264 | cleaning a cleaned value changes nothing |
| Fundamentals.CleanedKeys | src/data/cleaning/data_cleaner.py:251-253 | the cleaned dictionary's keys are exactly the cleaned input keys |
| Fundamentals.CleanedLast | src/data/cleaning/data_cleaner.py:251-264 | each key holds the cleaned value of the last entry whose key cleans to it |
| Fundamentals.CleanedValues | src/data/cleaning/data_cleaner.py:255-264 | no cleaned value is a float NaN, an int or a bool |
| Fundamentals.KeysNormalized | src/data/cleaning/data_cleaner.py:253 | with normalisation on, every cleaned key is already lower-case and stripped |
| Fundamentals.NullEntries | src/data/cleaning/data_cleaner.py:256-258 | null_values_filled counts at most one per entry |
| Fundamentals.PositiveCheck | src/data/cleaning/data_cleaner.py:406-410 | a negative number (float, int, numpy or Decimal) gives exactly one warning naming it; a string or other object that is not a number raises TypeError; a missing, None or NaN value does nothing |
| Fundamentals.PercentageCheck | src/data/cleaning/data_cleaner.py:413-421 | a percentage field warns exactly when its value is above 1000; a string or other object that is not a number raises TypeError |
| Fundamentals.ChecksFailure | src/data/cleaning/data_cleaner.py:401-421 | a run of checks raises exactly when one of its fields holds a value that cannot be compared with a number (a string or an object that is not a number; numpy and Decimal numbers compare), and the error is TypeError |
| Fundamentals.RatioChecksFailure | src/data/cleaning/data_cleaner.py:401-421 | the ratio checks raise TypeError exactly when one of the eight fields holds a string or another object that is not a number |
| Fundamentals.ScalarCompared | src/data/cleaning/data_cleaner.py:406-421 | a numpy or Decimal number never makes a check raise; as a ratio it warns exactly when negative, as a percentage exactly when above 1000 |
| Fundamentals.PercentageWarnsIff | src/data/cleaning/data_cleaner.py:417-420 | scaling a decimal below 1 by 100 never makes it exceed 1000, so a percentage warns exactly when its raw value exceeds 1000 |
| Statements.NewestFirst | src/data/cleaning/data_cleaner.py:301-305 | the new column order is a permutation of the positions with the latest date first |
| Statements.PermutedPositions | src/data/cleaning/data_cleaner.py:305 | a permutation of 0..n-1 holds only positions below n and every one of them |
| Statements.RecencyOrder | src/data/cleaning/data_cleaner.py:305 | ordering positions by the recency key puts later dates first |
| Statements.OrderColumnsSpec | src/data/cleaning/data_cleaner.py:300-308 | columns that are not all dates keep their order; date columns come out newest first, all of them, each row's cells moved with their column |
| Statements.ZeroFill | src/data/cleaning/data_cleaner.py:315 | `fillna(0)`: values kept, every null becomes 0 |
| Statements.CleanStatementSpec | src/data/cleaning/data_cleaner.py:294-330 | the cleaned statement has a name per row, no null and no all-zero row; the rows removed are exactly the all-zero rows; with normalisation the names are stripped |
| Statements.NonZeroRowKept | src/data/cleaning/data_cleaner.py:326 | a row holding any non-zero value survives |
| Statements.FilledNulls | src/data/cleaning/data_cleaner.py:311-316 | after filling, no null is left |
| DataCleaning.SortedShape | src/data/cleaning/data_cleaner.py:155-156 | sorting keeps each row's width and leaves the timestamps non-decreasing |
| DataCleaning.FillKindOf | src/data/cleaning/data_cleaner.py:180-196 | "drop", "forward", "backward" and "interpolate" each select their fill and any other string selects none |
| DataCleaning.Record | src/data/cleaning/data_cleaner.py:222-223 | the report's counts and logs are written, the final shape is set and rows_removed is the original rows minus the final rows |
| DataCleaning.DataCleaner.Prepared | src/data/cleaning/data_cleaner.py:143-165 | steps 1-4 keep the columns, never add rows and leave strictly increasing timestamps |
| DataCleaning.DataCleaner.ValidStep | src/data/cleaning/data_cleaner.py:167-175 | OHLC validation keeps the table well shaped and its timestamps strictly increasing |
| DataCleaning.DataCleaner.Validated | src/data/cleaning/data_cleaner.py:143-175 | the validated table is well shaped with strictly increasing timestamps |
| DataCleaning.DataCleaner.OutlierFlags | src/data/cleaning/data_cleaner.py:204-211 | one flag per row, all false when outlier removal is off |
| DataCleaning.DataCleaner.CleanPriceData | src/data/cleaning/data_cleaner.py:121-227 | fresh metadata; the table is the step-by-step cleaned table; the columns gain the price features; original and final shapes, rows_removed and every count and log are recorded |
| DataCleaning.DataCleaner.RowsAccounted | src/data/cleaning/data_cleaner.py:159-223 | rows_removed equals the duplicates, the invalid OHLC rows, the rows dropped for nulls and the outliers added up |
| DataCleaning.DataCleaner.FilledLength | src/data/cleaning/data_cleaner.py:177-196 | filling keeps every row, except that "drop" removes exactly the rows holding a null |
| DataCleaning.DataCleaner.FillIncreasing | src/data/cleaning/data_cleaner.py:177-196 | every fill method keeps the timestamps strictly increasing |
| DataCleaning.DataCleaner.CleanedIncreasing | src/data/cleaning/data_cleaner.py:121-227 | the cleaned table is in strictly increasing time order whatever the settings |
| DataCleaning.DataCleaner.ValidatedConsistent | src/data/cleaning/data_cleaner.py:167-175 | with validation on, no row of the validated table breaks the OHLC rules |
| DataCleaning.DataCleaner.DropLeavesNoNulls | src/data/cleaning/data_cleaner.py:178-183 | with "drop" no null is left, null_values_removed counts the nulls that were there and null_values_filled stays 0 |
| DataCleaning.DataCleaner.ValidateFundamentalRatios | src/data/cleaning/data_cleaner.py:401-421 | the warnings appended are the ratio checks' warnings in field order, and the failure is theirs: TypeError exactly for a string or an object that is not a number, never for a numpy or Decimal number |
| DataCleaning.DataCleaner.CheckFields | src/data/cleaning/data_cleaner.py:407-421 | one loop of checks: each warning appended in order, stopping at the first field that raises |
| DataCleaning.ChecksStuck | src/data/cleaning/data_cleaner.py:407-421 | once a check raises, later fields add no warning and the error stays |
| DataCleaning.DataCleaner.CleanFundamentalData | src/data/cleaning/data_cleaner.py:229-274 | fresh metadata counting the null entries and holding the checks' warnings; TypeError from a check is returned with no transformation logged; otherwise the cleaned dictionary with both transformations logged |
| DataCleaning.DataCleaner.CleanEntries | src/data/cleaning/data_cleaner.py:251-264 | the loop builds exactly the cleaned dictionary and adds the null entries to null_values_filled |
| DataCleaning.DataCleaner.CleanFinancialStatement | src/data/cleaning/data_cleaner.py:276-336 | fresh metadata; the table is the cleaned statement; original and final shapes, rows_removed and the steps taken are recorded |
| DataCleaning.DataCleaner.StatementRowsAccounted | src/data/cleaning/data_cleaner.py:324-330 | the rows removed are exactly the all-zero rows of the filled statement, their removal is logged exactly when there are any, and no all-zero row is left |
| CacheFiles.FileAt | src/data/raw/data_yahoo_finance.py:67-68 | a file is found exactly when the directory has that name, and it is that entry |
| CacheFiles.Sanitize | src/data/raw/data_yahoo_finance.py:62 | same length; every ':' and '/' becomes '_' and every other character is kept, so no ':' or '/' is left |
| CacheFiles.SanitizeIdempotent | src/data/raw/data_yahoo_finance.py:62 | sanitising a sanitised symbol changes nothing |
| CacheFiles.SanitizeCollision | src/data/raw/data_yahoo_finance.py:62 | "BRK/B", "BRK:B" and "BRK_B" share one sanitised name, and so their cache files |
| CacheFiles.CacheFileName | src/data/raw/data_yahoo_finance.py:60-63 | the name is the sanitised symbol, '_', the data type and ".pkl" |
| CacheFiles.CacheFileNameInjective | src/data/data.py:56-59 | for symbols of one length, two calls name the same file exactly when the symbols sanitise alike and the data types are equal |
| CacheFiles.CacheFileNameAcrossLengths | src/data/data.py:56-59 | symbols of different lengths collide: symbol s_t with data type u and symbol s with data type t_u name the same file (the fundamentals of "X_statement" and the "fundamental" statement of "X", for one) |
| CacheFiles.FreshMonotone | src/data/raw/data_yahoo_finance.py:65-71 | a missing file is never fresh; a fresh file stays fresh for a longer time-to-live or a younger age |
| CacheFiles.ClearSelection | src/data/raw/data_yahoo_finance.py:350-354 | only listed files are selected: with a non-empty symbol exactly those starting with the sanitised symbol, otherwise exactly the ".pkl" files |
| CacheFiles.ClearSelectsCacheFiles | src/data/raw/data_yahoo_finance.py:343-361 | clearing a symbol, or everything, selects every cache file written for that symbol |
| CacheFiles.ClearPrefixOverreach | src/data/raw/data_yahoo_finance.py:350-352 | the selection is by prefix: clearing "AA" also selects AAPL's cache files |
| CacheFiles.ClearCache | src/data/raw/data_yahoo_finance.py:356-361 | the selected files split into the removed ones and those whose deletion failed, nothing else being touched |
| Fetching.FromCache | src/data/raw/data_yahoo_finance.py:115-126 | a cache value is served only when the cache is in use and the file exists and loads, and then it is that file's contents |
| Fetching.FirstSuccess | src/data/raw/data_yahoo_finance.py:129-160 | the first attempt in range whose download succeeded, every earlier one having failed; none when all failed |
| Fetching.Backoff | src/data/raw/data_yahoo_finance.py:155-158 | the waits after the failed attempts 1..n are 2, 4, ..., 2^n seconds |
| Fetching.StatementFetch | src/data/raw/data_yahoo_finance.py:287-316 | a served statement comes only from a fresh cache or from the single download |
| Fetching.DataProvider.Retrieve | src/data/raw/data_yahoo_finance.py:113-169 | the result is the fresh cache, else the usable stale cache, else the first successful attempt, else the usable fallback cache, else ConnectionError; the waits are one back-off per failed attempt before the last; a download is written to the cache exactly when the cache is in use |
| Fetching.DataProvider.GetPriceData | src/data/raw/data_yahoo_finance.py:93-169 | the shared fetch on the file `{symbol}_price_{period}_{interval}.pkl`, refusing empty frames |
| Fetching.DataProvider.GetFundamentalData | src/data/data.py:167-261 | the shared fetch on the file `{symbol}_fundamental.pkl`, accepting any loaded value |
| Fetching.DataProvider.GetFinancialStatements | src/data/raw/data_yahoo_finance.py:267-316 | the statement fetch on the file `{symbol}_statement_{statement_type}.pkl`, writing a download to the cache when it is in use |
| Fetching.FreshCacheFirst | src/data/raw/data_yahoo_finance.py:115-118 | a fresh file that loads is served as is, even empty, with no download and no wait |
| Fetching.CacheBeforeDownload | src/data/data.py:111-122 | once a cached value is served before the downloads, the network and the later cache state do not matter and nothing is slept |
| Fetching.DownloadedAttempt | src/data/raw/data_yahoo_finance.py:129-160 | a downloaded value comes from attempt a with 1 <= a <= max_retries, every earlier attempt failed, and a - 1 waits of 2, 4, ... seconds were slept |
| Fetching.EmptyDownloadFails | src/data/data.py:134-135 | an empty price frame is never the downloaded result |
| Fetching.ConnectionErrorIff | src/data/raw/data_yahoo_finance.py:163-169 | ConnectionError is raised exactly when no cache served, every attempt failed and the fallback found no usable cache; then max(max_retries - 1, 0) waits were slept; no other error escapes |
| Fetching.NoCacheIgnoresFiles | src/data/data.py:89-165 | without the cache neither cache state matters, nothing is written and any served value was downloaded |
| Fetching.StaleCacheAcceptance | src/data/raw/data_yahoo_finance.py:185-196 | the fundamental path serves any stale cache that loads, even an empty dict; the price path refuses an empty stale frame |
| Fetching.FallbackNeedsNewCache | src/data/data.py:159-165 | when the cache file did not change during the retries, the fallback never serves |
| Fetching.StatementDecisions | src/data/data.py:263-312 | unless a fresh cache file loads, an unknown statement type raises ValueError whatever the network does; a stale cache is never served; an empty download raises |
| NumberFormat.FormatNumber | src/data/raw/data_yahoo_finance.py:365-384 | 'N/A' exactly for NaN and zero; otherwise the scaled amount times its unit is the value, and the suffix is B, M, K or none by the magnitude thresholds 1e9, 1e6, 1e3 |
| NumberFormat.FormatNumberRange | src/data/raw/data_yahoo_finance.py:365-384 | the scaled amount keeps the value's sign, is below 1000 in absolute value except with B, and at least 1 with a suffix |
| NumberFormat.FormatNumberMonotone | src/data/raw/data_yahoo_finance.py:365-384 | a larger magnitude never gets a smaller unit |
| HistoricalTables.Lookup | src/data/raw/data_yahoo_finance.py:547 | `.loc[key, year]` raises KeyError exactly when the line or the year is missing, naming the year when only it is missing |
| HistoricalTables.Years | src/data/raw/data_yahoo_finance.py:529-530 | `columns[:min(max_years, n)]` is a prefix of the columns; its length is min(max_years, n), or n + max_years floored at 0 for a negative max_years |
| HistoricalTables.Put | src/data/raw/data_yahoo_finance.py:629-634 | `d[key] = value`: an existing key keeps its place and gets the value, a new key goes at the end, every other entry keeps its key and value, and a lookup of any other key is unchanged |
| HistoricalTables.Get | src/data/raw/data_yahoo_finance.py:629-634 | `d.get(key)`: none exactly when no entry has the key, else a value stored under it |
| HistoricalTables.LastWithLabel | src/data/raw/data_yahoo_finance.py:610-614 | the last year carrying the label, none exactly when no year carries it |
| HistoricalTables.RatioOf | src/data/raw/data_yahoo_finance.py:624-627 | a ratio is computed exactly when numerator and denominator are truthy, and a computed number times the denominator is the numerator times the scale |
| HistoricalTables.GetOperand | src/data/raw/data_yahoo_finance.py:617-621 | an operand is missing exactly when the line is absent from the statement |
| HistoricalTables.PresentMetrics | src/data/raw/data_yahoo_finance.py:542-545 | a metric is shown exactly when it is listed and its label is in the statement |
| HistoricalTables.LineValuesSpec | src/data/raw/data_yahoo_finance.py:546-550 | a line's values raise KeyError exactly when a year is missing from the statement, and are otherwise format_number of each year's cell |
| HistoricalTables.MetricRowsSpec | src/data/raw/data_yahoo_finance.py:542-552 | one row per present metric, in order, holding its values; KeyError exactly when there is such a row and a year is missing |
| HistoricalTables.FcfValuesSpec | src/data/raw/data_yahoo_finance.py:594-605 | with both lines present, KeyError exactly when a year is missing, and otherwise each year's free cash flow of its cells |
| HistoricalTables.FreeCashFlowSpec | src/data/raw/data_yahoo_finance.py:598-603 | free cash flow is 'N/A' exactly when a cell is NaN or operating cash flow equals abs(capex); otherwise it is operating cash flow minus abs(capex), never above operating cash flow |
| HistoricalTables.YearRatiosGuards | src/data/raw/data_yahoo_finance.py:622-634 | a missing or zero net income leaves margin, ROA and ROE uncomputed; a NaN net income with a truthy revenue gives a NaN margin; debt to equity is uncomputed without debt or equity |
| HistoricalTables.YearRatiosOk | src/data/raw/data_yahoo_finance.py:610-621 | a year's lookups succeed when the year is an income column and, where a balance line is present, a balance column |
| HistoricalTables.RatiosFromSpec | src/data/raw/data_yahoo_finance.py:610-637 | the ratios loop never raises once the lookups succeed; earlier keys keep their places, every year's label becomes a key, there are at most as many entries as years, and each label holds the ratios of the last year with that label (other labels keep their earlier entry) |
| HistoricalTables.RatiosShape | src/data/raw/data_yahoo_finance.py:610-637 | with every lookup succeeding, the ratios from an empty start have an entry exactly when there is a year, at most one per year, every year's label among the keys, holding the ratios of the last year with that label |
| HistoricalTables.HistoricalErrors | src/data/raw/data_yahoo_finance.py:508-639 | KeyError on one of the years exactly when the balance sheet or the cash-flow statement has a shown line but lacks one of the income statement's first years |
| HistoricalTables.ErrorsAreYears | src/data/raw/data_yahoo_finance.py:542-552 | a history table's error is always a KeyError on one of the years |
| HistoricalTables.TablesShape | src/data/raw/data_yahoo_finance.py:508-639 | the tables are labelled by the year labels, and the ratios table is there exactly when there is a year, keyed by every label with at most one entry per year |
| HistoricalTables.TablesRatios | src/data/raw/data_yahoo_finance.py:610-637 | in the built ratios table every year's label holds the ratios of the last of the years with that label |
| HistoricalTables.LineHistory | src/data/raw/data_yahoo_finance.py:546-550 | the loop over the years computes exactly the line's values |
| HistoricalTables.MetricHistory | src/data/raw/data_yahoo_finance.py:542-552 | the loop over the metrics computes exactly the table's rows |
| HistoricalTables.FcfHistory | src/data/raw/data_yahoo_finance.py:594-605 | the free-cash-flow loop computes exactly its row |
| HistoricalTables.RatiosHistory | src/data/raw/data_yahoo_finance.py:610-637 | the ratios loop computes exactly the ratios dict |
| HistoricalTables.CreateHistoricalTables | src/data/raw/data_yahoo_finance.py:508-639 | the whole function computes exactly the tables, or the KeyError |

## Left out

- Network, filesystem, clock and logging are not modelled. This covers yfinance, pickle loading and saving, `mkdir`, `stat`, `glob`, `unlink`, `time.sleep`, the logger and the request timeout. The model receives their outcomes as parameters (see above).
- Cache-write failures, which `_save_to_cache` only logs, are not modelled.
- The default cache directory is not modelled.
- `clear_cache` selection does not treat glob metacharacters (`*`, `?`, `[`) inside a symbol as wildcards. The model reads the pattern literally.
- The column renaming of a downloaded price frame (`col.capitalize()`) is not modelled. The downloaded frame is an opaque payload with a size.
- The extraction of the fundamental fields from the `info` dict is not modelled for the same reason.
- `get_all_data` and the module-level `get_data` only chain the three getters and are not modelled.
- `create_fundamental_tables` is rendering only and is not modelled.
- The `.2f` / `%` rendering of ratios and the `$…` rendering of `format_number` are not modelled. The model keeps the number that would be rendered, or 'N/A'.
- `HistoricalTables.Lookup`: with a repeated line label, `.loc` returns several cells; the model takes the first.
- `CleaningMetadata.to_dict` and `summary` are report formatting and are not modelled.
- The logged symbol and `statement_type` passed to the cleaner are not modelled.
- `pd.to_datetime`, timezone stripping and `pd.to_numeric` are not modelled. Timestamps are integers already, and cells are numbers or null.
- `DataCleaning.DataCleaner.CleanPriceData`: the values of the derived columns (returns, log returns, price change, percentage change, 20-bar volatility) are not modelled. Only the column names that appear are. Logarithm and square root are outside exact real arithmetic.
- Duplicate column names after normalisation are not modelled. The model looks up the first column of a name.
- `Sorting.SortBy`: the model sorts stably. pandas' default quicksort may order rows with equal timestamps differently. De-duplication keeps the first row of each timestamp in the order the sort produced, so with unstable ties the kept row may differ.
- `Fundamentals.CleanedEntries`: a DataFrame passed to `clean_fundamental_data` is not modelled. The input is the dictionary's items in order, and keys are already strings (`str(key)` is the identity).
- `Outliers.OutlierMask` compares squared quantities instead of taking `std()`'s square root. `Outliers.ZScoreForm` proves the two agree for every positive deviation.
- `Volatility.Bollinger` takes the rolling standard deviation as an input column and does not compute it.
- Integer periods the source does not validate are `nat`. A negative period, window, offset or bin count is outside the model. This covers the indicator periods, the Ichimoku offset, the fractal period, the adaptive-average periods and the profile bin counts. pandas' own rejection of a zero window is modelled as `InvalidWindow`. `PriceAction.SupportResistance` takes its lookback as an `int` and models the negative case.
- `Momentum.StochasticRsi` accepts `k_period` and, as in the source, never uses it.
- The temporary columns the source adds and then drops (EMA columns in MACD, `ATR_temp`, `RSI_temp`, the VWAP `date` column, the Wyckoff helpers) are not modelled as frame edits. Each model returns only the output columns.
- The constant 0.70 of the value area is the exact real 7/10, not the nearest double.
- VWAP receives the calendar day of each row, not the timestamp. Extracting the date from a timestamp is not modelled.
- Input price and volume cells are never NaN: a `Frame` column is a sequence of reals. The indicators' treatment of NaN in their inputs is therefore not modelled. This covers rolling windows with `min_periods`, `max` and `min` skipping NaN, and comparisons with NaN. NaN is modelled where the computation itself produces it: warm-up rows, shifts, divisions by zero and index alignment. The cleaner's tables do hold nulls.
- Common.Lower: `str.lower()` is modelled for the upper-case letters of ASCII and Latin-1 only. Other scripts (Greek, Cyrillic, …) and the lowerings that produce two characters are kept as they are. This affects `Common.NormalizeName`, `Cleaning.NormalizeColumns`, `Fundamentals.CleanKey` and every indicator's column lookup through `Common.Lower`. `str.strip()` is modelled over Python's whole whitespace set.
- Fundamentals.Numeric: a NaN held as a numpy number compares false, as modelled. A `Decimal` NaN raises `InvalidOperation` when ordered, and the model does not distinguish it from a numpy NaN.
- `Common.Aligned` models an index without repeated integer labels. Frames whose integer labels repeat are not modelled.

## Findings

| source | as written | input that shows it | evidently intended | confidence | as-written member | corrected member |
|---|---|---|---|---|---|---|
| src/analisis/technical/experimental/parabolic_sar.py:44 | In an uptrend the stop is clamped to `min(sar, low[i-1], low[i])`. That includes the current bar's low, so the reversal test `low[i] < sar[i]` on line 51 can never succeed. The indicator stays long for ever and the downtrend branch is dead. | highs 10, 10, 2 and lows 9, 9, 1 with af 0.02/0.02/0.2: as written bar 2 stays long with the stop at 1 | Wilder's clamp to the two previous bars' lows (`low[i-1]`, `low[i-2]`; highs in a downtrend), so that a bar piercing the stop reverses the trend to short at the old extreme point | not executed | ParabolicSar.LongForever, ParabolicSar.CrashExample | ParabolicSar.CorrectedReverses |
| src/analisis/technical/experimental/market_profile.py:47-52 | The value area is the set of bins whose running total from the lowest bin is at most 70% of the total. With non-negative counts that set is a prefix of the bins, so the area always starts at the lowest bin and may leave out the point of control. The same code is at volume_profile.py:51-62. | bin counts [1, 0, 9]: the point of control is bin 2, but the area as written is bins 0..1 | the conventional value area: grow from the point of control towards the larger neighbour until at least 70% of the total is covered | not executed | Binning.PrefixAreaMissesPoc, Binning.PrefixAreaStartsAtZero | Binning.CorrectedArea, MarketProfile.CorrectedMarketLevels, MarketProfile.CorrectedMarketCoverage |
| src/analisis/technical/indicators/volatility.py:77-89 | The ATR is built on `pd.Series(tr_list)`, whose index is 0..n-1, and stored with `df[output_column] = atr`, which aligns on the frame's labels. On a frame indexed by dates no label matches, so the ATR column is NaN on every row. Such frames are what the cleaner and yfinance produce, and VWAP requires one. calculate_supertrend (supertrend.py:63) and calculate_adaptive_ma (adaptive_ma.py:55) read that column back. SuperTrend's line is then NaN throughout with trend -1, 1, 1, …. The adaptive average becomes the plain EMA of span slow_period. | highs 2, 3, lows 1, 1, closes 1.5, 2 on two dated rows with period 1: the positional ATR is defined on both rows, the stored column is NaN on both | the positional average: `atr.values`, or the Series built on `df.index` | not executed | Volatility.Atr, Common.AlignedLost, Volatility.DatedFrameLosesAtr, SuperTrend.LostAtrRun, AdaptiveMa.LostAtrSlowEma | Common.AlignedDefault, Volatility.AtrShape, SuperTrend.RunSide, AdaptiveMa.AdaptiveWithin |
| src/analisis/technical/indicators/momentum.py:169-205 | The true range and ±DM are Series built from lists, with index 0..n-1. The Wilder averages, the DIs, DX and ADX inherit that index. The three `df[...] =` assignments at lines 203-205 align it on the frame's labels. On a frame indexed by dates, ADX, +DI and -DI are NaN on every row. | any frame indexed by dates, for example the two rows above | the positional columns | not executed | Momentum.Adx, Common.AlignedLost | Common.AlignedDefault, Momentum.AdxRange, Momentum.DINonNegative |
| src/analisis/technical/indicators/momentum.py:269-274 | %D is the rolling mean of `pd.Series(stoch_k)`, whose index is 0..n-1, and is stored with `df[...] = stoch_d`, which aligns on the frame's labels. %K is stored from a list, by position. On a frame indexed by dates, %K is filled and %D is NaN on every row. | any frame indexed by dates with a defined %K | the positional %D | not executed | Momentum.StochasticRsi, Common.AlignedLost | Common.AlignedDefault, Momentum.StochDRange |

`ParabolicSar.CalculateParabolicSar`, `MarketProfile.CalculateMarketProfile` and `VolumeProfile.CalculateVolumeProfile` follow the code as written. The corrected definitions sit beside them, selected by the `corrected` argument of `ParabolicSar.Run` and of `Binning.ValueArea`, and the intended properties are proved about them. The index-alignment rows are modelled the same way. `Volatility.Atr`, `Momentum.Adx`, `Momentum.StochasticRsi`, `SuperTrend.CalculateSuperTrend` and `AdaptiveMa.CalculateAdaptiveMa` take the frame's index and store their columns as the code does. The positional columns, which those methods give on the default RangeIndex, are the corrected definitions that every property lemma is about.

The `Distribution` branch of the Wyckoff classifier (wyckoff.py:43-44) repeats the `Accumulation` condition. It can never be taken, as `Wyckoff.NoDistribution` proves. The code does not show which condition was intended, so no corrected rule is modelled and the classifier follows the code.

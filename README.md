# CoinRanking enrichment, modelled in Dafny

`CoinRanking_Script.py` downloads a 30-day price history for one coin as a list of
`(timestamp, price)` observations and loads it into a pandas dataframe. It then adds
derived columns one at a time:
- `Date` and `dayOfWeek`, from the millisecond timestamp cut down to seconds;
- the rounded `Price` and the previous row's price (`Direction_temp1`);
- `Direction`, `Change`, `highSinceStart` and `lowSinceStart`;
- the day key `Date_temp1`;
- `dailyAverage` and `dailyVariance`, computed per day and mapped back onto every row of that day;
- a global `volatilityAlert`.

Finally it keeps the first row of each day and writes two column projections, schema 1 and schema 2.

This project models that pipeline as pure functions over sequences of rows:

| module | file | content |
|---|---|---|
| `Wrappers` | `wrappers.dfy` | `Option` and `Result` |
| `Timestamps` | `timestamps.dfy` | `int(str(ts)[:-3])`, written out on decimal strings; `date_func` and `day_of_week_func` |
| `RowEnricher` | `row_enricher.dfy` | `shift(1)`, `direction_func`, `change_func`, `high_since_start`, `low_since_start`, and the Direction and Change columns |
| `DailyAggregator` | `daily_aggregator.dfy` | the `Date_temp1` key; the mean and the sample variance; the grouping; `avg_dict` and `vari_dict`, and their broadcast back onto the rows |
| `Volatility` | `volatility.dfy` | the threshold `mean + 2*sd` and `volatility_alert_func` |
| `Frame` | `frame.dfy` | the observation and the enriched row |
| `SchemaProjector` | `schema_projector.dfy` | `drop_duplicates(subset='Date_temp1', keep="first")`, `df_schema1` and `df_schema2` |
| `CoinRanking` | `coin_ranking.dfy` | the whole script (`Enrich`, then `Run`) and the theorems about its output |

What the script takes from its environment is passed in as a `Runtime` value:
- `clock`: local-time formatting of seconds, with `'%Y-%m-%d T%H:%M:%S'` and `'%A'`;
- `round2`: the built-in `round(x, 2)` (lines 37, 130 and 139);
- `roundSeries`: pandas' `round(Series, 2)` applied to the daily means (line 116), which rounds halves to even;
- `stdev`: `statistics.stdev`, which needs a square root.

Prices are exact `real` numbers.

For integer timestamps and real prices, every exception the script can raise in this part is an explicit `Error`:
- An empty history gives a dataframe without a `timestamp` column (KeyError).
- A timestamp with fewer than four digits makes `int('')` or `int('-')` fail (ValueError). The error reports the first such timestamp, the one `apply` stops at.
- A day with a single row makes `statistics.variance` fail.
- `statistics.stdev` on fewer than two prices would also fail, but `EnrichGuards` proves this error is never reached: a run that gets that far has already seen at least two rows on some day.

## Model

| member | source | states |
|---|---|---|
| Timestamps.Digits | CoinRanking_Script.py:27 | the decimal text of a number is non-empty and all digits |
| Timestamps.DropLastThree | CoinRanking_Script.py:27 | `s[:-3]` is a prefix of `s`, three characters shorter, or empty for three characters or fewer |
| Timestamps.DigitsRoundTrip | CoinRanking_Script.py:27 | parsing the printed digits of `n` gives back `n` |
| Timestamps.DigitsShort | CoinRanking_Script.py:27 | a number under 1000 prints with at most three digits |
| Timestamps.DigitsDropThree | CoinRanking_Script.py:27 | removing the last three printed digits of `n >= 1000` prints `n div 1000` |
| Timestamps.TruncatePositive | CoinRanking_Script.py:27 | for `ts >= 1000` the truncation gives `ts div 1000` |
| Timestamps.TruncateNegative | CoinRanking_Script.py:27 | for `ts <= -1000` the truncation keeps the sign and rounds toward zero |
| Timestamps.TruncateShort | CoinRanking_Script.py:27 | for `-1000 < ts < 1000` the slice leaves "" or "-", which `int` rejects |
| Timestamps.TruncateTimestamp | CoinRanking_Script.py:27 | `int(str(ts)[:-3])` is `ts div 1000` for `ts >= 1000`, `-((-ts) div 1000)` for `ts <= -1000`, and fails for every timestamp of fewer than four digits |
| Timestamps.TruncateTimestampValue | CoinRanking_Script.py:27 | the complete value of `int(str(ts)[:-3])` for every integer: seconds rounded toward zero, or failure under four digits |
| Timestamps.DateFunc | CoinRanking_Script.py:26-29 | `date_func` succeeds exactly when the truncation does, and formats the truncated seconds |
| Timestamps.DayOfWeekFunc | CoinRanking_Script.py:67-70 | `day_of_week_func` succeeds exactly when the truncation does, and names the weekday of the truncated seconds |
| Timestamps.DateAndWeekdayAgree | CoinRanking_Script.py:27-69 | for `ts >= 1000`, date and weekday both come from the same `ts div 1000` |
| RowEnricher.ShiftDown | CoinRanking_Script.py:45 | same length; the first row sees nothing, row `i` sees row `i-1`'s price |
| RowEnricher.DirectionFunc | CoinRanking_Script.py:47-53 | no direction without a predecessor; otherwise Down iff previous > current, Up iff previous < current, Same iff equal |
| RowEnricher.ChangeFunc | CoinRanking_Script.py:59-60 | `x - y` is undefined exactly when the previous price is the NaN of `shift`, and otherwise adds to the current price to give the previous one |
| RowEnricher.HighSinceStart | CoinRanking_Script.py:77-83 | "true" iff the direction is Up, "false" iff Down, "" iff Same or undefined |
| RowEnricher.LowSinceStart | CoinRanking_Script.py:91-97 | "true" iff the direction is Down, "false" iff Up, "" iff Same or undefined |
| RowEnricher.ChangeMatchesDirection | CoinRanking_Script.py:47-60 | Change is previous minus current, undefined together with Direction; positive iff Down, negative iff Up, zero iff Same |
| RowEnricher.FlagsRule | CoinRanking_Script.py:77-99 | the flags are (true,false) iff Up, (false,true) iff Down, ("","") iff Same or undefined, and never both "true" |
| RowEnricher.DirectionColumn | CoinRanking_Script.py:45-55 | the `Direction` column: undefined on row 0; on row `i > 0`, row `i-1`'s price against row `i`'s picks Down, Up or Same, each as an iff |
| RowEnricher.ChangeColumn | CoinRanking_Script.py:45-62 | the `Change` column: undefined on row 0, `Price[i-1] - Price[i]` after |
| DailyAggregator.DayKey | CoinRanking_Script.py:108 | `split(' T')[0]`: a prefix of the date with no " T" inside it, ending at the first " T" or at the end of the string |
| DailyAggregator.DayKeyOfFormatted | CoinRanking_Script.py:108 | for a date printed as `<day> T<time>`, the key is exactly `<day>` |
| DailyAggregator.Mean | CoinRanking_Script.py:111 | the mean of a non-empty group times its size is the group's sum |
| DailyAggregator.MeanBounds | CoinRanking_Script.py:111 | the mean lies between any lower and upper bound of the prices |
| DailyAggregator.MeanOfConstant | CoinRanking_Script.py:111 | the mean of a day of equal prices is that price |
| DailyAggregator.SampleVariance | CoinRanking_Script.py:130 | `statistics.variance` of two or more prices is never negative, and times `n-1` it is the sum of the squared deviations from the mean |
| DailyAggregator.VarianceOfConstant | CoinRanking_Script.py:130 | the sample variance of a day of equal prices is 0 |
| DailyAggregator.Count | CoinRanking_Script.py:110 | the size of a group is at most the row count, and it is positive iff the key occurs |
| DailyAggregator.PricesOnDay | CoinRanking_Script.py:110 | a group holds as many prices as its key has rows |
| DailyAggregator.PricesOnDayMembers | CoinRanking_Script.py:110 | a group holds exactly the prices of the rows that carry its key |
| DailyAggregator.PricesOnDayCounts | CoinRanking_Script.py:110 | a group holds each price as many times as there are rows carrying its key and that price |
| DailyAggregator.DailyAverages | CoinRanking_Script.py:111-116 | `avg_dict` has exactly the day keys as its keys |
| DailyAggregator.DailyVariances | CoinRanking_Script.py:130-132 | `vari_dict` exists iff every day has at least two rows, and then its keys are exactly the day keys |
| DailyAggregator.Broadcast | CoinRanking_Script.py:116-133 | `Series.map(d)` gives each row the dictionary entry of its own key |
| DailyAggregator.DailyAverageColumn | CoinRanking_Script.py:110-118 | each row carries the rounded mean of its day's prices; rows with the same key carry the same value |
| DailyAggregator.DailyVarianceColumn | CoinRanking_Script.py:130-133 | fails iff some day has one row; otherwise each row carries the rounded sample variance of its day, equal across a day |
| Volatility.Threshold | CoinRanking_Script.py:140 | `second_sd` lies above the mean of all prices iff the rounded sd is positive, and equals it iff the sd is 0 |
| Volatility.VolatilityAlert | CoinRanking_Script.py:160-164 | "true" iff the price is strictly above the threshold, otherwise "false" |
| Volatility.EqualityDoesNotAlert | CoinRanking_Script.py:160-164 | glue: a price equal to the threshold gives "false" |
| Volatility.AlertMonotone | CoinRanking_Script.py:160-164 | a price at least as high as one that alerts alerts too |
| Volatility.AlertColumn | CoinRanking_Script.py:139-166 | every row is compared with the one threshold: "true" iff above it, "false" iff at or below it |
| Volatility.CheapestRowNeverAlerts | CoinRanking_Script.py:139-166 | with a non-negative sd, the cheapest row never alerts, since it does not exceed the mean |
| Frame.DayKeys | CoinRanking_Script.py:108 | glue: the `Date_temp1` column of a table |
| Frame.Prices | CoinRanking_Script.py:39 | glue: the `Price` column of a table |
| SchemaProjector.KeptIndices | CoinRanking_Script.py:174 | the kept positions are valid and strictly increasing, so the original order is kept |
| SchemaProjector.KeptAreFirstOfDay | CoinRanking_Script.py:174 | a position is kept iff no earlier row has its day key |
| SchemaProjector.FirstIndex | CoinRanking_Script.py:174 | the first position of a key holds that key and has no earlier row of the same day |
| SchemaProjector.KeptOnePerDay | CoinRanking_Script.py:174 | the kept keys are pairwise different, and every key of the input is kept |
| SchemaProjector.KeptCount | CoinRanking_Script.py:174 | as many positions are kept as there are distinct day keys |
| SchemaProjector.DropDuplicates | CoinRanking_Script.py:174 | the result is the input rows at the kept positions, in order |
| SchemaProjector.DropDuplicatesCount | CoinRanking_Script.py:174 | one row survives per distinct day |
| SchemaProjector.DropDuplicatesOnePerDay | CoinRanking_Script.py:174 | the surviving rows have pairwise different days, and every day of the input survives |
| SchemaProjector.DropDuplicatesKeepsFirst | CoinRanking_Script.py:174 | each surviving row is the first row of its day, and surviving rows keep the input's order |
| SchemaProjector.Schema1 | CoinRanking_Script.py:178 | glue: one schema-1 record per kept row, with the seven fields of that row |
| SchemaProjector.Schema2 | CoinRanking_Script.py:179 | glue: one schema-2 record per kept row, with the five fields of that row |
| SchemaProjector.SchemasAligned | CoinRanking_Script.py:178-179 | glue: both views have the same length and the same Date and Price at every position |
| CoinRanking.ApplyToTimestamps | CoinRanking_Script.py:26-72 | `apply` succeeds iff every element succeeds, and then gives the values in order; otherwise it reports the first failing timestamp |
| CoinRanking.DateColumn | CoinRanking_Script.py:26-31 | the `Date` column exists iff every timestamp has at least four digits, and it then formats each timestamp's own seconds; otherwise the error names the first bad timestamp |
| CoinRanking.WeekdayColumn | CoinRanking_Script.py:67-72 | the `dayOfWeek` column exists iff every timestamp has at least four digits, and it then names the weekday of each timestamp's own seconds; otherwise the error names the first bad timestamp |
| CoinRanking.TimestampColumn | CoinRanking_Script.py:31 | glue: the `timestamp` column, in row order |
| CoinRanking.PriceColumn | CoinRanking_Script.py:36-39 | glue: each row's price, rounded |
| CoinRanking.DayKeyColumn | CoinRanking_Script.py:108 | glue: each row's day key is the key of its own date |
| CoinRanking.Enrich | CoinRanking_Script.py:18-166 | a successful run has one enriched row per observation |
| CoinRanking.AssembledRow | CoinRanking_Script.py:31-166 | every field of row `i` is entry `i` of the column the script assigns it |
| CoinRanking.TruncateIsSeconds | CoinRanking_Script.py:27-69 | the truncation succeeds iff the timestamp has four digits or more, and then yields seconds rounded toward zero |
| CoinRanking.TruncateAll | CoinRanking_Script.py:27-69 | the truncation of every timestamp of a history is its seconds, or fails under four digits |
| CoinRanking.EnrichOfDated | CoinRanking_Script.py:18-39 | glue: with a non-empty history and a `Date` column, the weekday column exists too and the run continues from both |
| CoinRanking.EnrichDated | CoinRanking_Script.py:39-166 | once the dates exist, a non-empty run completes iff every day has two rows, and otherwise stops on the variance, never on the stdev; a completed run has one row per observation |
| CoinRanking.Assemble | CoinRanking_Script.py:39-166 | one row per observation; what each field holds is stated by `AssembledRow` |
| CoinRanking.ExpectedDayKeysOfDates | CoinRanking_Script.py:108 | the day keys of the `Date` column are the keys of the formatted seconds of each timestamp |
| CoinRanking.EnrichSucceedsIff | CoinRanking_Script.py:18-166 | the script gets through every column iff the history is non-empty, all timestamps have at least four digits, and every day has two rows or more |
| CoinRanking.EnrichColumns | CoinRanking_Script.py:18-166 | a successful run is assembled from the date, weekday, price, key, average, variance and alert columns, computed from the observations |
| CoinRanking.EnrichedRowsFromObservations | CoinRanking_Script.py:26-108 | each enriched row keeps its timestamp, rounds its own price, and takes date, weekday and day key from that timestamp's seconds |
| CoinRanking.AssembledFirst | CoinRanking_Script.py:45-99 | the first row of an assembled table has no previous price, direction, change or flags |
| CoinRanking.AssembledStep | CoinRanking_Script.py:45-99 | a later row of an assembled table follows the direction, change and flag rules against its predecessor |
| CoinRanking.AssembledDirections | CoinRanking_Script.py:45-99 | every assembled table satisfies the direction rule on all rows |
| CoinRanking.EnrichedDirections | CoinRanking_Script.py:45-99 | in a successful run the first row has empty Direction, Change and flags; every later row gets Down/Up/Same iff its predecessor's price is above/below/equal, Change = previous minus current, and the matching flags |
| CoinRanking.AssembledColumns | CoinRanking_Script.py:39-108 | an assembled table's Price and Date_temp1 columns are the columns it was built from |
| CoinRanking.AssembledRowStats | CoinRanking_Script.py:110-133 | row `i` of an assembled table carries the rounded mean and variance of its day's prices, and that day has at least two rows |
| CoinRanking.EnrichedDailyStats | CoinRanking_Script.py:108-133 | every row's dailyAverage and dailyVariance are the rounded mean and sample variance of exactly its day's prices, over at least two rows; rows of the same day agree |
| CoinRanking.AssembledAlerts | CoinRanking_Script.py:160-166 | an assembled alert column is "true" exactly above the threshold it was built with |
| CoinRanking.EnrichedAlerts | CoinRanking_Script.py:139-166 | in a successful run a row alerts iff its price is strictly above the mean of all prices plus twice the rounded stdev, and equality does not alert |
| CoinRanking.EnrichedAlertsMonotone | CoinRanking_Script.py:139-166 | in one run, a row priced at least as high as an alerting row alerts too |
| CoinRanking.EnrichedCheapestRowQuiet | CoinRanking_Script.py:139-166 | when the rounded stdev is not negative, some row of the run does not alert |
| CoinRanking.EnrichGuards | CoinRanking_Script.py:18-139 | the stdev failure is never the outcome, and the timestamp-column failure happens iff the history is empty |
| CoinRanking.EnrichMalformed | CoinRanking_Script.py:26-72 | a non-empty history fails on a timestamp iff one has fewer than four digits, and the one reported is the first such |
| CoinRanking.EnrichSingleDay | CoinRanking_Script.py:130 | a history with valid timestamps fails on the variance iff some day has a single row |
| CoinRanking.Run | CoinRanking_Script.py:174-179 | the two views exist iff the enrichment succeeds, and otherwise the script's error is passed on |
| SchemaProjector.ViewsOnePerDay | CoinRanking_Script.py:174-179 | both views of a table hold one record per distinct day, projected from the first row of that day, in the table's order, with no day missing |
| CoinRanking.RunValue | CoinRanking_Script.py:174-179 | glue: a successful run outputs the two projections of the deduplicated rows |
| CoinRanking.RunOnePerDay | CoinRanking_Script.py:174-179 | the script's two outputs hold one record per distinct day, built from the first row of that day in the history's order; no day is missing |

## Left out

- The HTTP request and the JSON decoding (CoinRanking_Script.py:11-18) are network I/O. The model starts from the list of observations; a response without `data.history` is not modelled.
- `datetime.fromtimestamp(...).strftime(...)` (lines 28 and 69) depends on the local time zone and the calendar. It is the `clock` parameter, and its own `OSError`/`OverflowError` on extreme values is not modelled. `DayKeyOfFormatted` states what the key is for dates of the `<day> T<time>` shape.
- Timestamps are integers. A timestamp delivered as a float or a string, whose `str` would differ, is not modelled.
- The prices arrive as exact reals. `float(x)` and every `round(..., 2)` (lines 37, 130, 139) are IEEE-754 operations, so they are the `round2` parameter; pandas' half-to-even `round` of the daily means (line 116) is the separate `roundSeries` parameter. Subtraction and comparison are exact.
- A price that `float(x)` rejects (ValueError or TypeError, line 37) and an observation without a `price` field (KeyError, line 39) are not modelled: every observation carries a real price. The NaN of `shift(1)` is `None`.
- The square root inside `statistics.stdev` (line 139) is the `stdev` parameter. Only the threshold built from it is modelled.
- The current-time file names, `to_json` and `print` (lines 183-190) are I/O and are left out.
- pandas' groupby ordering and its apply machinery are left out. Only the key-to-value mapping they build is modelled.
- DailyAggregator.VarianceOfConstant: the converse of `VarianceOfConstant`, that a day with variance 0 has equal prices, is not proved.
- Error cases: a day with a single row always stops the script, because `statistics.variance` raises. The model follows the code here rather than any policy of turning such a day into a sentinel value.

/**
 * The enrichment script end to end: every column assignment of the
 * dataframe in the script's order, followed by deduplication and the two
 * output views. The script aborts with an exception on each error listed in
 * `Error`; nothing is written in that case.
 */
module CoinRanking {
  import opened Wrappers
  import opened Timestamps
  import opened RowEnricher
  import opened DailyAggregator
  import opened Volatility
  import opened Frame
  import opened SchemaProjector

  datatype Error =
    | NoTimestampColumn            // an empty history gives a frame without a 'timestamp' column (KeyError)
    | MalformedTimestamp(ts: int)  // int(str(ts)[:-3]) raises ValueError
    | SingleObservationDay         // statistics.variance on a day with a single row
    | TooFewObservations           // statistics.stdev on fewer than two prices

  /** What the script takes from its environment. */
  datatype Runtime = Runtime(
    clock: LocalClock,             // local-time formatting of seconds
    round2: real -> real,          // the built-in round(x, 2)
    roundSeries: real -> real,     // pandas' round(Series, 2), as applied to the daily means
    stdev: seq<real> -> real)      // statistics.stdev (it needs a square root)

  /**
   * `Series.apply(f)` for an `f` that may raise: the values in order, or the
   * error of the first element on which `f` fails.
   */
  function ApplyToTimestamps(ts: seq<int>, f: int -> Option<string>): (r: Result<seq<string>, Error>)
    ensures r.Ok? <==> forall i :: 0 <= i < |ts| ==> f(ts[i]).Some?
    ensures r.Ok? ==> |r.value| == |ts| && forall i :: 0 <= i < |ts| ==> r.value[i] == f(ts[i]).value
    ensures r.Err? ==>
      exists i :: (0 <= i < |ts| && r.error == MalformedTimestamp(ts[i]) &&
                   f(ts[i]).None? && forall e :: 0 <= e < i ==> f(ts[e]).Some?)
  {
    if |ts| == 0 then Ok([])
    else
      match f(ts[0])
      case None => Err(MalformedTimestamp(ts[0]))
      case Some(v) =>
        var rest := ApplyToTimestamps(ts[1..], f);
        assert forall i :: 1 <= i < |ts| ==> ts[1..][i - 1] == ts[i];
        if rest.Err? then
          Err(rest.error)
        else
          Ok([v] + rest.value)
  }

  function TimestampColumn(history: seq<Observation>): (ts: seq<int>)
    ensures |ts| == |history|
    ensures forall i :: 0 <= i < |history| ==> ts[i] == history[i].timestamp
  {
    seq(|history|, i requires 0 <= i < |history| => history[i].timestamp)
  }

  /** `price_func` applied to the `price` column. */
  function PriceColumn(history: seq<Observation>, round2: real -> real): (prices: seq<real>)
    ensures |prices| == |history|
    ensures forall i :: 0 <= i < |history| ==> prices[i] == round2(history[i].price)
  {
    seq(|history|, i requires 0 <= i < |history| => round2(history[i].price))
  }

  /**
   * The `Date` column: `date_func` on every timestamp, failing on the first
   * one with fewer than four digits.
   */
  function DateColumn(history: seq<Observation>, clock: LocalClock): (r: Result<seq<string>, Error>)
    ensures r.Ok? <==> forall i :: 0 <= i < |history| ==> ValidTimestamp(history[i].timestamp)
    ensures r.Ok? ==> (|r.value| == |history| &&
      forall i :: 0 <= i < |history| ==> r.value[i] == clock.dateTime(Seconds(history[i].timestamp)))
    ensures r.Err? ==> FirstMalformed(history, r.error)
  {
    TruncateAll(history);
    ApplyToTimestamps(TimestampColumn(history), t => DateFunc(clock, t))
  }

  /** The `dayOfWeek` column: `day_of_week_func` on every timestamp. */
  function WeekdayColumn(history: seq<Observation>, clock: LocalClock): (r: Result<seq<string>, Error>)
    ensures r.Ok? <==> forall i :: 0 <= i < |history| ==> ValidTimestamp(history[i].timestamp)
    ensures r.Ok? ==> (|r.value| == |history| &&
      forall i :: 0 <= i < |history| ==> r.value[i] == clock.weekday(Seconds(history[i].timestamp)))
    ensures r.Err? ==> FirstMalformed(history, r.error)
  {
    TruncateAll(history);
    ApplyToTimestamps(TimestampColumn(history), t => DayOfWeekFunc(clock, t))
  }

  /** `e` reports the first timestamp of the history with fewer than four digits. */
  predicate FirstMalformed(history: seq<Observation>, e: Error) {
    exists i :: (0 <= i < |history| && e == MalformedTimestamp(history[i].timestamp) &&
                 !ValidTimestamp(history[i].timestamp) &&
                 forall j :: 0 <= j < i ==> ValidTimestamp(history[j].timestamp))
  }

  /** The enriched dataframe `df`, column by column in the script's order. */
  function Enrich(history: seq<Observation>, rt: Runtime): (r: Result<seq<EnrichedRow>, Error>)
    ensures r.Ok? ==> |r.value| == |history|
  {
    if |history| == 0 then Err(NoTimestampColumn)
    else
      var dates :- DateColumn(history, rt.clock);
      // the weekday column fails exactly where the date column already did
      EnrichDated(history, rt, dates, WeekdayColumn(history, rt.clock).value)
  }

  /** The columns after `Date` and `dayOfWeek`, given those two. */
  function EnrichDated(history: seq<Observation>, rt: Runtime, dates: seq<string>, weekdays: seq<string>)
    : (r: Result<seq<EnrichedRow>, Error>)
    requires |dates| == |weekdays| == |history|
    ensures r.Ok? ==> |r.value| == |history|
    ensures |history| > 0 ==> (r.Ok? <==> AllDaysHaveTwoRows(DayKeyColumn(dates)))
    ensures |history| > 0 && r.Err? ==> r.error == SingleObservationDay
  {
    var prices := PriceColumn(history, rt.round2);
    var keys := DayKeyColumn(dates);
    // a one-row history has a day with a single row
    assert |history| == 1 ==> keys[0] in keys;
    match DailyVarianceColumn(keys, prices, rt.round2)
    case None => Err(SingleObservationDay)
    case Some(variances) =>
      if |history| < 2 then Err(TooFewObservations)
      else
        var threshold := Threshold(prices, rt.round2(rt.stdev(prices)));
        Ok(Assemble(history, dates, weekdays, prices, keys, DailyAverageColumn(keys, prices, rt.roundSeries),
                    variances, AlertColumn(prices, threshold)))
  }

  /** The `Date_temp1` column. */
  function DayKeyColumn(dates: seq<string>): (keys: seq<string>)
    ensures |keys| == |dates|
    ensures forall i :: 0 <= i < |dates| ==> keys[i] == DayKey(dates[i])
  {
    seq(|dates|, i requires 0 <= i < |dates| => DayKey(dates[i]))
  }

  /** The rows of `df` from its columns. */
  function Assemble(history: seq<Observation>, dates: seq<string>, weekdays: seq<string>, prices: seq<real>,
                    keys: seq<string>, averages: seq<real>, variances: seq<real>, alerts: seq<string>)
    : (rows: seq<EnrichedRow>)
    requires |dates| == |weekdays| == |prices| == |keys| == |averages| == |variances| == |alerts| == |history|
    ensures |rows| == |history|
  {
    var previous := ShiftDown(prices);
    var directions := DirectionColumn(prices);
    var changes := ChangeColumn(prices);
    seq(|history|, i requires 0 <= i < |history| =>
      EnrichedRow(history[i].timestamp, dates[i], prices[i], previous[i], directions[i], changes[i],
                  weekdays[i], HighSinceStart(directions[i]), LowSinceStart(directions[i]),
                  keys[i], averages[i], variances[i], alerts[i]))
  }

  /** Row `i` of the assembled table, field by field. */
  lemma AssembledRow(history: seq<Observation>, dates: seq<string>, weekdays: seq<string>, prices: seq<real>,
                     keys: seq<string>, averages: seq<real>, variances: seq<real>, alerts: seq<string>, i: nat)
    requires |dates| == |weekdays| == |prices| == |keys| == |averages| == |variances| == |alerts| == |history|
    requires i < |history|
    ensures var row := Assemble(history, dates, weekdays, prices, keys, averages, variances, alerts)[i];
      && row.timestamp == history[i].timestamp && row.date == dates[i] && row.price == prices[i]
      && row.previousPrice == ShiftDown(prices)[i] && row.direction == DirectionColumn(prices)[i]
      && row.change == ChangeColumn(prices)[i] && row.dayOfWeek == weekdays[i]
      && row.highSinceStart == HighSinceStart(row.direction) && row.lowSinceStart == LowSinceStart(row.direction)
      && row.dayKey == keys[i] && row.dailyAverage == averages[i] && row.dailyVariance == variances[i]
      && row.volatilityAlert == alerts[i]
  {
  }

  // ---------------------------------------------------------------- what the script computes

  /** A timestamp the truncation accepts: at least four digits. */
  predicate ValidTimestamp(ts: int) {
    ts >= 1000 || ts <= -1000
  }

  /** The whole seconds of a millisecond timestamp, rounded toward zero. */
  function Seconds(ts: int): int {
    if ts >= 0 then ts / 1000 else -((-ts) / 1000)
  }

  lemma TruncateIsSeconds(ts: int)
    ensures TruncateTimestamp(ts) == if ValidTimestamp(ts) then Some(Seconds(ts)) else None
  {
  }

  lemma TruncateAll(history: seq<Observation>)
    ensures forall i :: 0 <= i < |history| ==>
      TruncateTimestamp(history[i].timestamp) ==
        if ValidTimestamp(history[i].timestamp) then Some(Seconds(history[i].timestamp)) else None
  {
    forall i | 0 <= i < |history| {
      TruncateIsSeconds(history[i].timestamp);
    }
  }

  /** The day key of every observation, for a history whose timestamps are all accepted. */
  function ExpectedDayKeys(history: seq<Observation>, clock: LocalClock): (keys: seq<string>)
    requires forall i :: 0 <= i < |history| ==> ValidTimestamp(history[i].timestamp)
    ensures |keys| == |history|
  {
    seq(|history|, i requires 0 <= i < |history| => DayKey(clock.dateTime(Seconds(history[i].timestamp))))
  }

  /** Past a non-empty history with valid timestamps, the run continues with the two calendar columns. */
  lemma EnrichOfDated(history: seq<Observation>, rt: Runtime)
    requires |history| > 0 && DateColumn(history, rt.clock).Ok?
    ensures WeekdayColumn(history, rt.clock).Ok?
    ensures Enrich(history, rt) ==
      EnrichDated(history, rt, DateColumn(history, rt.clock).value, WeekdayColumn(history, rt.clock).value)
  {
  }

  lemma ExpectedDayKeysOfDates(history: seq<Observation>, clock: LocalClock)
    requires DateColumn(history, clock).Ok?
    ensures forall i :: 0 <= i < |history| ==> ValidTimestamp(history[i].timestamp)
    ensures DayKeyColumn(DateColumn(history, clock).value) == ExpectedDayKeys(history, clock)
  {
  }

  /**
   * The script runs to the end exactly when the history is non-empty, every
   * timestamp has at least four digits and every day has at least two rows.
   */
  lemma EnrichSucceedsIff(history: seq<Observation>, rt: Runtime)
    ensures Enrich(history, rt).Ok? <==>
      && |history| > 0
      && (forall i :: 0 <= i < |history| ==> ValidTimestamp(history[i].timestamp))
      && AllDaysHaveTwoRows(ExpectedDayKeys(history, rt.clock))
  {
    if |history| > 0 && DateColumn(history, rt.clock).Ok? {
      EnrichOfDated(history, rt);
      ExpectedDayKeysOfDates(history, rt.clock);
    }
  }

  /** The columns a successful run is assembled from. */
  lemma EnrichColumns(history: seq<Observation>, rt: Runtime)
    returns (dates: seq<string>, weekdays: seq<string>, prices: seq<real>, keys: seq<string>, variances: seq<real>)
    requires Enrich(history, rt).Ok?
    ensures |history| >= 2
    ensures DateColumn(history, rt.clock) == Ok(dates) && WeekdayColumn(history, rt.clock) == Ok(weekdays)
    ensures |dates| == |weekdays| == |history|
    ensures prices == PriceColumn(history, rt.round2)
    ensures keys == DayKeyColumn(dates)
    ensures DailyVarianceColumn(keys, prices, rt.round2) == Some(variances)
    ensures Enrich(history, rt).value ==
      Assemble(history, dates, weekdays, prices, keys, DailyAverageColumn(keys, prices, rt.roundSeries), variances,
               AlertColumn(prices, Threshold(prices, rt.round2(rt.stdev(prices)))))
  {
    dates := DateColumn(history, rt.clock).value;
    weekdays := WeekdayColumn(history, rt.clock).value;
    prices := PriceColumn(history, rt.round2);
    keys := DayKeyColumn(dates);
    variances := DailyVarianceColumn(keys, prices, rt.round2).value;
    EnrichOfDated(history, rt);
  }

  /** Every row is derived from its own observation: its price rounded, its date and weekday from `Seconds`. */
  lemma EnrichedRowsFromObservations(history: seq<Observation>, rt: Runtime, rows: seq<EnrichedRow>)
    requires Enrich(history, rt) == Ok(rows)
    ensures |rows| == |history|
    ensures forall i :: 0 <= i < |history| ==>
      && ValidTimestamp(history[i].timestamp)
      && rows[i].timestamp == history[i].timestamp
      && rows[i].price == rt.round2(history[i].price)
      && rows[i].date == rt.clock.dateTime(Seconds(history[i].timestamp))
      && rows[i].dayOfWeek == rt.clock.weekday(Seconds(history[i].timestamp))
      && rows[i].dayKey == DayKey(rows[i].date)
  {
    var dates, weekdays, prices, keys, variances := EnrichColumns(history, rt);
    var averages := DailyAverageColumn(keys, prices, rt.roundSeries);
    var alerts := AlertColumn(prices, Threshold(prices, rt.round2(rt.stdev(prices))));
    forall i | 0 <= i < |history| {
      AssembledRow(history, dates, weekdays, prices, keys, averages, variances, alerts, i);
    }
  }

  /** The first row has no predecessor, so nothing is derived from one. */
  predicate FirstRowRule(r: EnrichedRow) {
    r.previousPrice == None && r.direction == None && r.change == None
    && r.highSinceStart == "" && r.lowSinceStart == ""
  }

  /** A later row compared with the one before it. */
  predicate StepRule(prev: EnrichedRow, r: EnrichedRow) {
    && r.previousPrice == Some(prev.price)
    && (r.direction == Some(Down) <==> prev.price > r.price)
    && (r.direction == Some(Up) <==> prev.price < r.price)
    && (r.direction == Some(Same) <==> prev.price == r.price)
    && r.change == Some(prev.price - r.price)
    && (r.highSinceStart == "true" <==> prev.price < r.price)
    && (r.highSinceStart == "false" <==> prev.price > r.price)
    && (r.highSinceStart == "" <==> prev.price == r.price)
    && (r.lowSinceStart == "true" <==> prev.price > r.price)
    && (r.lowSinceStart == "false" <==> prev.price < r.price)
    && (r.lowSinceStart == "" <==> prev.price == r.price)
    && !(r.highSinceStart == "true" && r.lowSinceStart == "true")
  }

  /** The direction rule, row by row. */
  predicate DirectionRule(rows: seq<EnrichedRow>) {
    && (|rows| > 0 ==> FirstRowRule(rows[0]))
    && (forall i :: 0 < i < |rows| ==> StepRule(rows[i - 1], rows[i]))
  }

  lemma AssembledFirst(history: seq<Observation>, dates: seq<string>, weekdays: seq<string>, prices: seq<real>,
                       keys: seq<string>, averages: seq<real>, variances: seq<real>, alerts: seq<string>)
    requires |dates| == |weekdays| == |prices| == |keys| == |averages| == |variances| == |alerts| == |history| > 0
    ensures FirstRowRule(Assemble(history, dates, weekdays, prices, keys, averages, variances, alerts)[0])
  {
    AssembledRow(history, dates, weekdays, prices, keys, averages, variances, alerts, 0);
  }

  lemma AssembledStep(history: seq<Observation>, dates: seq<string>, weekdays: seq<string>, prices: seq<real>,
                      keys: seq<string>, averages: seq<real>, variances: seq<real>, alerts: seq<string>, i: int)
    requires |dates| == |weekdays| == |prices| == |keys| == |averages| == |variances| == |alerts| == |history|
    requires 0 < i < |history|
    ensures var rows := Assemble(history, dates, weekdays, prices, keys, averages, variances, alerts);
      StepRule(rows[i - 1], rows[i])
  {
    var rows := Assemble(history, dates, weekdays, prices, keys, averages, variances, alerts);
    AssembledRow(history, dates, weekdays, prices, keys, averages, variances, alerts, i - 1);
    AssembledRow(history, dates, weekdays, prices, keys, averages, variances, alerts, i);
    var r := rows[i];
    if prices[i - 1] > prices[i] {
      assert r.direction == Some(Down);
    } else if prices[i - 1] < prices[i] {
      assert r.direction == Some(Up);
    } else {
      assert r.direction == Some(Same);
    }
  }

  lemma AssembledDirections(history: seq<Observation>, dates: seq<string>, weekdays: seq<string>, prices: seq<real>,
                            keys: seq<string>, averages: seq<real>, variances: seq<real>, alerts: seq<string>)
    requires |dates| == |weekdays| == |prices| == |keys| == |averages| == |variances| == |alerts| == |history|
    ensures DirectionRule(Assemble(history, dates, weekdays, prices, keys, averages, variances, alerts))
  {
    if |history| > 0 {
      AssembledFirst(history, dates, weekdays, prices, keys, averages, variances, alerts);
    }
    forall i | 0 < i < |history| {
      AssembledStep(history, dates, weekdays, prices, keys, averages, variances, alerts, i);
    }
  }

  /**
   * Direction, Change and the two flags of the enriched rows: undefined on
   * the first row; afterwards fixed by the previous row's price against the
   * row's own price.
   */
  lemma EnrichedDirections(history: seq<Observation>, rt: Runtime, rows: seq<EnrichedRow>)
    requires Enrich(history, rt) == Ok(rows)
    ensures |rows| == |history| >= 2
    ensures DirectionRule(rows)
  {
    var dates, weekdays, prices, keys, variances := EnrichColumns(history, rt);
    var averages := DailyAverageColumn(keys, prices, rt.roundSeries);
    var alerts := AlertColumn(prices, Threshold(prices, rt.round2(rt.stdev(prices))));
    AssembledDirections(history, dates, weekdays, prices, keys, averages, variances, alerts);
  }

  // ---------------------------------------------------------------- daily statistics and alerts

  /** The group of row `i`'s day has at least two prices, and the row carries their rounded mean and variance. */
  predicate RowStats(rows: seq<EnrichedRow>, i: int, rt: Runtime)
    requires 0 <= i < |rows|
  {
    var day := PricesOnDay(DayKeys(rows), Prices(rows), rows[i].dayKey);
    && |day| >= 2
    && rows[i].dailyAverage == rt.roundSeries(Mean(day))
    && rows[i].dailyVariance == rt.round2(SampleVariance(day))
  }

  lemma AssembledColumns(history: seq<Observation>, dates: seq<string>, weekdays: seq<string>, prices: seq<real>,
                         keys: seq<string>, averages: seq<real>, variances: seq<real>, alerts: seq<string>)
    requires |dates| == |weekdays| == |prices| == |keys| == |averages| == |variances| == |alerts| == |history|
    ensures var rows := Assemble(history, dates, weekdays, prices, keys, averages, variances, alerts);
      Prices(rows) == prices && DayKeys(rows) == keys
  {
    var rows := Assemble(history, dates, weekdays, prices, keys, averages, variances, alerts);
    forall i | 0 <= i < |rows|
      ensures rows[i].price == prices[i] && rows[i].dayKey == keys[i]
    {
      AssembledRow(history, dates, weekdays, prices, keys, averages, variances, alerts, i);
    }
  }

  lemma AssembledRowStats(history: seq<Observation>, rt: Runtime, dates: seq<string>, weekdays: seq<string>,
                          prices: seq<real>, keys: seq<string>, variances: seq<real>, alerts: seq<string>, i: int)
    requires |dates| == |weekdays| == |prices| == |keys| == |variances| == |alerts| == |history|
    requires DailyVarianceColumn(keys, prices, rt.round2) == Some(variances)
    requires 0 <= i < |history|
    ensures RowStats(Assemble(history, dates, weekdays, prices, keys, DailyAverageColumn(keys, prices, rt.roundSeries),
                              variances, alerts), i, rt)
  {
    var averages := DailyAverageColumn(keys, prices, rt.roundSeries);
    AssembledColumns(history, dates, weekdays, prices, keys, averages, variances, alerts);
    AssembledRow(history, dates, weekdays, prices, keys, averages, variances, alerts, i);
    assert keys[i] in keys;
  }

  /**
   * `dailyAverage` and `dailyVariance` of every row are the rounded mean and
   * sample variance of the prices of its day, so rows of the same day agree.
   */
  lemma EnrichedDailyStats(history: seq<Observation>, rt: Runtime, rows: seq<EnrichedRow>)
    requires Enrich(history, rt) == Ok(rows)
    ensures forall i :: 0 <= i < |rows| ==> RowStats(rows, i, rt)
    ensures forall i, j :: 0 <= i < |rows| && 0 <= j < |rows| && rows[i].dayKey == rows[j].dayKey ==>
      rows[i].dailyAverage == rows[j].dailyAverage && rows[i].dailyVariance == rows[j].dailyVariance
  {
    var dates, weekdays, prices, keys, variances := EnrichColumns(history, rt);
    var alerts := AlertColumn(prices, Threshold(prices, rt.round2(rt.stdev(prices))));
    forall i | 0 <= i < |rows| {
      AssembledRowStats(history, rt, dates, weekdays, prices, keys, variances, alerts, i);
    }
    forall i, j | 0 <= i < |rows| && 0 <= j < |rows| && rows[i].dayKey == rows[j].dayKey
      ensures rows[i].dailyAverage == rows[j].dailyAverage && rows[i].dailyVariance == rows[j].dailyVariance
    {
      assert RowStats(rows, i, rt) && RowStats(rows, j, rt);
    }
  }

  /** The alert threshold of a table: the mean price plus twice the rounded standard deviation. */
  function TableThreshold(rows: seq<EnrichedRow>, rt: Runtime): real
    requires |rows| > 0
  {
    Threshold(Prices(rows), rt.round2(rt.stdev(Prices(rows))))
  }

  /** The rows priced strictly above the table's threshold say "true", all others "false". */
  predicate AlertRule(rows: seq<EnrichedRow>, rt: Runtime)
    requires |rows| > 0
  {
    forall i :: 0 <= i < |rows| ==>
      (rows[i].volatilityAlert == "true" <==> rows[i].price > TableThreshold(rows, rt)) &&
      (rows[i].volatilityAlert == "false" <==> rows[i].price <= TableThreshold(rows, rt))
  }

  lemma AssembledAlerts(history: seq<Observation>, rt: Runtime, dates: seq<string>, weekdays: seq<string>,
                        prices: seq<real>, keys: seq<string>, averages: seq<real>, variances: seq<real>)
    requires |dates| == |weekdays| == |prices| == |keys| == |averages| == |variances| == |history| > 0
    ensures AlertRule(Assemble(history, dates, weekdays, prices, keys, averages, variances,
                               AlertColumn(prices, Threshold(prices, rt.round2(rt.stdev(prices))))), rt)
  {
    var alerts := AlertColumn(prices, Threshold(prices, rt.round2(rt.stdev(prices))));
    var rows := Assemble(history, dates, weekdays, prices, keys, averages, variances, alerts);
    AssembledColumns(history, dates, weekdays, prices, keys, averages, variances, alerts);
    forall i | 0 <= i < |rows|
      ensures rows[i].price == prices[i] && rows[i].volatilityAlert == alerts[i]
    {
      AssembledRow(history, dates, weekdays, prices, keys, averages, variances, alerts, i);
    }
  }

  /** `volatilityAlert` is "true" exactly on the rows priced strictly above the table's threshold, "false" elsewhere. */
  lemma EnrichedAlerts(history: seq<Observation>, rt: Runtime, rows: seq<EnrichedRow>)
    requires Enrich(history, rt) == Ok(rows)
    ensures |rows| >= 2
    ensures AlertRule(rows, rt)
  {
    var dates, weekdays, prices, keys, variances := EnrichColumns(history, rt);
    AssembledAlerts(history, rt, dates, weekdays, prices, keys, DailyAverageColumn(keys, prices, rt.roundSeries), variances);
  }

  /** Within one run, a row priced at least as high as an alerting row alerts too. */
  lemma EnrichedAlertsMonotone(history: seq<Observation>, rt: Runtime, rows: seq<EnrichedRow>, i: int, j: int)
    requires Enrich(history, rt) == Ok(rows)
    requires 0 <= i < |rows| && 0 <= j < |rows|
    requires rows[i].volatilityAlert == "true" && rows[i].price <= rows[j].price
    ensures rows[j].volatilityAlert == "true"
  {
    EnrichedAlerts(history, rt, rows);
  }

  /** When the rounded standard deviation is not negative, the cheapest row of a run raises no alert. */
  lemma EnrichedCheapestRowQuiet(history: seq<Observation>, rt: Runtime, rows: seq<EnrichedRow>)
    requires Enrich(history, rt) == Ok(rows)
    requires rt.round2(rt.stdev(Prices(rows))) >= 0.0
    ensures exists i :: 0 <= i < |rows| && rows[i].volatilityAlert == "false"
  {
    EnrichedAlerts(history, rt, rows);
    var prices := Prices(rows);
    var threshold := TableThreshold(rows, rt);
    CheapestRowNeverAlerts(prices, rt.round2(rt.stdev(prices)));
    var i :| 0 <= i < |prices| && AlertColumn(prices, threshold)[i] == "false";
    assert prices[i] <= threshold;
    assert rows[i].volatilityAlert == "false";
  }

  // ---------------------------------------------------------------- errors

  /**
   * The guard on fewer than two prices is never reached, and an empty
   * history fails for want of a timestamp column.
   */
  lemma EnrichGuards(history: seq<Observation>, rt: Runtime)
    ensures Enrich(history, rt) != Err(TooFewObservations)
    ensures Enrich(history, rt) == Err(NoTimestampColumn) <==> |history| == 0
  {
    if |history| > 0 && DateColumn(history, rt.clock).Ok? {
      EnrichOfDated(history, rt);
    }
  }

  /** A non-empty history stops at its first timestamp under four digits, if it has one. */
  lemma EnrichMalformed(history: seq<Observation>, rt: Runtime)
    ensures (Enrich(history, rt).Err? && Enrich(history, rt).error.MalformedTimestamp?) <==>
      |history| > 0 && exists i :: 0 <= i < |history| && !ValidTimestamp(history[i].timestamp)
    ensures Enrich(history, rt).Err? && Enrich(history, rt).error.MalformedTimestamp? ==>
      FirstMalformed(history, Enrich(history, rt).error)
  {
    if |history| > 0 && DateColumn(history, rt.clock).Ok? {
      EnrichOfDated(history, rt);
    }
  }

  /** A history whose timestamps are all accepted fails exactly when some day has a single row. */
  lemma EnrichSingleDay(history: seq<Observation>, rt: Runtime)
    ensures Enrich(history, rt) == Err(SingleObservationDay) <==>
      && |history| > 0
      && (forall i :: 0 <= i < |history| ==> ValidTimestamp(history[i].timestamp))
      && !AllDaysHaveTwoRows(ExpectedDayKeys(history, rt.clock))
  {
    EnrichSucceedsIff(history, rt);
    EnrichGuards(history, rt);
    EnrichMalformed(history, rt);
  }

  // ---------------------------------------------------------------- the whole script

  /** The two views the script writes out, one record per day. */
  function Run(history: seq<Observation>, rt: Runtime): (r: Result<(seq<Schema1Record>, seq<Schema2Record>), Error>)
    ensures r.Ok? <==> Enrich(history, rt).Ok?
    ensures r.Err? ==> r.error == Enrich(history, rt).error
  {
    var rows :- Enrich(history, rt);
    var kept := DropDuplicates(rows);
    Ok((Schema1(kept), Schema2(kept)))
  }

  /**
   * Each view holds one record per distinct day, the first row of that day
   * in the history's order, and the two views agree on Date and Price at
   * every position.
   */
  lemma RunOnePerDay(history: seq<Observation>, rt: Runtime, rows: seq<EnrichedRow>)
    requires Enrich(history, rt) == Ok(rows)
    ensures Run(history, rt) == Ok((Schema1(DropDuplicates(rows)), Schema2(DropDuplicates(rows))))
    ensures OnePerDayViews(rows, Schema1(DropDuplicates(rows)), Schema2(DropDuplicates(rows)))
  {
    RunValue(history, rt, rows);
    ViewsOnePerDay(rows);
  }

  lemma RunValue(history: seq<Observation>, rt: Runtime, rows: seq<EnrichedRow>)
    requires Enrich(history, rt) == Ok(rows)
    ensures Run(history, rt) == Ok((Schema1(DropDuplicates(rows)), Schema2(DropDuplicates(rows))))
  {
  }
}

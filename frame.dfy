/** The rows of the script's dataframe: the raw observations and the enriched rows. */
module Frame {
  import opened Wrappers
  import opened RowEnricher

  /** One entry of the fetched price history: a millisecond timestamp and a price. */
  datatype Observation = Observation(timestamp: int, price: real)

  /** One row of `df` once every column of the script has been added. */
  datatype EnrichedRow = EnrichedRow(
    timestamp: int,
    date: string,                  // Date
    price: real,                   // Price
    previousPrice: Option<real>,   // Direction_temp1
    direction: Option<Direction>,  // Direction
    change: Option<real>,          // Change
    dayOfWeek: string,             // dayOfWeek
    highSinceStart: string,        // highSinceStart
    lowSinceStart: string,         // lowSinceStart
    dayKey: string,                // Date_temp1
    dailyAverage: real,            // dailyAverage
    dailyVariance: real,           // dailyVariance
    volatilityAlert: string)       // volatilityAlert

  /** The `Date_temp1` column of a table. */
  function DayKeys(rows: seq<EnrichedRow>): (keys: seq<string>)
    ensures |keys| == |rows|
    ensures forall i :: 0 <= i < |rows| ==> keys[i] == rows[i].dayKey
  {
    seq(|rows|, i requires 0 <= i < |rows| => rows[i].dayKey)
  }

  /** The `Price` column of a table. */
  function Prices(rows: seq<EnrichedRow>): (prices: seq<real>)
    ensures |prices| == |rows|
    ensures forall i :: 0 <= i < |rows| ==> prices[i] == rows[i].price
  {
    seq(|rows|, i requires 0 <= i < |rows| => rows[i].price)
  }
}

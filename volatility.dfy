/**
 * `volatilityAlert`: one global threshold, the mean of all prices plus two
 * (rounded) sample standard deviations, against which every row's price is
 * compared strictly.
 */
module Volatility {
  import opened DailyAggregator

  /** `second_sd`: mean of all prices plus twice the standard deviation `sd`. */
  function Threshold(prices: seq<real>, sd: real): (t: real)
    requires |prices| > 0
    ensures t > Mean(prices) <==> sd > 0.0
    ensures t == Mean(prices) <==> sd == 0.0
  {
    Mean(prices) + 2.0 * sd
  }

  /** `volatility_alert_func`: "true" exactly when the price is strictly above the threshold. */
  function VolatilityAlert(price: real, threshold: real): (r: string)
    ensures r == "true" || r == "false"
    ensures r == "true" <==> price > threshold
  {
    if price > threshold then "true" else "false"
  }

  /** A price equal to the threshold does not alert. */
  lemma EqualityDoesNotAlert(threshold: real)
    ensures VolatilityAlert(threshold, threshold) == "false"
  {
  }

  /** The alert is monotone in price: a higher price than one that alerts alerts too. */
  lemma AlertMonotone(p: real, q: real, threshold: real)
    requires VolatilityAlert(p, threshold) == "true"
    requires p <= q
    ensures VolatilityAlert(q, threshold) == "true"
  {
  }

  /** The `volatilityAlert` column: each row compared independently with the one threshold. */
  function AlertColumn(prices: seq<real>, threshold: real): (r: seq<string>)
    ensures |r| == |prices|
    ensures forall i :: 0 <= i < |prices| ==> (r[i] == "true" <==> prices[i] > threshold)
    ensures forall i :: 0 <= i < |prices| ==> (r[i] == "false" <==> prices[i] <= threshold)
  {
    seq(|prices|, i requires 0 <= i < |prices| => VolatilityAlert(prices[i], threshold))
  }

  /** The position of a smallest price. */
  function ArgMin(prices: seq<real>): (k: nat)
    requires |prices| > 0
    ensures k < |prices|
    ensures forall i :: 0 <= i < |prices| ==> prices[k] <= prices[i]
  {
    if |prices| == 1 then 0
    else
      var k := ArgMin(prices[..|prices| - 1]);
      if prices[|prices| - 1] < prices[k] then |prices| - 1 else k
  }

  /**
   * With a non-negative standard deviation the threshold is at least the
   * mean, so the cheapest row never alerts: not every row can be flagged.
   */
  lemma CheapestRowNeverAlerts(prices: seq<real>, sd: real)
    requires |prices| > 0
    requires sd >= 0.0
    ensures exists i :: 0 <= i < |prices| && AlertColumn(prices, Threshold(prices, sd))[i] == "false"
  {
    var k := ArgMin(prices);
    // the largest price bounds the mean from above; only the lower bound matters here
    MeanBounds(prices, prices[k], MaxOf(prices));
    assert AlertColumn(prices, Threshold(prices, sd))[k] == "false";
  }

  /** The largest price. */
  function MaxOf(prices: seq<real>): (m: real)
    requires |prices| > 0
    ensures forall i :: 0 <= i < |prices| ==> prices[i] <= m
  {
    if |prices| == 1 then prices[0]
    else
      var m := MaxOf(prices[..|prices| - 1]);
      if prices[|prices| - 1] > m then prices[|prices| - 1] else m
  }
}

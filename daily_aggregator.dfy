/**
 * The daily statistics: the `Date_temp1` day key, the per-day mean and
 * sample variance of `Price` (pandas groupby), the dictionaries
 * `avg_dict`/`vari_dict` built from them, and their broadcast back onto
 * every row through `Series.map`.
 */
module DailyAggregator {
  import opened Wrappers

  // ---------------------------------------------------------------- day key

  /** The separator " T" starts at index `i` of `s`. */
  predicate SeparatorAt(s: string, i: int) {
    0 <= i && i + 2 <= |s| && s[i] == ' ' && s[i + 1] == 'T'
  }

  /**
   * `date.split(' T')[0]`: the part of the date before the first " T", or
   * the whole string when there is none.
   */
  function DayKey(date: string): (k: string)
    ensures k <= date
    ensures forall i :: 0 <= i < |k| ==> !SeparatorAt(date, i)
    ensures k == date || SeparatorAt(date, |k|)
    decreases |date|
  {
    if |date| < 2 then date
    else if date[0] == ' ' && date[1] == 'T' then ""
    else
      var rest := DayKey(date[1..]);
      assert forall i :: 1 <= i <= |rest| ==> (SeparatorAt(date, i) <==> SeparatorAt(date[1..], i - 1));
      [date[0]] + rest
  }

  /** For a date formatted as `<day> T<time>`, the key is exactly `<day>`. */
  lemma DayKeyOfFormatted(day: string, time: string)
    requires forall i :: !SeparatorAt(day, i)
    ensures DayKey(day + " T" + time) == day
  {
    var s := day + " T" + time;
    var k := DayKey(s);
    assert SeparatorAt(s, |day|);
    forall i | 0 <= i < |day|
      ensures !SeparatorAt(s, i)
    {
      if i + 1 < |day| {
        assert SeparatorAt(s, i) ==> SeparatorAt(day, i);
      } else {
        assert s[i + 1] == ' ';
      }
    }
    assert |k| == |day|;
    assert k == s[..|day|] == day;
  }

  // ---------------------------------------------------------------- statistics

  function Sum(xs: seq<real>): real {
    if |xs| == 0 then 0.0 else Sum(xs[..|xs| - 1]) + xs[|xs| - 1]
  }

  /** The arithmetic mean (pandas `Series.mean`). */
  function Mean(xs: seq<real>): (m: real)
    requires |xs| > 0
    ensures m * (|xs| as real) == Sum(xs)
  {
    Sum(xs) / (|xs| as real)
  }

  lemma SquareNonNegative(d: real)
    ensures d * d >= 0.0
  {
  }

  /** The sum of squared deviations of `xs` from `m`. */
  function SquaredDeviations(xs: seq<real>, m: real): real {
    if |xs| == 0 then 0.0
    else SquaredDeviations(xs[..|xs| - 1], m) + (xs[|xs| - 1] - m) * (xs[|xs| - 1] - m)
  }

  /** `statistics.variance`: the sample variance, with divisor n - 1. */
  function SampleVariance(xs: seq<real>): (v: real)
    requires |xs| >= 2
    ensures v >= 0.0
    ensures v * ((|xs| - 1) as real) == SquaredDeviations(xs, Mean(xs))
  {
    SquaredDeviationsNonNegative(xs, Mean(xs));
    SquaredDeviations(xs, Mean(xs)) / ((|xs| - 1) as real)
  }

  lemma {:induction false} SumBounds(xs: seq<real>, lo: real, hi: real)
    requires forall i :: 0 <= i < |xs| ==> lo <= xs[i] <= hi
    ensures (|xs| as real) * lo <= Sum(xs) <= (|xs| as real) * hi
  {
    if |xs| > 0 {
      SumBounds(xs[..|xs| - 1], lo, hi);
    }
  }

  /** The mean of values that lie between two bounds lies between them too. */
  lemma MeanBounds(xs: seq<real>, lo: real, hi: real)
    requires |xs| > 0
    requires forall i :: 0 <= i < |xs| ==> lo <= xs[i] <= hi
    ensures lo <= Mean(xs) <= hi
  {
    SumBounds(xs, lo, hi);
    var n := |xs| as real;
    assert Mean(xs) * n == Sum(xs);
  }

  /** The mean of a day whose prices are all equal is that price. */
  lemma MeanOfConstant(xs: seq<real>, c: real)
    requires |xs| > 0
    requires forall i :: 0 <= i < |xs| ==> xs[i] == c
    ensures Mean(xs) == c
  {
    MeanBounds(xs, c, c);
  }

  lemma {:induction false} SquaredDeviationsNonNegative(xs: seq<real>, m: real)
    ensures SquaredDeviations(xs, m) >= 0.0
  {
    if |xs| > 0 {
      SquaredDeviationsNonNegative(xs[..|xs| - 1], m);
      SquareNonNegative(xs[|xs| - 1] - m);
    }
  }

  lemma {:induction false} SquaredDeviationsOfConstant(xs: seq<real>, c: real)
    requires forall i :: 0 <= i < |xs| ==> xs[i] == c
    ensures SquaredDeviations(xs, c) == 0.0
  {
    if |xs| > 0 {
      SquaredDeviationsOfConstant(xs[..|xs| - 1], c);
    }
  }

  /** A day whose prices are all equal has sample variance 0. */
  lemma VarianceOfConstant(xs: seq<real>)
    requires |xs| >= 2
    requires forall i :: 0 <= i < |xs| ==> xs[i] == xs[0]
    ensures SampleVariance(xs) == 0.0
  {
    MeanOfConstant(xs, xs[0]);
    SquaredDeviationsOfConstant(xs, xs[0]);
  }

  // ---------------------------------------------------------------- grouping

  /** The number of rows whose day key is `k`. */
  function Count(keys: seq<string>, k: string): (c: nat)
    ensures c <= |keys|
    ensures c > 0 <==> k in keys
  {
    if |keys| == 0 then 0
    else
      assert keys == keys[..|keys| - 1] + [keys[|keys| - 1]];
      Count(keys[..|keys| - 1], k) + (if keys[|keys| - 1] == k then 1 else 0)
  }

  /** The prices of the rows whose day key is `k`, in row order: one groupby group. */
  function PricesOnDay(keys: seq<string>, prices: seq<real>, k: string): (r: seq<real>)
    requires |keys| == |prices|
    ensures |r| == Count(keys, k)
  {
    if |keys| == 0 then []
    else
      PricesOnDay(keys[..|keys| - 1], prices[..|prices| - 1], k)
        + (if keys[|keys| - 1] == k then [prices[|prices| - 1]] else [])
  }

  /** A group holds exactly the prices of the rows carrying its key. */
  lemma {:induction false} PricesOnDayMembers(keys: seq<string>, prices: seq<real>, k: string, x: real)
    requires |keys| == |prices|
    ensures x in PricesOnDay(keys, prices, k) <==>
      exists i :: 0 <= i < |keys| && keys[i] == k && prices[i] == x
  {
    if |keys| > 0 {
      var n := |keys| - 1;
      PricesOnDayMembers(keys[..n], prices[..n], k, x);
      if exists i :: 0 <= i < |keys| && keys[i] == k && prices[i] == x {
        var i :| 0 <= i < |keys| && keys[i] == k && prices[i] == x;
        if i < n {
          assert keys[..n][i] == k && prices[..n][i] == x;
        }
      }
    }
  }

  /** The positions of the rows of day `k` priced `x`. */
  function RowsPriced(keys: seq<string>, prices: seq<real>, k: string, x: real): set<int>
    requires |keys| == |prices|
  {
    set i | 0 <= i < |keys| && keys[i] == k && prices[i] == x
  }

  /** The matching positions of a table are those of its prefix, plus its last row if that one matches. */
  lemma RowsPricedStep(keys: seq<string>, prices: seq<real>, k: string, x: real)
    requires |keys| == |prices| > 0
    ensures var n := |keys| - 1;
      RowsPriced(keys, prices, k, x) ==
        RowsPriced(keys[..n], prices[..n], k, x) + (if keys[n] == k && prices[n] == x then {n} else {})
    ensures var n := |keys| - 1;
      |RowsPriced(keys, prices, k, x)| ==
        |RowsPriced(keys[..n], prices[..n], k, x)| + (if keys[n] == k && prices[n] == x then 1 else 0)
  {
    var n := |keys| - 1;
    var after := RowsPriced(keys, prices, k, x);
    var before := RowsPriced(keys[..n], prices[..n], k, x);
    forall i | i in after
      ensures i in before || i == n
    {
      if i < n {
        assert keys[..n][i] == keys[i] && prices[..n][i] == prices[i];
      }
    }
    forall i | i in before
      ensures i in after
    {
      assert keys[..n][i] == keys[i] && prices[..n][i] == prices[i];
    }
    assert n !in before;
  }

  /** The group of a table holds `x` once more than its prefix's group when the last row is of the day and priced `x`. */
  lemma PricesOnDayStep(keys: seq<string>, prices: seq<real>, k: string, x: real)
    requires |keys| == |prices| > 0
    ensures var n := |keys| - 1;
      multiset(PricesOnDay(keys, prices, k))[x] ==
        multiset(PricesOnDay(keys[..n], prices[..n], k))[x] + (if keys[n] == k && prices[n] == x then 1 else 0)
  {
    var n := |keys| - 1;
    var g := PricesOnDay(keys[..n], prices[..n], k);
    var last := if keys[n] == k then [prices[n]] else [];
    assert PricesOnDay(keys, prices, k) == g + last;
    assert multiset(g + last) == multiset(g) + multiset(last);
  }

  /** A group holds each price exactly as often as the rows of its day carry it. */
  lemma {:induction false} PricesOnDayCounts(keys: seq<string>, prices: seq<real>, k: string, x: real)
    requires |keys| == |prices|
    ensures multiset(PricesOnDay(keys, prices, k))[x] == |RowsPriced(keys, prices, k, x)|
  {
    if |keys| == 0 {
      assert RowsPriced(keys, prices, k, x) == {};
    } else {
      var n := |keys| - 1;
      PricesOnDayCounts(keys[..n], prices[..n], k, x);
      PricesOnDayStep(keys, prices, k, x);
      RowsPricedStep(keys, prices, k, x);
    }
  }

  /**
   * `avg_dict`: each day key mapped to the rounded mean of its group. The
   * rounding to two decimals (`round(..., 2)`) is a parameter.
   */
  function DailyAverages(keys: seq<string>, prices: seq<real>, round2: real -> real): (m: map<string, real>)
    requires |keys| == |prices|
    ensures forall k :: k in m <==> k in keys
  {
    map k | k in keys :: round2(Mean(PricesOnDay(keys, prices, k)))
  }

  /** Every day key occurs at least twice, so each group's sample variance is defined. */
  predicate AllDaysHaveTwoRows(keys: seq<string>) {
    forall i :: 0 <= i < |keys| ==> Count(keys, keys[i]) >= 2
  }

  /**
   * `vari_dict`: each day key mapped to the rounded sample variance of its
   * group; None where `statistics.variance` raises because a group has a
   * single row.
   */
  function DailyVariances(keys: seq<string>, prices: seq<real>, round2: real -> real): (r: Option<map<string, real>>)
    requires |keys| == |prices|
    ensures r.Some? <==> AllDaysHaveTwoRows(keys)
    ensures r.Some? ==> forall k :: k in r.value <==> k in keys
  {
    if AllDaysHaveTwoRows(keys) then
      Some(map k | k in keys :: round2(SampleVariance(PricesOnDay(keys, prices, k))))
    else None
  }

  /** `Series.map(d)` over the day-key column, for a dictionary that holds every key. */
  function Broadcast(keys: seq<string>, d: map<string, real>): (col: seq<real>)
    requires forall i :: 0 <= i < |keys| ==> keys[i] in d
    ensures |col| == |keys|
    ensures forall i :: 0 <= i < |keys| ==> col[i] == d[keys[i]]
  {
    seq(|keys|, i requires 0 <= i < |keys| => d[keys[i]])
  }

  /** The `dailyAverage` column. */
  function DailyAverageColumn(keys: seq<string>, prices: seq<real>, round2: real -> real): (col: seq<real>)
    requires |keys| == |prices|
    ensures |col| == |keys|
    ensures forall i :: 0 <= i < |keys| ==> col[i] == round2(Mean(PricesOnDay(keys, prices, keys[i])))
    ensures forall i, j :: 0 <= i < |keys| && 0 <= j < |keys| && keys[i] == keys[j] ==> col[i] == col[j]
  {
    Broadcast(keys, DailyAverages(keys, prices, round2))
  }

  /** The `dailyVariance` column; None where a day has a single row. */
  function DailyVarianceColumn(keys: seq<string>, prices: seq<real>, round2: real -> real): (r: Option<seq<real>>)
    requires |keys| == |prices|
    ensures r.None? <==> exists i :: 0 <= i < |keys| && Count(keys, keys[i]) == 1
    ensures r.Some? ==> |r.value| == |keys|
    ensures r.Some? ==> forall i :: 0 <= i < |keys| ==>
      r.value[i] == round2(SampleVariance(PricesOnDay(keys, prices, keys[i])))
    ensures r.Some? ==> forall i, j :: 0 <= i < |keys| && 0 <= j < |keys| && keys[i] == keys[j] ==>
      r.value[i] == r.value[j]
  {
    assert forall i :: 0 <= i < |keys| ==> Count(keys, keys[i]) >= 1;
    match DailyVariances(keys, prices, round2)
    case None => None
    case Some(d) => Some(Broadcast(keys, d))
  }
}

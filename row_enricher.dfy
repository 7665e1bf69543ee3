/**
 * The per-row columns derived from a row and its predecessor:
 * `Direction_temp1` (the price shifted down by one row), `Direction`,
 * `Change`, `highSinceStart` and `lowSinceStart`.
 */
module RowEnricher {
  import opened Wrappers

  datatype Direction = Up | Down | Same

  /**
   * pandas `shift(1)`: each row sees the previous row's value; the first row
   * sees NaN, written None.
   */
  function ShiftDown(xs: seq<real>): (r: seq<Option<real>>)
    ensures |r| == |xs|
    ensures |xs| > 0 ==> r[0] == None
    ensures forall i :: 0 < i < |xs| ==> r[i] == Some(xs[i - 1])
  {
    if |xs| == 0 then [] else [None] + seq(|xs| - 1, i requires 0 <= i < |xs| - 1 => Some(xs[i]))
  }

  /**
   * `direction_func(previous, current)`. With a NaN predecessor every
   * comparison is false and the Python function falls off its end,
   * returning None.
   */
  function DirectionFunc(previous: Option<real>, current: real): (d: Option<Direction>)
    ensures d == None <==> previous == None
    ensures previous.Some? ==> (d == Some(Down) <==> previous.value > current)
    ensures previous.Some? ==> (d == Some(Up) <==> previous.value < current)
    ensures previous.Some? ==> (d == Some(Same) <==> previous.value == current)
  {
    match previous
    case None => None
    case Some(x) =>
      if x - current > 0.0 then Some(Down)
      else if x - current < 0.0 then Some(Up)
      else if x - current == 0.0 then Some(Same)
      else None
  }

  /** `change_func(previous, current)`: previous minus current, NaN (None) on the first row. */
  function ChangeFunc(previous: Option<real>, current: real): (c: Option<real>)
    ensures c.None? <==> previous.None?
    ensures c.Some? ==> current + c.value == previous.value
  {
    match previous
    case None => None
    case Some(x) => Some(x - current)
  }

  /** `high_since_start(direction)`. */
  function HighSinceStart(d: Option<Direction>): (f: string)
    ensures f == "true" <==> d == Some(Up)
    ensures f == "false" <==> d == Some(Down)
    ensures f == "" <==> d.None? || d == Some(Same)
  {
    assert |"true"| == 4 && |"false"| == 5;
    match d
    case Some(Up) => "true"
    case Some(Down) => "false"
    case _ => ""
  }

  /** `low_since_start(direction)`. */
  function LowSinceStart(d: Option<Direction>): (f: string)
    ensures f == "true" <==> d == Some(Down)
    ensures f == "false" <==> d == Some(Up)
    ensures f == "" <==> d.None? || d == Some(Same)
  {
    assert |"true"| == 4 && |"false"| == 5;
    match d
    case Some(Down) => "true"
    case Some(Up) => "false"
    case _ => ""
  }

  /**
   * The sign of `Change` determines `Direction`: positive is Down, negative
   * is Up, zero is Same, and both are undefined together.
   */
  lemma ChangeMatchesDirection(previous: Option<real>, current: real)
    ensures ChangeFunc(previous, current).None? <==> DirectionFunc(previous, current).None?
    ensures previous.Some? ==> ChangeFunc(previous, current).value == previous.value - current
    ensures previous.Some? ==>
      && (ChangeFunc(previous, current).value > 0.0 <==> DirectionFunc(previous, current) == Some(Down))
      && (ChangeFunc(previous, current).value < 0.0 <==> DirectionFunc(previous, current) == Some(Up))
      && (ChangeFunc(previous, current).value == 0.0 <==> DirectionFunc(previous, current) == Some(Same))
  {
  }

  /**
   * The two flags are never both "true"; they are "true"/"false" in
   * opposite order for Up and Down, and both empty otherwise.
   */
  lemma FlagsRule(d: Option<Direction>)
    ensures !(HighSinceStart(d) == "true" && LowSinceStart(d) == "true")
    ensures d == Some(Up) <==> HighSinceStart(d) == "true" && LowSinceStart(d) == "false"
    ensures d == Some(Down) <==> HighSinceStart(d) == "false" && LowSinceStart(d) == "true"
    ensures (d.None? || d == Some(Same)) <==> HighSinceStart(d) == "" && LowSinceStart(d) == ""
  {
    assert |"true"| == 4 && |"false"| == 5;
    match d
    case None =>
    case Some(dir) => assert dir.Up? || dir.Down? || dir.Same?;
  }

  /** The `Direction` column of the script, computed against the shifted prices. */
  function DirectionColumn(prices: seq<real>): (r: seq<Option<Direction>>)
    ensures |r| == |prices|
    ensures |prices| > 0 ==> r[0] == None
    ensures forall i :: 0 < i < |prices| ==>
      && (r[i] == Some(Down) <==> prices[i - 1] > prices[i])
      && (r[i] == Some(Up) <==> prices[i - 1] < prices[i])
      && (r[i] == Some(Same) <==> prices[i - 1] == prices[i])
  {
    var previous := ShiftDown(prices);
    seq(|prices|, i requires 0 <= i < |prices| => DirectionFunc(previous[i], prices[i]))
  }

  /** The `Change` column: undefined on the first row, previous minus current after it. */
  function ChangeColumn(prices: seq<real>): (r: seq<Option<real>>)
    ensures |r| == |prices|
    ensures |prices| > 0 ==> r[0] == None
    ensures forall i :: 0 < i < |prices| ==> r[i] == Some(prices[i - 1] - prices[i])
  {
    var previous := ShiftDown(prices);
    seq(|prices|, i requires 0 <= i < |prices| => ChangeFunc(previous[i], prices[i]))
  }
}

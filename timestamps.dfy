/**
 * The millisecond-to-second truncation of `date_func` and `day_of_week_func`:
 * the timestamp is printed in decimal, its last three characters are sliced
 * off, and what is left is parsed back as an integer.
 */
module Timestamps {
  import opened Wrappers

  /** The decimal digit for `d`. */
  function DigitChar(d: nat): char
    requires d < 10
  {
    "0123456789"[d]
  }

  predicate IsDigit(c: char) {
    '0' <= c <= '9'
  }

  predicate AllDigits(s: string) {
    forall i :: 0 <= i < |s| ==> IsDigit(s[i])
  }

  /** Decimal representation of a natural number, without leading zeros. */
  function Digits(n: nat): (s: string)
    ensures |s| >= 1 && AllDigits(s)
    decreases n
  {
    if n < 10 then [DigitChar(n)] else Digits(n / 10) + [DigitChar(n % 10)]
  }

  /** Python's `str` of an integer. */
  function IntToString(x: int): string {
    if x < 0 then "-" + Digits(-x) else Digits(x)
  }

  /** Python's slice `s[:-3]`: everything but the last three characters, or "" when there are at most three. */
  function DropLastThree(s: string): (r: string)
    ensures |r| == if |s| <= 3 then 0 else |s| - 3
    ensures r <= s
  {
    if |s| <= 3 then "" else s[..|s| - 3]
  }

  /** The value of a string of decimal digits. */
  function DigitsValue(s: string): nat
    requires AllDigits(s)
  {
    if |s| == 0 then 0 else DigitsValue(s[..|s| - 1]) * 10 + (s[|s| - 1] as int - '0' as int)
  }

  /**
   * Python's `int(...)` on the strings that can arise here: an optional '-'
   * followed by at least one digit; anything else is a ValueError (None).
   */
  function ParseInt(s: string): Option<int> {
    if |s| > 0 && s[0] == '-' then
      (if |s| > 1 && AllDigits(s[1..]) then Some(-(DigitsValue(s[1..]) as int)) else None)
    else if |s| > 0 && AllDigits(s) then Some(DigitsValue(s))
    else None
  }

  /**
   * `int(str(x)[:-3])`: for a timestamp with at least four digits, `ts / 1000`
   * rounded toward zero; for any other timestamp Python's `int` raises
   * ValueError (None).
   */
  function TruncateTimestamp(ts: int): (r: Option<int>)
    ensures r ==
      if ts >= 1000 then Some(ts / 1000)
      else if ts <= -1000 then Some(-((-ts) / 1000))
      else None
  {
    TruncateTimestampValue(ts);
    ParseInt(DropLastThree(IntToString(ts)))
  }

  lemma {:induction false} DigitsRoundTrip(n: nat)
    ensures DigitsValue(Digits(n)) == n
    decreases n
  {
    var s := Digits(n);
    if n >= 10 {
      DigitsRoundTrip(n / 10);
      assert s[..|s| - 1] == Digits(n / 10);
    }
  }

  /** A number below 1000 prints with at most three digits. */
  lemma DigitsShort(n: nat)
    requires n < 1000
    ensures |Digits(n)| <= 3
  {
    if n >= 10 {
      DigitsShort(n / 10);
    }
  }

  /** Dropping the last three digits of a number of at least four digits divides it by 1000. */
  lemma DigitsDropThree(n: nat)
    requires n >= 1000
    ensures DropLastThree(Digits(n)) == Digits(n / 1000)
  {
    var a, b, c := n / 10, n / 100, n / 1000;
    assert a / 10 == b && b / 10 == c;
    assert Digits(n) == Digits(a) + [DigitChar(n % 10)];
    assert Digits(a) == Digits(b) + [DigitChar(a % 10)];
    assert Digits(b) == Digits(c) + [DigitChar(b % 10)];
    assert Digits(n) == Digits(c) + [DigitChar(b % 10), DigitChar(a % 10), DigitChar(n % 10)];
  }

  /** For the usual case of a millisecond timestamp with at least four digits: seconds are `ts div 1000`. */
  lemma TruncatePositive(ts: int)
    requires ts >= 1000
    ensures ParseInt(DropLastThree(IntToString(ts))) == Some(ts / 1000)
  {
    DigitsDropThree(ts);
    DigitsRoundTrip(ts / 1000);
    assert DropLastThree(IntToString(ts)) == Digits(ts / 1000);
  }

  /** A negative timestamp keeps its sign: the digits are divided, so the result rounds toward zero. */
  lemma TruncateNegative(ts: int)
    requires ts <= -1000
    ensures ParseInt(DropLastThree(IntToString(ts))) == Some(-((-ts) / 1000))
  {
    var n := -ts;
    var d := Digits(n);
    DigitsDropThree(n);
    DigitsRoundTrip(n / 1000);
    var s := IntToString(ts);
    assert s == "-" + d;
    var t := DropLastThree(s);
    assert t == "-" + d[..|d| - 3];
    assert t[1..] == Digits(n / 1000);
  }

  /** With three digits or fewer the slice leaves "" or "-", which `int` rejects. */
  lemma TruncateShort(ts: int)
    requires -1000 < ts < 1000
    ensures ParseInt(DropLastThree(IntToString(ts))) == None
  {
    if ts >= 0 {
      DigitsShort(ts);
    } else {
      DigitsShort(-ts);
      var s := IntToString(ts);
      assert |s| <= 4;
      assert |s| == 4 ==> DropLastThree(s) == "-";
    }
  }

  /** The three cases of the slice-and-parse together. */
  lemma TruncateTimestampValue(ts: int)
    ensures ParseInt(DropLastThree(IntToString(ts))) ==
      if ts >= 1000 then Some(ts / 1000)
      else if ts <= -1000 then Some(-((-ts) / 1000))
      else None
  {
    if ts >= 1000 {
      TruncatePositive(ts);
    } else if ts <= -1000 {
      TruncateNegative(ts);
    } else {
      TruncateShort(ts);
    }
  }

  /** The local-time calendar of the machine running the script, taken as given. */
  datatype LocalClock = LocalClock(
    dateTime: int -> string,  // strftime('%Y-%m-%d T%H:%M:%S') of fromtimestamp
    weekday: int -> string)   // strftime('%A') of fromtimestamp

  /** `date_func`: the formatted local date and time of the truncated timestamp. */
  function DateFunc(clock: LocalClock, ts: int): (r: Option<string>)
    ensures r.Some? <==> TruncateTimestamp(ts).Some?
    ensures r.Some? ==> r.value == clock.dateTime(TruncateTimestamp(ts).value)
  {
    match TruncateTimestamp(ts)
    case None => None
    case Some(secs) => Some(clock.dateTime(secs))
  }

  /** `day_of_week_func`: the local weekday name of the truncated timestamp. */
  function DayOfWeekFunc(clock: LocalClock, ts: int): (r: Option<string>)
    ensures r.Some? <==> TruncateTimestamp(ts).Some?
    ensures r.Some? ==> r.value == clock.weekday(TruncateTimestamp(ts).value)
  {
    match TruncateTimestamp(ts)
    case None => None
    case Some(secs) => Some(clock.weekday(secs))
  }

  /** Date and weekday are derived from one and the same number of seconds, `ts div 1000`. */
  lemma DateAndWeekdayAgree(clock: LocalClock, ts: int)
    requires ts >= 1000
    ensures DateFunc(clock, ts) == Some(clock.dateTime(ts / 1000))
    ensures DayOfWeekFunc(clock, ts) == Some(clock.weekday(ts / 1000))
  {
  }
}

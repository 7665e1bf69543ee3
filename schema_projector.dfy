/**
 * `drop_duplicates(subset='Date_temp1', keep="first")` and the two column
 * projections `df_schema1` and `df_schema2` of the kept rows.
 */
module SchemaProjector {
  import opened Wrappers
  import opened RowEnricher
  import opened Frame

  /** The distinct day keys. */
  function Days(keys: seq<string>): set<string> {
    set k | k in keys
  }

  /** Row `i` is the first row of its day. */
  predicate FirstOfDay(keys: seq<string>, i: int)
    requires 0 <= i < |keys|
  {
    forall e :: 0 <= e < i ==> keys[e] != keys[i]
  }

  /**
   * The positions `drop_duplicates(keep="first")` keeps: those whose key does
   * not occur earlier, in increasing order.
   */
  function KeptIndices(keys: seq<string>): (r: seq<nat>)
    ensures forall j :: 0 <= j < |r| ==> r[j] < |keys|
    ensures forall j, l :: 0 <= j < l < |r| ==> r[j] < r[l]
  {
    if |keys| == 0 then []
    else
      var n := |keys| - 1;
      var init := KeptIndices(keys[..n]);
      if keys[n] in keys[..n] then init else init + [n]
  }

  lemma FirstOfDayPrefix(keys: seq<string>, n: nat, i: nat)
    requires i < n <= |keys|
    ensures FirstOfDay(keys[..n], i) <==> FirstOfDay(keys, i)
  {
    assert forall e :: 0 <= e <= i ==> keys[..n][e] == keys[e];
  }

  /** Exactly the first row of each day is kept. */
  lemma {:induction false} KeptAreFirstOfDay(keys: seq<string>)
    ensures forall j :: 0 <= j < |KeptIndices(keys)| ==> FirstOfDay(keys, KeptIndices(keys)[j])
    ensures forall i :: 0 <= i < |keys| && FirstOfDay(keys, i) ==> i in KeptIndices(keys)
  {
    if |keys| > 0 {
      var n := |keys| - 1;
      var init := KeptIndices(keys[..n]);
      KeptAreFirstOfDay(keys[..n]);
      forall i | 0 <= i < n {
        FirstOfDayPrefix(keys, n, i);
      }
      assert FirstOfDay(keys, n) <==> keys[n] !in keys[..n] by {
        if keys[n] in keys[..n] {
          var e :| 0 <= e < n && keys[..n][e] == keys[n];
          assert keys[e] == keys[n];
        }
      }
    }
  }

  /** The first position holding key `k`. */
  function FirstIndex(keys: seq<string>, k: string): (i: nat)
    requires k in keys
    ensures i < |keys| && keys[i] == k && FirstOfDay(keys, i)
  {
    if keys[0] == k then 0
    else
      var i := FirstIndex(keys[1..], k);
      assert forall e :: 0 < e <= i + 1 ==> keys[e] == keys[1..][e - 1];
      i + 1
  }

  /** The kept rows carry pairwise different keys, and every key of the input is kept once. */
  lemma KeptOnePerDay(keys: seq<string>)
    ensures forall j, l :: 0 <= j < l < |KeptIndices(keys)| ==>
      keys[KeptIndices(keys)[j]] != keys[KeptIndices(keys)[l]]
    ensures forall k :: k in keys ==> exists j :: 0 <= j < |KeptIndices(keys)| && keys[KeptIndices(keys)[j]] == k
  {
    var r := KeptIndices(keys);
    KeptAreFirstOfDay(keys);
    forall j, l | 0 <= j < l < |r|
      ensures keys[r[j]] != keys[r[l]]
    {
      assert FirstOfDay(keys, r[l]);
    }
    forall k | k in keys
      ensures exists j :: 0 <= j < |r| && keys[r[j]] == k
    {
      var i := FirstIndex(keys, k);
      assert i in r;
      var j :| 0 <= j < |r| && r[j] == i;
    }
  }

  /** As many rows are kept as there are distinct day keys. */
  lemma {:induction false} KeptCount(keys: seq<string>)
    ensures |KeptIndices(keys)| == |Days(keys)|
  {
    if |keys| > 0 {
      var n := |keys| - 1;
      KeptCount(keys[..n]);
      assert keys == keys[..n] + [keys[n]];
      assert Days(keys) == Days(keys[..n]) + {keys[n]};
      if keys[n] !in keys[..n] {
        assert keys[n] !in Days(keys[..n]);
      } else {
        assert keys[n] in Days(keys[..n]);
      }
    }
  }

  /** `df.drop_duplicates(subset='Date_temp1', keep="first")`. */
  function DropDuplicates(rows: seq<EnrichedRow>): (kept: seq<EnrichedRow>)
    ensures |kept| == |KeptIndices(DayKeys(rows))|
    ensures forall j :: 0 <= j < |kept| ==> kept[j] == rows[KeptIndices(DayKeys(rows))[j]]
  {
    var idx := KeptIndices(DayKeys(rows));
    seq(|idx|, j requires 0 <= j < |idx| => rows[idx[j]])
  }

  /** As many rows survive deduplication as there are distinct days. */
  lemma DropDuplicatesCount(rows: seq<EnrichedRow>)
    ensures |DropDuplicates(rows)| == |Days(DayKeys(rows))|
  {
    KeptCount(DayKeys(rows));
  }

  /** The surviving rows belong to pairwise different days, and no day of the input is missing. */
  lemma DropDuplicatesOnePerDay(rows: seq<EnrichedRow>)
    ensures forall j, l :: 0 <= j < l < |DropDuplicates(rows)| ==>
      DropDuplicates(rows)[j].dayKey != DropDuplicates(rows)[l].dayKey
    ensures forall i :: 0 <= i < |rows| ==>
      exists j :: 0 <= j < |DropDuplicates(rows)| && DropDuplicates(rows)[j].dayKey == rows[i].dayKey
  {
    var keys := DayKeys(rows);
    var kept := DropDuplicates(rows);
    KeptOnePerDay(keys);
    forall i | 0 <= i < |rows|
      ensures exists j :: 0 <= j < |kept| && kept[j].dayKey == rows[i].dayKey
    {
      assert keys[i] in keys;
      var j :| 0 <= j < |KeptIndices(keys)| && keys[KeptIndices(keys)[j]] == keys[i];
      assert kept[j].dayKey == rows[i].dayKey;
    }
  }

  /**
   * Every kept row is the first row of its day in the input, and the kept
   * rows appear in the input's order.
   */
  lemma DropDuplicatesKeepsFirst(rows: seq<EnrichedRow>)
    ensures forall j :: 0 <= j < |DropDuplicates(rows)| ==>
      DropDuplicates(rows)[j].dayKey in DayKeys(rows) &&
      DropDuplicates(rows)[j] == rows[FirstIndex(DayKeys(rows), DropDuplicates(rows)[j].dayKey)]
    ensures forall j, l :: 0 <= j < l < |DropDuplicates(rows)| ==>
      FirstIndex(DayKeys(rows), DropDuplicates(rows)[j].dayKey) <
      FirstIndex(DayKeys(rows), DropDuplicates(rows)[l].dayKey)
  {
    var keys := DayKeys(rows);
    var kept := DropDuplicates(rows);
    var idx := KeptIndices(keys);
    KeptAreFirstOfDay(keys);
    forall j | 0 <= j < |kept|
      ensures kept[j].dayKey in keys && idx[j] == FirstIndex(keys, kept[j].dayKey)
      ensures kept[j] == rows[FirstIndex(keys, kept[j].dayKey)]
    {
      var i := idx[j];
      assert keys[i] == kept[j].dayKey;
      assert FirstOfDay(keys, i);
    }
  }

  /** One record of `df_schema1`. */
  datatype Schema1Record = Schema1Record(
    date: string, price: real, direction: Option<Direction>, change: Option<real>,
    dayOfWeek: string, highSinceStart: string, lowSinceStart: string)

  /** One record of `df_schema2`. */
  datatype Schema2Record = Schema2Record(
    date: string, price: real, dailyAverage: real, dailyVariance: real, volatilityAlert: string)

  function ToSchema1(row: EnrichedRow): Schema1Record {
    Schema1Record(row.date, row.price, row.direction, row.change,
                  row.dayOfWeek, row.highSinceStart, row.lowSinceStart)
  }

  function ToSchema2(row: EnrichedRow): Schema2Record {
    Schema2Record(row.date, row.price, row.dailyAverage, row.dailyVariance, row.volatilityAlert)
  }

  /** `df_schema1`: the calendar and direction columns of each kept row. */
  function Schema1(kept: seq<EnrichedRow>): (s: seq<Schema1Record>)
    ensures |s| == |kept|
    ensures forall j :: 0 <= j < |kept| ==> s[j] == ToSchema1(kept[j])
  {
    seq(|kept|, j requires 0 <= j < |kept| => ToSchema1(kept[j]))
  }

  /** `df_schema2`: the statistics columns of each kept row. */
  function Schema2(kept: seq<EnrichedRow>): (s: seq<Schema2Record>)
    ensures |s| == |kept|
    ensures forall j :: 0 <= j < |kept| ==> s[j] == ToSchema2(kept[j])
  {
    seq(|kept|, j requires 0 <= j < |kept| => ToSchema2(kept[j]))
  }

  /** Both views describe the same rows: same length, and the same Date and Price at each position. */
  lemma SchemasAligned(kept: seq<EnrichedRow>)
    ensures |Schema1(kept)| == |Schema2(kept)|
    ensures forall j :: 0 <= j < |kept| ==>
      Schema1(kept)[j].date == Schema2(kept)[j].date && Schema1(kept)[j].price == Schema2(kept)[j].price
  {
  }

  /**
   * The views of a table hold one record per distinct day, the first row of
   * that day, in the table's order, with no day missing.
   */
  predicate OnePerDayViews(rows: seq<EnrichedRow>, s1: seq<Schema1Record>, s2: seq<Schema2Record>) {
    var kept := DropDuplicates(rows);
    && |s1| == |s2| == |kept| == |Days(DayKeys(rows))|
    && (forall j :: 0 <= j < |kept| ==>
          && kept[j].dayKey in DayKeys(rows)
          && s1[j] == ToSchema1(rows[FirstIndex(DayKeys(rows), kept[j].dayKey)])
          && s2[j] == ToSchema2(rows[FirstIndex(DayKeys(rows), kept[j].dayKey)]))
    && (forall j, l :: 0 <= j < l < |kept| ==>
          kept[j].dayKey in DayKeys(rows) && kept[l].dayKey in DayKeys(rows) &&
          FirstIndex(DayKeys(rows), kept[j].dayKey) < FirstIndex(DayKeys(rows), kept[l].dayKey))
    && (forall i :: 0 <= i < |rows| ==> exists j :: 0 <= j < |kept| && kept[j].dayKey == rows[i].dayKey)
  }

  lemma ViewsOnePerDay(rows: seq<EnrichedRow>)
    ensures OnePerDayViews(rows, Schema1(DropDuplicates(rows)), Schema2(DropDuplicates(rows)))
  {
    DropDuplicatesCount(rows);
    DropDuplicatesKeepsFirst(rows);
    DropDuplicatesOnePerDay(rows);
  }
}

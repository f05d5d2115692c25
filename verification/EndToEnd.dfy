/**
 From the trace to the schedulers: when the generated workload is replayed on time, and which slice the duration of
 a function ends up with.
 */
module EndToEnd {
  import opened Decimal
  import opened U64
  import opened Slices
  import opened Replay
  import opened Bucketing
  import opened Expansion
  import opened TraceItems
  import KernelParser
  import UserParser
  import ParserAgreement

  // ---------- the replay's schedule ----------

  /** Some bucket has enough invocations in this minute for one item. */
  ghost predicate Occurs(bucket: map<nat, seq<nat>>, minute: nat, n: nat, downscale: real) {
    exists f | FIRST_FIB <= f < FIRST_FIB + n ::
      f in bucket && minute < |bucket[f]| && bucket[f][minute] as real >= downscale
  }

  lemma FloorPositiveIff(count: nat, downscale: real)
    requires downscale > 0.0
    ensures InvokeTimes(count, downscale).Floor > 0 <==> count as real >= downscale
  {
    MulGrows(InvokeTimes(count, downscale), 1.0, downscale);
    MulGrows(1.0, InvokeTimes(count, downscale), downscale);
    assert Mul(1.0, downscale) == downscale;
  }

  lemma {:induction false} MinuteItemsIff(
    table: Table, bucket: map<nat, seq<nat>>, minute: nat, n: nat, downscale: real)
    requires IsBucket(table, bucket) && n <= |table| && minute < MINUTES && downscale > 0.0
    ensures MinuteItems(table, bucket, minute, n, downscale) != [] <==> Occurs(bucket, minute, n, downscale)
    ensures Occurs(bucket, minute, n, downscale) ==>
              MinuteItems(table, bucket, minute, n, downscale)[0].time == minute as real * MINUTE
  {
    if n > 0 {
      var f := FIRST_FIB + n - 1;
      var x := InvokeTimes(bucket[f][minute], downscale);
      MinuteItemsIff(table, bucket, minute, n - 1, downscale);
      FloorPositiveIff(bucket[f][minute], downscale);
      if x.Floor > 0 {
        EvenlySpread(f, minute, x, 0);
      }
      assert Occurs(bucket, minute, n, downscale) <==>
             Occurs(bucket, minute, n - 1, downscale) || bucket[f][minute] as real >= downscale;
    }
  }

  lemma FirstOfSorted(items: seq<Item>, k: nat)
    requires k < |items|
    ensures SortItems(items) != [] && SortItems(items)[0].time <= items[k].time && SortItems(items)[0] in items
  {
    SortItemsSorts(items, 0.0);
    var sorted := SortItems(items);
    assert items[k] in multiset(sorted);
    var j :| 0 <= j < |sorted| && sorted[j] == items[k];
    assert sorted[0] in multiset(items);
  }

  lemma FirstIsZeroIff(first: seq<Item>, second: seq<Item>)
    requires first + second != []
    requires first != [] ==> first[0].time == 0.0
    requires forall k | 0 <= k < |first| :: first[k].time >= 0.0
    requires forall k | 0 <= k < |second| :: second[k].time > 0.0
    ensures var sorted := SortItems(first + second);
      sorted != [] && sorted[0].time >= 0.0 && (sorted[0].time == 0.0 <==> first != [])
  {
    var items := first + second;
    FirstOfSorted(items, 0);
    assert forall k | 0 <= k < |items| :: items[k] == if k < |first| then first[k] else second[k - |first|];
  }

  /** The generated trace starts at 0 if and only if some bucket has an item in the first minute. */
  lemma StartsAtZeroIff(table: Table, bucket: map<nat, seq<nat>>, downscale: real)
    requires IsBucket(table, bucket) && downscale > 0.0
    requires AllItems(table, bucket, MINUTES, downscale) != []
    ensures var sorted := SortItems(AllItems(table, bucket, MINUTES, downscale));
      sorted != [] && sorted[0].time >= 0.0 && (sorted[0].time == 0.0 <==> Occurs(bucket, 0, |table|, downscale))
  {
    var first := MinuteItems(table, bucket, 0, |table|, downscale);
    var second := MinuteItems(table, bucket, 1, |table|, downscale);
    forall k: nat | k < |first| ensures first[k].time >= 0.0 {
      MinuteItemsInside(table, bucket, 0, |table|, downscale, k);
    }
    forall k: nat | k < |second| ensures second[k].time > 0.0 {
      MinuteItemsInside(table, bucket, 1, |table|, downscale, k);
    }
    MinuteItemsIff(table, bucket, 0, |table|, downscale);
    assert AllItems(table, bucket, 1, downscale) == first;
    assert AllItems(table, bucket, 2, downscale) == first + second;
    FirstIsZeroIff(first, second);
  }

  /**
   The file is replayed at the generated times (one item late) if and only if the first minute is not empty, or it has
   one line.
   */
  lemma ReplayOnTimeIff(table: Table, bucket: map<nat, seq<nat>>, downscale: real, start: real)
    requires IsBucket(table, bucket) && downscale > 0.0
    requires AllItems(table, bucket, MINUTES, downscale) != []
    ensures var sorted := SortItems(AllItems(table, bucket, MINUTES, downscale));
      sorted != [] &&
      ((forall k: nat | k < |sorted| - 1 :: Request(Lines(sorted), start, k) == start + sorted[k + 1].time)
       <==> Occurs(bucket, 0, |table|, downscale) || |sorted| <= 2)
  {
    StartsAtZeroIff(table, bucket, downscale);
    ScheduleIff(SortItems(AllItems(table, bucket, MINUTES, downscale)), start);
  }

  function LateCounts(f: nat, count: nat): seq<nat> {
    if f == FIRST_FIB then [0, count] else [0, 0]
  }

  /** `count` invocations of the shortest functions, all in the second minute. */
  function LateBuckets(table: Table, count: nat): map<nat, seq<nat>> {
    map f: nat | FIRST_FIB <= f < FIRST_FIB + |table| :: LateCounts(f, count)
  }

  lemma {:induction false} MinuteItemsGrow(table: Table, bucket: map<nat, seq<nat>>, minute: nat, n: nat,
    downscale: real)
    requires IsBucket(table, bucket) && 0 < n <= |table| && minute < MINUTES && downscale > 0.0
    ensures |MinuteItems(table, bucket, minute, n, downscale)| >= |MinuteItems(table, bucket, minute, 1, downscale)|
  {
    if n > 1 {
      MinuteItemsGrow(table, bucket, minute, n - 1, downscale);
    }
  }

  lemma ThreeOrMore(count: nat, downscale: real)
    requires downscale > 0.0 && count as real >= Mul(3.0, downscale)
    ensures Rounds(InvokeTimes(count, downscale)) >= 3
  {
    MulGrows(InvokeTimes(count, downscale), 3.0, downscale);
  }

  lemma LateShape(table: Table, count: nat, downscale: real)
    requires downscale > 0.0
    ensures IsBucket(table, LateBuckets(table, count))
    ensures !Occurs(LateBuckets(table, count), 0, |table|, downscale)
  {
  }

  lemma LateItems(table: Table, count: nat, downscale: real)
    requires downscale > 0.0 && count as real >= Mul(3.0, downscale)
    requires IsBucket(table, LateBuckets(table, count))
    ensures |AllItems(table, LateBuckets(table, count), MINUTES, downscale)| >= 3
  {
    var bucket := LateBuckets(table, count);
    ThreeOrMore(count, downscale);
    assert MinuteItems(table, bucket, 1, 0, downscale) == [];
    assert |MinuteItems(table, bucket, 1, 1, downscale)| >= 3;
    MinuteItemsGrow(table, bucket, 1, |table|, downscale);
  }

  lemma SortKeepsLength(items: seq<Item>)
    ensures |SortItems(items)| == |items|
  {
    SortItemsSorts(items, 0.0);
    assert |SortItems(items)| == |multiset(SortItems(items))| == |items|;
  }

  /** The input of a drift: with nothing in the first minute and three items in the second, some line is due late. */
  lemma LateTraceDrifts(table: Table, count: nat, downscale: real, start: real) returns (k: nat)
    requires downscale > 0.0 && count as real >= Mul(3.0, downscale)
    ensures IsBucket(table, LateBuckets(table, count))
    ensures var sorted := SortItems(AllItems(table, LateBuckets(table, count), MINUTES, downscale));
      k < |sorted| - 1 && Request(Lines(sorted), start, k) != start + sorted[k + 1].time
  {
    hide MinuteItems;
    hide SortItems;
    LateShape(table, count, downscale);
    LateItems(table, count, downscale);
    var items := AllItems(table, LateBuckets(table, count), MINUTES, downscale);
    SortKeepsLength(items);
    ReplayOnTimeIff(table, LateBuckets(table, count), downscale, start);
    k :| k < |SortItems(items)| - 1
         && Request(Lines(SortItems(items)), start, k) != start + SortItems(items)[k + 1].time;
  }

  // ---------- the duration's slice ----------

  /** The argument the generator writes for a function of this duration. */
  function ArgumentFor(d: real): nat {
    FIRST_FIB + BucketOf(DURATIONS, d)
  }

  lemma ShortIff(d: real)
    ensures Short(ArgumentFor(d)) <==> d <= 85.0
    ensures FIB_ARG_MIN <= ArgumentFor(d) <= FIB_ARG_MAX
  {
    var b := BucketOf(DURATIONS, d);
    CalibratedShort(b);
    BucketOfIff(DURATIONS, d, b);
  }

  /**
   A function runs to exhaustion if and only if its mean duration is at most 85 ms: through the generator's bucket,
   the printed argument, the command line and either variant's parser and table.
   */
  lemma DurationDecidesSlice(d: real, path: Bytes)
    requires DigitFree(path) && |ParserAgreement.Command(path, ArgumentFor(d))| < UserParser.CMDLINE_BUF
    ensures KernelParser.AssignedSlice(ParserAgreement.Command(path, ArgumentFor(d)))
            == Decode(UserParser.CodeFor(UserParser.Readable(ParserAgreement.Command(path, ArgumentFor(d)))))
            == if d <= 85.0 then SCX_SLICE_INF else SCX_SLICE_DFL
  {
    ShortIff(d);
    ParserAgreement.VariantsAgree(path, ArgumentFor(d));
    ParserAgreement.DaemonReadsArgument(path, ArgumentFor(d));
    TablesAgree(ArgumentFor(d));
  }

  // ---------- from a row of the trace to its slice ----------

  /** The command line an item is launched with. */
  function CommandOf(path: Bytes, item: Item): Bytes {
    path + [NUL] + item.arg + [NUL]
  }

  /** What both variants make of the command line. */
  predicate BothGive(command: Bytes, slice: u64) {
    && KernelParser.AssignedSlice(command) == slice
    && Decode(UserParser.CodeFor(UserParser.Readable(command))) == slice
  }

  /** An item that carries the argument for a duration runs to exhaustion if and only if that is at most 85 ms. */
  lemma ItemDecidesSlice(item: Item, d: real, path: Bytes)
    requires item.arg == Print(ArgumentFor(d)) && DigitFree(path) && |path| <= 507
    ensures BothGive(CommandOf(path, item), if d <= 85.0 then SCX_SLICE_INF else SCX_SLICE_DFL)
  {
    ShortIff(d);
    PrintLength(ArgumentFor(d), 2);
    DurationDecidesSlice(d, path);
  }

  lemma ShareIsPositive(bucket: map<nat, seq<nat>>, f: nat, minute: nat, count: nat, downscale: real)
    requires f in bucket && minute < |bucket[f]| && bucket[f][minute] >= count && count as real >= downscale > 0.0
    ensures (bucket[f][minute] as real / downscale).Floor > 0
  {
    FloorPositiveIff(bucket[f][minute], downscale);
  }

  /** The dictionary the generator makes of these rows. */
  ghost predicate BucketsOf(table: Table, rows: seq<Row>, bucket: map<nat, seq<nat>>) {
    && Counted(rows) && IsBucket(table, bucket)
    && var kept := Survivors(rows);
       forall f, m | f in bucket && 0 <= m < MINUTES ::
         bucket[f][m] == OfBucket(table, kept, |kept|, f - FIRST_FIB, m)
  }

  lemma BucketOfRow(table: Table, rows: seq<Row>, bucket: map<nat, seq<nat>>, row: Row, minute: nat)
    requires BucketsOf(table, rows, bucket) && row in Survivors(rows) && minute < MINUTES
    ensures var f := FIRST_FIB + BucketOf(table, row.average);
      f in bucket && |row.counts| == |bucket[f]| == MINUTES && bucket[f][minute] >= row.counts[minute]
  {
    hide OfBucket;
    var kept := Survivors(rows);
    var i :| 0 <= i < |kept| && kept[i] == row;
    BucketHoldsRow(table, kept, |kept|, i, minute);
  }

  /** Enough invocations in a minute for one item bring an item of the row's bucket in that minute. */
  lemma RowGetsItem(table: Table, rows: seq<Row>, bucket: map<nat, seq<nat>>, row: Row, minute: nat, downscale: real)
    returns (k: nat)
    requires BucketsOf(table, rows, bucket) && row in Survivors(rows)
    requires minute < MINUTES && minute < |row.counts| && row.counts[minute] as real >= downscale > 0.0
    ensures var sorted := SortItems(AllItems(table, bucket, MINUTES, downscale));
      k < |sorted| && Matches(sorted[k], FIRST_FIB + BucketOf(table, row.average), minute)
  {
    var f := FIRST_FIB + BucketOf(table, row.average);
    BucketOfRow(table, rows, bucket, row, minute);
    ShareIsPositive(bucket, f, minute, row.counts[minute], downscale);
    SortedKeepsShares(table, bucket, downscale, f, minute);
    k := CountedIsThere(SortItems(AllItems(table, bucket, MINUTES, downscale)), f, minute);
  }

  /**
   A function of the trace with enough invocations in a minute for one item gets a line of its own bucket in that
   minute, and what that line launches has the infinite slice if and only if the function's mean duration is at most
   85 ms, in either variant.
   */
  lemma RowGetsItsSlice(rows: seq<Row>, bucket: map<nat, seq<nat>>, row: Row, minute: nat, downscale: real, path: Bytes)
    returns (k: nat)
    requires BucketsOf(DURATIONS, rows, bucket) && row in rows && 0.0 < row.average < 180000.0
    requires minute < MINUTES && minute < |row.counts| && row.counts[minute] as real >= downscale > 0.0
    requires DigitFree(path) && |path| <= 507
    ensures var sorted := SortItems(AllItems(DURATIONS, bucket, MINUTES, downscale));
      && k < |sorted| && Matches(sorted[k], ArgumentFor(row.average), minute)
      && BothGive(CommandOf(path, sorted[k]), if row.average <= 85.0 then SCX_SLICE_INF else SCX_SLICE_DFL)
      && (k < |sorted| - 1 ==> Lines(sorted)[k].arg == sorted[k].arg)
  {
    hide DURATIONS, SortItems, AllItems, Survivors, BothGive;
    k := RowGetsItem(DURATIONS, rows, bucket, row, minute, downscale);
    ItemDecidesSlice(SortItems(AllItems(DURATIONS, bucket, MINUTES, downscale))[k], row.average, path);
  }
}

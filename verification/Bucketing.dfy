/**
 The workload generator up to the list of invocations: filter the trace by duration, add up the invocations of each
 duration, add the durations up into calibrated buckets, and spread each bucket's share evenly over each minute.
 */
module Bucketing {
  const MINUTES := 2

  /** A row of the merged trace: average duration in milliseconds, invocations in each minute. */
  datatype Row = Row(average: real, counts: seq<nat>)

  /** The longest duration of each bucket. */
  type Table = s: seq<nat> | s != [] witness [7]

  const DURATIONS: Table :=
    [7, 8, 9, 10, 12, 14, 17, 21, 27, 39, 56, 85, 131, 205, 325, 520, 838, 1347, 2175, 3512, 5673, 9172, 14835]

  const FIRST_FIB := 24

  predicate Counted(rows: seq<Row>) {
    forall i | 0 <= i < |rows| :: |rows[i].counts| == MINUTES
  }

  function Survivors(rows: seq<Row>): (kept: seq<Row>)
    ensures Counted(rows) ==> Counted(kept)
    ensures forall r :: r in kept <==> r in rows && 0.0 < r.average < 180000.0
  {
    if rows == [] then [] else
      var last := rows[|rows| - 1];
      Survivors(rows[..|rows| - 1]) + if 0.0 < last.average < 180000.0 then [last] else []
  }

  function Copies(rows: seq<Row>, r: Row): nat {
    multiset(rows)[r]
  }

  lemma CopiesSnoc(rows: seq<Row>, x: Row, r: Row)
    ensures Copies(rows + [x], r) == Copies(rows, r) + if x == r then 1 else 0
  {
  }

  lemma SurvivorsStep(rows: seq<Row>, r: Row)
    requires rows != []
    ensures var front, last := rows[..|rows| - 1], rows[|rows| - 1];
      && Copies(rows, r) == Copies(front, r) + (if last == r then 1 else 0)
      && Copies(Survivors(rows), r) ==
         Copies(Survivors(front), r) + if last == r && 0.0 < r.average < 180000.0 then 1 else 0
  {
    hide Copies;
    var front, last := rows[..|rows| - 1], rows[|rows| - 1];
    CopiesSnoc(front, last, r);
    assert front + [last] == rows;
    if 0.0 < last.average < 180000.0 {
      CopiesSnoc(Survivors(front), last, r);
    } else {
      assert Survivors(rows) == Survivors(front);
    }
  }

  /** The filters keep every row as often as it is there. */
  lemma {:induction false} SurvivorsKeepCopies(rows: seq<Row>, r: Row)
    ensures Copies(Survivors(rows), r) == if 0.0 < r.average < 180000.0 then Copies(rows, r) else 0
  {
    if rows != [] {
      hide Survivors;
      hide Copies;
      SurvivorsKeepCopies(rows[..|rows| - 1], r);
      SurvivorsStep(rows, r);
    }
  }

  // ---------- what the buckets should hold ----------

  /** The index of the bucket for a duration: the first one from `i` on that covers it, else the last. */
  function BucketFrom(table: Table, d: real, i: nat): (b: nat)
    requires i < |table|
    ensures i <= b < |table|
    decreases |table| - i
  {
    if d <= table[i] as real || i == |table| - 1 then i else BucketFrom(table, d, i + 1)
  }

  function BucketOf(table: Table, d: real): (b: nat)
    ensures b < |table|
  {
    BucketFrom(table, d, 0)
  }

  lemma {:induction false} BucketFromIs(table: Table, d: real, i: nat)
    requires i < |table|
    ensures var b := BucketFrom(table, d, i);
      i <= b < |table| && (d <= table[b] as real || b == |table| - 1) && forall j | i <= j < b :: table[j] as real < d
    decreases |table| - i
  {
    if !(d <= table[i] as real || i == |table| - 1) {
      BucketFromIs(table, d, i + 1);
    }
  }

  /**
   A duration is in a bucket if and only if no bucket before covers it and it is covered or the bucket is the last.
   */
  lemma BucketOfIff(table: Table, d: real, b: nat)
    requires b < |table|
    ensures b == BucketOf(table, d) <==>
            (d <= table[b] as real || b == |table| - 1) && forall j | 0 <= j < b :: table[j] as real < d
  {
    BucketFromIs(table, d, 0);
  }

  /** With an increasing table that is the smallest bucket that covers the duration. */
  lemma LeastCover(table: Table, d: real, j: nat)
    requires forall i, k | 0 <= i < k < |table| :: table[i] < table[k]
    requires j < |table| && d <= table[j] as real
    ensures d <= table[BucketOf(table, d)] as real <= table[j] as real
  {
    BucketOfIff(table, d, BucketOf(table, d));
  }

  lemma CalibratedIncreases()
    ensures |DURATIONS| == 23 && forall i, k | 0 <= i < k < |DURATIONS| :: DURATIONS[i] < DURATIONS[k]
  {
  }

  /** The first twelve buckets are those up to 85 ms. */
  lemma CalibratedShort(b: nat)
    requires b < |DURATIONS|
    ensures |DURATIONS| == 23 && DURATIONS[11] == 85 && (b <= 11 <==> DURATIONS[b] <= 85)
  {
    CalibratedIncreases();
  }

  /**
   The calibrated table: a duration that some bucket covers lands in the smallest one that does, a longer one in the
   last bucket.
   */
  lemma CalibratedBucket(d: real, j: nat)
    requires j < |DURATIONS|
    ensures d <= DURATIONS[j] as real ==> d <= DURATIONS[BucketOf(DURATIONS, d)] as real <= DURATIONS[j] as real
    ensures BucketOf(DURATIONS, d) == 22 <==> d > 9172.0
  {
    CalibratedIncreases();
    assert DURATIONS[21] == 9172;
    BucketOfIff(DURATIONS, d, BucketOf(DURATIONS, d));
    if d <= DURATIONS[j] as real {
      LeastCover(DURATIONS, d, j);
    }
  }

  /** What one row adds to a bucket. */
  function Share(table: Table, row: Row, b: nat, m: nat): nat
    requires m < |row.counts|
  {
    if BucketOf(table, row.average) == b then row.counts[m] else 0
  }

  /** Invocations in minute `m` of those of the first `k` rows that belong to bucket `b`. */
  function OfBucket(table: Table, rows: seq<Row>, k: nat, b: nat, m: nat): nat
    requires Counted(rows) && k <= |rows| && m < MINUTES
  {
    if k == 0 then 0 else OfBucket(table, rows, k - 1, b, m) + Share(table, rows[k - 1], b, m)
  }

  /** A bucket holds at least what each of its rows brings. */
  lemma {:induction false} BucketHoldsRow(table: Table, rows: seq<Row>, k: nat, i: nat, m: nat)
    requires Counted(rows) && i < k <= |rows| && m < MINUTES
    ensures OfBucket(table, rows, k, BucketOf(table, rows[i].average), m) >= rows[i].counts[m]
  {
    if i < k - 1 {
      BucketHoldsRow(table, rows, k - 1, i, m);
    }
  }

  /** Invocations in minute `m` of those of the first `k` rows that have this average duration. */
  function OfDuration(rows: seq<Row>, k: nat, d: real, m: nat): nat
    requires Counted(rows) && k <= |rows| && m < MINUTES
  {
    if k == 0 then 0 else OfDuration(rows, k - 1, d, m) + if rows[k - 1].average == d then rows[k - 1].counts[m] else 0
  }

  function Total(rows: seq<Row>, k: nat, m: nat): nat
    requires Counted(rows) && k <= |rows| && m < MINUTES
  {
    if k == 0 then 0 else Total(rows, k - 1, m) + rows[k - 1].counts[m]
  }

  // ---------- the two accumulation loops ----------

  /** The zipped sum of two lists. */
  function Plus(a: seq<nat>, b: seq<nat>): seq<nat> {
    seq(if |a| < |b| then |a| else |b|, i requires 0 <= i < |a| && i < |b| => a[i] + b[i])
  }

  const ZEROS: seq<nat> := [0, 0]

  predicate Distinct(order: seq<real>) {
    forall i, j | 0 <= i < j < |order| :: order[i] != order[j]
  }

  /** The dictionary of the first `k` rows, with its keys in insertion order. */
  ghost predicate IsTally(order: seq<real>, tally: map<real, seq<nat>>, rows: seq<Row>, k: nat)
    requires Counted(rows) && k <= |rows|
  {
    && Distinct(order)
    && (forall d :: d in tally <==> d in order)
    && (forall i | 0 <= i < k :: rows[i].average in tally)
    && (forall d | d in tally ::
          |tally[d]| == MINUTES && forall m | 0 <= m < MINUTES :: tally[d][m] == OfDuration(rows, k, d, m))
  }

  lemma {:induction false} NoSuchDuration(rows: seq<Row>, k: nat, d: real, m: nat)
    requires Counted(rows) && k <= |rows| && m < MINUTES && forall i | 0 <= i < k :: rows[i].average != d
    ensures OfDuration(rows, k, d, m) == 0
  {
    if k > 0 {
      NoSuchDuration(rows, k - 1, d, m);
    }
  }

  /** First loop: every surviving duration gets the sum of its rows. */
  method TallyDurations(rows: seq<Row>) returns (order: seq<real>, tally: map<real, seq<nat>>)
    requires Counted(rows)
    ensures IsTally(order, tally, rows, |rows|)
  {
    order, tally := [], map[];
    var i := 0;
    while i < |rows|
      invariant 0 <= i <= |rows|
      invariant IsTally(order, tally, rows, i)
    {
      var row := rows[i];
      var duration := row.average;
      if duration !in tally {
        order := order + [duration];
        tally := tally[duration := ZEROS];
        forall m | 0 <= m < MINUTES ensures OfDuration(rows, i, duration, m) == 0 {
          NoSuchDuration(rows, i, duration, m);
        }
      }
      assert IsTally(order, tally, rows, i);
      tally := tally[duration := Plus(tally[duration], row.counts)];
      i := i + 1;
    }
  }

  /** What the first `n` durations in `order` add to bucket `b`, of the first `k` rows. */
  function KeysSum(table: Table, order: seq<real>, n: nat, rows: seq<Row>, k: nat, b: nat, m: nat): nat
    requires Counted(rows) && n <= |order| && k <= |rows| && m < MINUTES
  {
    if n == 0 then 0
    else
      KeysSum(table, order, n - 1, rows, k, b, m) +
      if BucketOf(table, order[n - 1]) == b then OfDuration(rows, k, order[n - 1], m) else 0
  }

  ghost predicate BucketShape(table: Table, bucket: map<nat, seq<nat>>) {
    forall f :: f in bucket <==> FIRST_FIB <= f < FIRST_FIB + |table|
  }

  /** The buckets hold what the first `n` durations in `order` add to each. */
  ghost predicate Holds(table: Table, bucket: map<nat, seq<nat>>, order: seq<real>, n: nat, rows: seq<Row>)
    requires Counted(rows) && n <= |order|
  {
    && BucketShape(table, bucket)
    && forall f | f in bucket :: |bucket[f]| == MINUTES &&
         forall m | 0 <= m < MINUTES :: bucket[f][m] == KeysSum(table, order, n, rows, |rows|, f - FIRST_FIB, m)
  }

  /** The inner loop: the first bucket that covers the duration, or the last. */
  method FindBucket(table: Table, d: real) returns (i: nat)
    ensures i == BucketOf(table, d)
  {
    i := 0;
    while !(d <= table[i] as real || (i == |table| - 1 && d > table[i] as real))
      invariant i < |table| && BucketFrom(table, d, i) == BucketOf(table, d)
      decreases |table| - i
    {
      i := i + 1;
    }
  }

  /** Second loop: every duration's sums go to its bucket. */
  method FillBuckets(table: Table, ghost rows: seq<Row>, order: seq<real>, tally: map<real, seq<nat>>)
    returns (bucket: map<nat, seq<nat>>)
    requires Counted(rows) && IsTally(order, tally, rows, |rows|)
    ensures Holds(table, bucket, order, |order|, rows)
  {
    bucket := map[];
    for f := FIRST_FIB to FIRST_FIB + |table|
      invariant forall g :: g in bucket <==> FIRST_FIB <= g < f
      invariant forall g | g in bucket :: bucket[g] == ZEROS
    {
      bucket := bucket[f := ZEROS];
    }
    var k := 0;
    while k < |order|
      invariant 0 <= k <= |order|
      invariant Holds(table, bucket, order, k, rows)
    {
      var duration := order[k];
      var i := FindBucket(table, duration);
      bucket := bucket[FIRST_FIB + i := Plus(bucket[FIRST_FIB + i], tally[duration])];
      k := k + 1;
    }
  }

  // ---------- conservation ----------

  lemma {:induction false} KeysSumOfNone(table: Table, order: seq<real>, n: nat, rows: seq<Row>, b: nat, m: nat)
    requires Counted(rows) && n <= |order| && m < MINUTES
    ensures KeysSum(table, order, n, rows, 0, b, m) == 0
  {
    if n > 0 {
      KeysSumOfNone(table, order, n - 1, rows, b, m);
    }
  }

  /** A further row adds to the sum of the one key that is its duration. */
  lemma {:induction false} KeysSumRow(table: Table, order: seq<real>, n: nat, rows: seq<Row>, k: nat, b: nat, m: nat)
    requires Counted(rows) && m < MINUTES && k < |rows| && Distinct(order) && n <= |order|
    ensures KeysSum(table, order, n, rows, k + 1, b, m) == KeysSum(table, order, n, rows, k, b, m) +
              if exists i :: 0 <= i < n && order[i] == rows[k].average then Share(table, rows[k], b, m) else 0
  {
    if n > 0 {
      KeysSumRow(table, order, n - 1, rows, k, b, m);
    }
  }

  lemma {:induction false} KeysSumIsOfBucket(table: Table, order: seq<real>, rows: seq<Row>, k: nat, b: nat, m: nat)
    requires Counted(rows) && m < MINUTES && k <= |rows| && Distinct(order)
    requires forall i | 0 <= i < |rows| :: rows[i].average in order
    ensures KeysSum(table, order, |order|, rows, k, b, m) == OfBucket(table, rows, k, b, m)
  {
    if k == 0 {
      KeysSumOfNone(table, order, |order|, rows, b, m);
    } else {
      KeysSumIsOfBucket(table, order, rows, k - 1, b, m);
      KeysSumRow(table, order, |order|, rows, k - 1, b, m);
      assert rows[k - 1].average in order;
    }
  }

  /** Minute `m` of the first `k` rows, summed over the first `n` buckets. */
  function BucketsSum(table: Table, rows: seq<Row>, k: nat, n: nat, m: nat): nat
    requires Counted(rows) && k <= |rows| && m < MINUTES
  {
    if n == 0 then 0 else BucketsSum(table, rows, k, n - 1, m) + OfBucket(table, rows, k, n - 1, m)
  }

  lemma {:induction false} BucketsSumRow(table: Table, rows: seq<Row>, k: nat, n: nat, m: nat)
    requires Counted(rows) && m < MINUTES && k < |rows|
    ensures BucketsSum(table, rows, k + 1, n, m) == BucketsSum(table, rows, k, n, m) +
              if BucketOf(table, rows[k].average) < n then rows[k].counts[m] else 0
  {
    if n > 0 {
      BucketsSumRow(table, rows, k, n - 1, m);
    }
  }

  lemma {:induction false} BucketsSumOfNone(table: Table, rows: seq<Row>, n: nat, m: nat)
    requires Counted(rows) && m < MINUTES
    ensures BucketsSum(table, rows, 0, n, m) == 0
  {
    if n > 0 {
      BucketsSumOfNone(table, rows, n - 1, m);
    }
  }

  /** No invocation is lost or counted twice: the buckets of a minute add up to its rows. */
  lemma {:induction false} BucketsConserve(table: Table, rows: seq<Row>, k: nat, m: nat)
    requires Counted(rows) && m < MINUTES && k <= |rows|
    ensures BucketsSum(table, rows, k, |table|, m) == Total(rows, k, m)
  {
    if k == 0 {
      BucketsSumOfNone(table, rows, |table|, m);
    } else {
      BucketsConserve(table, rows, k - 1, m);
      BucketsSumRow(table, rows, k - 1, |table|, m);
    }
  }

  // ---------- the order of the rows does not matter ----------

  function Without(rows: seq<Row>, i: nat): (rest: seq<Row>)
    requires i < |rows|
    ensures multiset(rows) == multiset(rest) + multiset{rows[i]}
    ensures Counted(rows) ==> Counted(rest)
  {
    assert rows == rows[..i] + [rows[i]] + rows[i + 1..];
    rows[..i] + rows[i + 1..]
  }

  lemma {:induction false} OfBucketPrefix(table: Table, a: seq<Row>, rows: seq<Row>, k: nat, b: nat, m: nat)
    requires Counted(a) && Counted(rows) && k <= |a| && k <= |rows| && m < MINUTES
    requires forall j | 0 <= j < k :: a[j] == rows[j]
    ensures OfBucket(table, a, k, b, m) == OfBucket(table, rows, k, b, m)
  {
    if k > 0 {
      OfBucketPrefix(table, a, rows, k - 1, b, m);
    }
  }

  lemma {:induction false} OfBucketRemove(table: Table, rows: seq<Row>, k: nat, i: nat, b: nat, m: nat)
    requires Counted(rows) && m < MINUTES && i <= k < |rows|
    ensures OfBucket(table, rows, k + 1, b, m) ==
            OfBucket(table, Without(rows, i), k, b, m) + Share(table, rows[i], b, m)
  {
    if k == i {
      OfBucketPrefix(table, Without(rows, i), rows, k, b, m);
    } else {
      OfBucketRemove(table, rows, k - 1, i, b, m);
      assert Without(rows, i)[k - 1] == rows[k];
    }
  }

  lemma FindEqual(a: seq<Row>, rows: seq<Row>) returns (i: nat)
    requires a != [] && multiset(a) == multiset(rows)
    ensures i < |rows| && rows[i] == a[|a| - 1]
    ensures multiset(a[..|a| - 1]) == multiset(Without(rows, i))
  {
    assert a == a[..|a| - 1] + [a[|a| - 1]];
    assert a[|a| - 1] in multiset(rows);
    i :| i < |rows| && rows[i] == a[|a| - 1];
    assert multiset(a[..|a| - 1]) == multiset(a) - multiset{a[|a| - 1]};
    assert multiset(Without(rows, i)) == multiset(rows) - multiset{rows[i]};
  }

  lemma {:induction false} OfBucketPermute(table: Table, a: seq<Row>, rows: seq<Row>, b: nat, m: nat)
    requires Counted(a) && Counted(rows) && m < MINUTES && multiset(a) == multiset(rows)
    ensures OfBucket(table, a, |a|, b, m) == OfBucket(table, rows, |rows|, b, m)
  {
    assert |a| == |multiset(a)| == |multiset(rows)| == |rows|;
    if a != [] {
      var i := FindEqual(a, rows);
      OfBucketRemove(table, rows, |rows| - 1, i, b, m);
      OfBucketPermute(table, a[..|a| - 1], Without(rows, i), b, m);
      OfBucketPrefix(table, a[..|a| - 1], a, |a| - 1, b, m);
    }
  }

  /** Minute `m` added up over the first `n` buckets of the dictionary. */
  ghost function DictSum(table: Table, bucket: map<nat, seq<nat>>, n: nat, m: nat): nat
    requires n <= |table| && BucketShape(table, bucket)
    requires forall f | f in bucket :: m < |bucket[f]|
  {
    if n == 0 then 0 else DictSum(table, bucket, n - 1, m) + bucket[FIRST_FIB + n - 1][m]
  }

  lemma {:induction false} DictSumIs(table: Table, bucket: map<nat, seq<nat>>, rows: seq<Row>, n: nat, m: nat)
    requires Counted(rows) && m < MINUTES && n <= |table| && BucketShape(table, bucket)
    requires forall f | f in bucket ::
               m < |bucket[f]| && bucket[f][m] == OfBucket(table, rows, |rows|, f - FIRST_FIB, m)
    ensures DictSum(table, bucket, n, m) == BucketsSum(table, rows, |rows|, n, m)
  {
    if n > 0 {
      DictSumIs(table, bucket, rows, n - 1, m);
    }
  }

  lemma KeysFillBucket(table: Table, kept: seq<Row>, sorted: seq<Row>, order: seq<real>, b: nat, m: nat)
    requires Counted(kept) && Counted(sorted) && multiset(sorted) == multiset(kept) && m < MINUTES
    requires Distinct(order) && forall i | 0 <= i < |sorted| :: sorted[i].average in order
    ensures KeysSum(table, order, |order|, sorted, |sorted|, b, m) == OfBucket(table, kept, |kept|, b, m)
  {
    KeysSumIsOfBucket(table, order, sorted, |sorted|, b, m);
    OfBucketPermute(table, sorted, kept, b, m);
  }

  /**
   Both loops together, in whatever order the sort leaves rows of equal duration: each bucket holds, for each
   minute, the invocations of exactly the surviving rows that belong to it, and the buckets add up to all of them.
   */
  method Bucketize(table: Table, rows: seq<Row>, sorted: seq<Row>) returns (bucket: map<nat, seq<nat>>)
    requires Counted(rows) && Counted(sorted) && multiset(sorted) == multiset(Survivors(rows))
    ensures BucketShape(table, bucket) && forall f | f in bucket :: |bucket[f]| == MINUTES
    ensures var kept := Survivors(rows);
      && (forall f, m | f in bucket && 0 <= m < MINUTES ::
            bucket[f][m] == OfBucket(table, kept, |kept|, f - FIRST_FIB, m))
      && (forall m | 0 <= m < MINUTES :: DictSum(table, bucket, |table|, m) == Total(kept, |kept|, m))
  {
    hide KeysSum;
    hide OfBucket;
    hide OfDuration;
    var order, tally := TallyDurations(sorted);
    bucket := FillBuckets(table, sorted, order, tally);
    ghost var kept := Survivors(rows);
    forall f, m | f in bucket && 0 <= m < MINUTES
      ensures bucket[f][m] == OfBucket(table, kept, |kept|, f - FIRST_FIB, m)
    {
      KeysFillBucket(table, kept, sorted, order, f - FIRST_FIB, m);
    }
    forall m | 0 <= m < MINUTES ensures DictSum(table, bucket, |table|, m) == Total(kept, |kept|, m) {
      DictSumIs(table, bucket, kept, |table|, m);
      BucketsConserve(table, kept, |kept|, m);
    }
  }
}

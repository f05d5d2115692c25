/**
 Which arguments the generated items carry: for every bucket and minute exactly its share of the invocations, counted
 by the printed argument and the time; the sort leaves those numbers alone.
 */
module TraceItems {
  import opened Decimal
  import opened Replay
  import opened Bucketing
  import opened Expansion

  /** The item prints this number and lies in this minute. */
  predicate Matches(item: Item, f: nat, minute: nat) {
    item.arg == Print(f) && minute as real * 60.0 <= item.time < minute as real * 60.0 + 60.0
  }

  function Count(items: seq<Item>, f: nat, minute: nat): nat {
    if items == [] then 0
    else Count(items[..|items| - 1], f, minute) + if Matches(items[|items| - 1], f, minute) then 1 else 0
  }

  lemma {:induction false} CountConcat(a: seq<Item>, b: seq<Item>, f: nat, minute: nat)
    ensures Count(a + b, f, minute) == Count(a, f, minute) + Count(b, f, minute)
    decreases |b|
  {
    if b == [] {
      assert a + b == a;
    } else {
      assert (a + b)[..|a + b| - 1] == a + b[..|b| - 1];
      CountConcat(a, b[..|b| - 1], f, minute);
    }
  }

  lemma {:induction false} CountOfAlike(items: seq<Item>, f: nat, minute: nat, matching: bool)
    requires forall k | 0 <= k < |items| :: Matches(items[k], f, minute) == matching
    ensures Count(items, f, minute) == if matching then |items| else 0
  {
    if items != [] {
      CountOfAlike(items[..|items| - 1], f, minute, matching);
    }
  }

  /** Every item of a bucket carries the bucket's argument, and reading that back gives the bucket's number. */
  lemma ItemsCarryBucket(f: nat, minute: nat, x: real, k: nat)
    requires k < |ItemsOf(f, minute, x)|
    ensures var arg := ItemsOf(f, minute, x)[k].arg; Digits(arg) && Value(arg) == f && arg == Print(f)
    ensures Matches(ItemsOf(f, minute, x)[k], f, minute)
  {
    PrintRoundTrip(f);
    EvenlySpread(f, minute, x, k);
  }

  lemma OtherMinute(t: real, m: nat, minute: nat)
    requires m as real * MINUTE <= t < m as real * MINUTE + MINUTE
    ensures minute as real * MINUTE <= t < minute as real * MINUTE + MINUTE <==> minute == m
  {
    if minute < m {
      assert minute as real + 1.0 <= m as real;
    } else if minute > m {
      assert m as real + 1.0 <= minute as real;
    }
  }

  lemma BucketItemsMatch(f: nat, m: nat, x: real, g: nat, minute: nat)
    ensures Count(ItemsOf(f, m, x), g, minute) == if f == g && m == minute then Rounds(x) else 0
  {
    var items := ItemsOf(f, m, x);
    forall k | 0 <= k < |items| ensures Matches(items[k], g, minute) == (f == g && m == minute) {
      ItemsCarryBucket(f, m, x, k);
      PrintRoundTrip(g);
      OtherMinute(items[k].time, m, minute);
    }
    CountOfAlike(items, g, minute, f == g && m == minute);
  }

  /** How many items a bucket should get in a minute. */
  function ShareOf(bucket: map<nat, seq<nat>>, f: nat, minute: nat, downscale: real): nat
    requires downscale != 0.0
  {
    if f in bucket && minute < |bucket[f]| then Rounds(InvokeTimes(bucket[f][minute], downscale)) else 0
  }

  lemma LastBucketCounts(
    table: Table, bucket: map<nat, seq<nat>>, m: nat, n: nat, downscale: real, f: nat, minute: nat)
    requires IsBucket(table, bucket) && 0 < n <= |table| && m < MINUTES && downscale != 0.0
    ensures Count(MinuteItems(table, bucket, m, n, downscale), f, minute) ==
            Count(MinuteItems(table, bucket, m, n - 1, downscale), f, minute) +
            if f == FIRST_FIB + n - 1 && minute == m then ShareOf(bucket, f, minute, downscale) else 0
  {
    hide Count, ItemsOf, Rounds, InvokeTimes;
    var last := FIRST_FIB + n - 1;
    var x := InvokeTimes(bucket[last][m], downscale);
    BucketItemsMatch(last, m, x, f, minute);
    CountConcat(MinuteItems(table, bucket, m, n - 1, downscale), ItemsOf(last, m, x), f, minute);
  }

  lemma {:induction false} MinuteCounts(
    table: Table, bucket: map<nat, seq<nat>>, m: nat, n: nat, downscale: real, f: nat, minute: nat)
    requires IsBucket(table, bucket) && n <= |table| && m < MINUTES && downscale != 0.0
    ensures Count(MinuteItems(table, bucket, m, n, downscale), f, minute) ==
            if minute == m && FIRST_FIB <= f < FIRST_FIB + n then ShareOf(bucket, f, minute, downscale) else 0
  {
    if n > 0 {
      hide IsBucket, MinuteItems, Count, ShareOf;
      LastBucketCounts(table, bucket, m, n, downscale, f, minute);
      MinuteCounts(table, bucket, m, n - 1, downscale, f, minute);
    }
  }

  lemma {:induction false} AllCounts(
    table: Table, bucket: map<nat, seq<nat>>, minutes: nat, downscale: real, f: nat, minute: nat)
    requires IsBucket(table, bucket) && minutes <= MINUTES && downscale != 0.0
    ensures Count(AllItems(table, bucket, minutes, downscale), f, minute) ==
            if minute < minutes && FIRST_FIB <= f < FIRST_FIB + |table| then ShareOf(bucket, f, minute, downscale)
                else 0
  {
    if minutes > 0 {
      hide Count, MinuteItems, ShareOf;
      AllCounts(table, bucket, minutes - 1, downscale, f, minute);
      MinuteCounts(table, bucket, minutes - 1, |table|, downscale, f, minute);
      CountConcat(AllItems(table, bucket, minutes - 1, downscale),
                  MinuteItems(table, bucket, minutes - 1, |table|, downscale), f, minute);
    }
  }

  /**
   For each bucket and minute, the items with the bucket's argument in that minute are as many as its invocations
   divided by the factor, rounded down.
   */
  lemma BucketGetsShare(table: Table, bucket: map<nat, seq<nat>>, downscale: real, f: nat, minute: nat)
    requires IsBucket(table, bucket) && downscale > 0.0 && f in bucket && minute < MINUTES
    ensures minute < |bucket[f]|
    ensures Count(AllItems(table, bucket, MINUTES, downscale), f, minute) ==
            (bucket[f][minute] as real / downscale).Floor
  {
    AllCounts(table, bucket, MINUTES, downscale, f, minute);
    assert InvokeTimes(bucket[f][minute], downscale) >= 0.0;
  }

  lemma CountWithout(items: seq<Item>, i: nat, f: nat, minute: nat)
    requires i < |items|
    ensures Count(items, f, minute) ==
            Count(items[..i] + items[i + 1..], f, minute) + if Matches(items[i], f, minute) then 1 else 0
  {
    var one := [items[i]];
    assert one[..0] == [];
    assert items == items[..i] + (one + items[i + 1..]);
    CountConcat(items[..i], one + items[i + 1..], f, minute);
    CountConcat(one, items[i + 1..], f, minute);
    CountConcat(items[..i], items[i + 1..], f, minute);
  }

  lemma TakenOut(b: seq<Item>, i: nat)
    requires i < |b|
    ensures multiset(b) == multiset(b[..i] + b[i + 1..]) + multiset{b[i]}
  {
    assert b == b[..i] + [b[i]] + b[i + 1..];
  }

  lemma {:induction false} CountPermutes(a: seq<Item>, b: seq<Item>, f: nat, minute: nat)
    requires multiset(a) == multiset(b)
    ensures Count(a, f, minute) == Count(b, f, minute)
    decreases |a|
  {
    assert |a| == |multiset(a)| == |b|;
    if a != [] {
      var front, last := a[..|a| - 1], a[|a| - 1];
      assert a == front + [last];
      assert last in multiset(b);
      var i :| 0 <= i < |b| && b[i] == last;
      TakenOut(b, i);
      assert multiset(front) == multiset(a) - multiset{last};
      assert multiset(b[..i] + b[i + 1..]) == multiset(b) - multiset{last};
      CountPermutes(front, b[..i] + b[i + 1..], f, minute);
      CountWithout(b, i, f, minute);
    }
  }

  lemma {:induction false} CountedIsThere(items: seq<Item>, f: nat, minute: nat) returns (k: nat)
    requires Count(items, f, minute) > 0
    ensures k < |items| && Matches(items[k], f, minute)
  {
    if Matches(items[|items| - 1], f, minute) {
      k := |items| - 1;
    } else {
      k := CountedIsThere(items[..|items| - 1], f, minute);
    }
  }

  /** The sorted list holds, for each bucket and minute, that many items too. */
  lemma SortedKeepsShares(table: Table, bucket: map<nat, seq<nat>>, downscale: real, f: nat, minute: nat)
    requires IsBucket(table, bucket) && downscale > 0.0 && f in bucket && minute < MINUTES
    ensures minute < |bucket[f]|
    ensures Count(SortItems(AllItems(table, bucket, MINUTES, downscale)), f, minute) ==
            (bucket[f][minute] as real / downscale).Floor
  {
    var items := AllItems(table, bucket, MINUTES, downscale);
    BucketGetsShare(table, bucket, downscale, f, minute);
    SortItemsSorts(items, 0.0);
    CountPermutes(SortItems(items), items, f, minute);
  }
}

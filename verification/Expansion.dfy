/**
 The generator's last part: each bucket's invocations of a minute, divided by the downscale factor and rounded
 down, spread evenly over that minute.
 */
module Expansion {
  import opened Decimal
  import opened Replay
  import opened Bucketing

  const MINUTE := 60.0

  function Mul(a: real, b: real): real {
    a * b
  }

  /** How many items a bucket gets in a minute, before rounding. */
  function InvokeTimes(count: nat, downscale: real): (x: real)
    requires downscale != 0.0
    ensures downscale > 0.0 ==> x >= 0.0
    ensures downscale < 0.0 ==> x <= 0.0
    ensures Mul(x, downscale) == count as real
  {
    count as real / downscale
  }

  function TimeAt(minute: nat, interval: real, n: nat): real {
    minute as real * MINUTE + Mul(n as real, interval)
  }

  /** `range(int(x))`: rounded toward zero, and empty below one. */
  function Rounds(x: real): nat {
    if x > 0.0 then x.Floor else 0
  }

  /** The items of one bucket and minute. */
  function ItemsOf(fib: nat, minute: nat, x: real): (items: seq<Item>)
    ensures |items| == Rounds(x)
  {
    seq(Rounds(x), n requires 0 <= n < Rounds(x) => Item(TimeAt(minute, MINUTE / x, n), Print(fib)))
  }

  lemma MulGrows(a: real, b: real, c: real)
    requires c > 0.0
    ensures a < b ==> Mul(a, c) < Mul(b, c)
    ensures a <= b ==> Mul(a, c) <= Mul(b, c)
    ensures Mul(a + 1.0, c) == Mul(a, c) + c
    ensures Mul(0.0, c) == 0.0
  {
  }

  lemma WithinMinute(n: real, x: real)
    requires 0.0 <= n < x
    ensures 0.0 <= Mul(n, MINUTE / x) < MINUTE
    ensures n > 0.0 ==> Mul(n, MINUTE / x) > 0.0
  {
    MulGrows(0.0, n, MINUTE / x);
    MulGrows(n, x, MINUTE / x);
  }

  /** Every item is inside its minute, an interval behind the one before; the first is at the minute's start. */
  lemma EvenlySpread(fib: nat, minute: nat, x: real, n: nat)
    requires x > 0.0 && n < x.Floor
    ensures minute as real * MINUTE <= ItemsOf(fib, minute, x)[n].time < minute as real * MINUTE + MINUTE
    ensures n == 0 <==> ItemsOf(fib, minute, x)[n].time == minute as real * MINUTE
    ensures n > 0 ==> ItemsOf(fib, minute, x)[n].time == ItemsOf(fib, minute, x)[n - 1].time + MINUTE / x
  {
    WithinMinute(n as real, x);
    if n > 0 {
      MulGrows((n - 1) as real, n as real, MINUTE / x);
      assert n as real == (n - 1) as real + 1.0;
    }
  }

  ghost predicate IsBucket(table: Table, bucket: map<nat, seq<nat>>) {
    BucketShape(table, bucket) && forall f | f in bucket :: |bucket[f]| == MINUTES
  }

  /** The items of the first `n` buckets in a minute. */
  ghost function MinuteItems(table: Table, bucket: map<nat, seq<nat>>, minute: nat, n: nat, downscale: real): seq<Item>
    requires IsBucket(table, bucket) && n <= |table| && minute < MINUTES && downscale != 0.0
  {
    if n == 0 then []
    else
      MinuteItems(table, bucket, minute, n - 1, downscale) +
      ItemsOf(FIRST_FIB + n - 1, minute, InvokeTimes(bucket[FIRST_FIB + n - 1][minute], downscale))
  }

  /** The items of the first `minutes` minutes. */
  ghost function AllItems(table: Table, bucket: map<nat, seq<nat>>, minutes: nat, downscale: real): seq<Item>
    requires IsBucket(table, bucket) && minutes <= MINUTES && downscale != 0.0
  {
    if minutes == 0 then []
    else
      AllItems(table, bucket, minutes - 1, downscale) + MinuteItems(table, bucket, minutes - 1, |table|, downscale)
  }

  /** The innermost loop. */
  method ExpandBucket(fib: nat, minute: nat, invokeTimes: real) returns (items: seq<Item>)
    ensures items == ItemsOf(fib, minute, invokeTimes)
    ensures |items| == Rounds(invokeTimes) && forall k | 0 <= k < |items| :: items[k].arg == Print(fib)
  {
    items := [];
    for n := 0 to Rounds(invokeTimes)
      invariant |items| == n
      invariant forall k | 0 <= k < n :: items[k] == ItemsOf(fib, minute, invokeTimes)[k]
    {
      var interval := MINUTE / invokeTimes;
      items := items + [Item(TimeAt(minute, interval, n), Print(fib))];
    }
  }

  /** The loops over the minutes and the buckets; a factor of zero raises at the first bucket. */
  method Expand(table: Table, bucket: map<nat, seq<nat>>, downscale: real) returns (raised: bool, items: seq<Item>)
    requires IsBucket(table, bucket)
    ensures raised <==> downscale == 0.0
    ensures !raised ==> items == AllItems(table, bucket, MINUTES, downscale)
    ensures downscale < 0.0 ==> items == []
  {
    items := [];
    raised := downscale == 0.0;
    if raised {
      return;
    }
    for minute := 0 to MINUTES
      invariant items == AllItems(table, bucket, minute, downscale)
      invariant downscale < 0.0 ==> items == []
    {
      ghost var before := items;
      for i := 0 to |table|
        invariant items == before + MinuteItems(table, bucket, minute, i, downscale)
        invariant downscale < 0.0 ==> items == []
      {
        var fib := FIRST_FIB + i;
        var part := ExpandBucket(fib, minute, InvokeTimes(bucket[fib][minute], downscale));
        items := items + part;
      }
    }
  }

  // ---------- what the list holds ----------

  lemma {:induction false} MinuteItemsInside(
    table: Table, bucket: map<nat, seq<nat>>, minute: nat, n: nat, downscale: real, k: nat)
    requires IsBucket(table, bucket) && n <= |table| && minute < MINUTES && downscale != 0.0
    requires k < |MinuteItems(table, bucket, minute, n, downscale)|
    ensures var item := MinuteItems(table, bucket, minute, n, downscale)[k];
      && minute as real * MINUTE <= item.time < minute as real * MINUTE + MINUTE
      && exists f :: FIRST_FIB <= f < FIRST_FIB + n && item.arg == Print(f)
  {
    var most := MinuteItems(table, bucket, minute, n - 1, downscale);
    if k < |most| {
      MinuteItemsInside(table, bucket, minute, n - 1, downscale, k);
    } else {
      EvenlySpread(FIRST_FIB + n - 1, minute, InvokeTimes(bucket[FIRST_FIB + n - 1][minute], downscale), k - |most|);
    }
  }

  lemma {:induction false} TimesIs(k: nat, t: real)
    ensures Times(k, t) == Mul(k as real, t)
  {
    if k > 0 {
      TimesIs(k - 1, t);
      assert k as real == (k - 1) as real + 1.0;
      assert Mul((k - 1) as real + 1.0, t) == Mul((k - 1) as real, t) + t;
    }
  }

  lemma {:induction false} TimesAdd(j: nat, k: nat, t: real)
    ensures Times(j + k, t) == Times(j, t) + Times(k, t)
  {
    if k > 0 {
      TimesAdd(j, k - 1, t);
    }
  }

  lemma FloorBounds(k: nat, x: real, c: real)
    requires c > 0.0 && k as real <= x < k as real + 1.0
    ensures Times(k, c) <= Mul(x, c) < Times(k, c) + c
  {
    TimesIs(k, c);
    MulGrows(k as real, x, c);
    MulGrows(x, k as real + 1.0, c);
  }

  /** Downscaling loses less than one item per bucket and minute. */
  lemma {:induction false} DownscaleLoss(table: Table, bucket: map<nat, seq<nat>>, minute: nat, n: nat, downscale: real)
    requires IsBucket(table, bucket) && n <= |table| && minute < MINUTES && downscale > 0.0
    ensures var made := |MinuteItems(table, bucket, minute, n, downscale)|;
      var all := DictSum(table, bucket, n, minute) as real;
      Times(made, downscale) <= all <= Times(made + n, downscale) && (n > 0 ==> all < Times(made + n, downscale))
  {
    if n > 0 {
      DownscaleLoss(table, bucket, minute, n - 1, downscale);
      var count := bucket[FIRST_FIB + n - 1][minute];
      var made, floor := |MinuteItems(table, bucket, minute, n - 1, downscale)|, InvokeTimes(count, downscale).Floor;
      FloorBounds(floor, InvokeTimes(count, downscale), downscale);
      TimesAdd(made, floor, downscale);
      TimesAdd(made + n - 1, floor, downscale);
      assert made + n - 1 + floor + 1 == made + floor + n;
    }
  }
}

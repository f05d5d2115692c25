/**
 The workload file and its replay, over the reals.  The generator sorts the items by time and writes one line for
 each of them but the last: the first time plus the difference to the item behind it.  The dispatcher adds the
 lines up and puts each item on the queue no earlier than its running sum.
 */
module Replay {
  import opened Decimal

  /** An invocation of `arg`, `time` seconds into the trace. */
  datatype Item = Item(time: real, arg: Bytes)

  datatype Line = Line(iat: real, arg: Bytes)

  predicate SortedByTime(items: seq<Item>) {
    forall j, k | 0 <= j < k < |items| :: items[j].time <= items[k].time
  }

  // ---------- the generator ----------

  /** Insertion behind every item of the same time: a stable sort. */
  function InsertItem(sorted: seq<Item>, x: Item): seq<Item> {
    if sorted == [] || sorted[|sorted| - 1].time <= x.time then sorted + [x]
    else InsertItem(sorted[..|sorted| - 1], x) + [sorted[|sorted| - 1]]
  }

  function SortItems(items: seq<Item>): seq<Item> {
    if items == [] then [] else InsertItem(SortItems(items[..|items| - 1]), items[|items| - 1])
  }

  lemma {:induction false} InsertItemAdds(sorted: seq<Item>, x: Item)
    ensures multiset(InsertItem(sorted, x)) == multiset(sorted) + multiset{x}
  {
    if sorted != [] && sorted[|sorted| - 1].time > x.time {
      InsertItemAdds(sorted[..|sorted| - 1], x);
      assert sorted == sorted[..|sorted| - 1] + [sorted[|sorted| - 1]];
    }
  }

  lemma {:induction false} InsertItemMembers(sorted: seq<Item>, x: Item, y: Item)
    ensures y in InsertItem(sorted, x) ==> y in sorted || y == x
  {
    if sorted != [] && sorted[|sorted| - 1].time > x.time {
      InsertItemMembers(sorted[..|sorted| - 1], x, y);
    }
  }

  lemma {:induction false} InsertItemSorts(sorted: seq<Item>, x: Item)
    requires SortedByTime(sorted)
    ensures SortedByTime(InsertItem(sorted, x))
  {
    if sorted != [] && sorted[|sorted| - 1].time > x.time {
      var front, last := sorted[..|sorted| - 1], sorted[|sorted| - 1];
      InsertItemSorts(front, x);
      var most := InsertItem(front, x);
      forall j | 0 <= j < |most| ensures most[j].time <= last.time {
        InsertItemMembers(front, x, most[j]);
      }
    }
  }

  /** The items of one time, in their order. */
  function AtTime(items: seq<Item>, t: real): seq<Item> {
    if items == [] then []
    else AtTime(items[..|items| - 1], t) + if items[|items| - 1].time == t then [items[|items| - 1]] else []
  }

  lemma AtTimeSnoc(items: seq<Item>, x: Item, t: real)
    ensures AtTime(items + [x], t) == AtTime(items, t) + if x.time == t then [x] else []
  {
    assert (items + [x])[..|items|] == items;
  }

  lemma {:induction false} InsertItemStable(sorted: seq<Item>, x: Item, t: real)
    requires SortedByTime(sorted)
    ensures AtTime(InsertItem(sorted, x), t) == AtTime(sorted, t) + if x.time == t then [x] else []
  {
    if sorted == [] || sorted[|sorted| - 1].time <= x.time {
      AtTimeSnoc(sorted, x, t);
    } else {
      var front, last := sorted[..|sorted| - 1], sorted[|sorted| - 1];
      InsertItemStable(front, x, t);
      AtTimeSnoc(InsertItem(front, x), last, t);
      if last.time == t {
        assert x.time != t;
      }
    }
  }

  lemma {:induction false} SortItemsPermutes(items: seq<Item>)
    ensures multiset(SortItems(items)) == multiset(items)
  {
    if items != [] {
      SortItemsPermutes(items[..|items| - 1]);
      InsertItemAdds(SortItems(items[..|items| - 1]), items[|items| - 1]);
      assert items == items[..|items| - 1] + [items[|items| - 1]];
    }
  }

  lemma {:induction false} SortItemsOrders(items: seq<Item>)
    ensures SortedByTime(SortItems(items))
  {
    if items != [] {
      SortItemsOrders(items[..|items| - 1]);
      InsertItemSorts(SortItems(items[..|items| - 1]), items[|items| - 1]);
    }
  }

  lemma {:induction false} SortItemsStable(items: seq<Item>, t: real)
    ensures AtTime(SortItems(items), t) == AtTime(items, t)
  {
    if items != [] {
      SortItemsStable(items[..|items| - 1], t);
      SortItemsOrders(items[..|items| - 1]);
      InsertItemStable(SortItems(items[..|items| - 1]), items[|items| - 1], t);
    }
  }

  /** The sort the generator relies on: by time, a permutation, and stable. */
  lemma SortItemsSorts(items: seq<Item>, t: real)
    ensures SortedByTime(SortItems(items)) && multiset(SortItems(items)) == multiset(items)
    ensures AtTime(SortItems(items), t) == AtTime(items, t)
  {
    SortItemsOrders(items);
    SortItemsPermutes(items);
    SortItemsStable(items, t);
  }

  /** diff_list zipped with the arguments: the zip drops the last argument. */
  function Lines(sorted: seq<Item>): (lines: seq<Line>)
    requires sorted != []
  {
    seq(|sorted| - 1, k requires 0 <= k < |sorted| - 1 =>
      Line(sorted[0].time + (sorted[k + 1].time - sorted[k].time), sorted[k].arg))
  }

  // ---------- the schedule ----------

  /** next_request_time after `k + 1` lines. */
  function Request(lines: seq<Line>, start: real, k: nat): real
    requires k < |lines|
  {
    (if k == 0 then start else Request(lines, start, k - 1)) + lines[k].iat
  }

  /** `k` times `t`, added up. */
  function Times(k: nat, t: real): real {
    if k == 0 then 0.0 else Times(k - 1, t) + t
  }

  lemma {:induction false} TimesSigns(k: nat, t: real)
    ensures t == 0.0 ==> Times(k, t) == 0.0
    ensures k > 0 && t > 0.0 ==> Times(k, t) > 0.0
    ensures k > 0 && t < 0.0 ==> Times(k, t) < 0.0
  {
    if k > 0 {
      TimesSigns(k - 1, t);
    }
  }

  lemma {:induction false} TimesMonotone(j: nat, k: nat, t: real)
    requires j <= k && t >= 0.0
    ensures Times(j, t) <= Times(k, t)
  {
    if j < k {
      TimesMonotone(j, k - 1, t);
    }
  }

  /** The running sum in closed form: line k is due at the time of item k + 1, plus k times the first time. */
  lemma {:induction false} RequestTime(sorted: seq<Item>, start: real, k: nat)
    requires sorted != [] && k < |sorted| - 1
    ensures Request(Lines(sorted), start, k) == start + sorted[k + 1].time + Times(k, sorted[0].time)
  {
    if k > 0 {
      RequestTime(sorted, start, k - 1);
    }
  }

  lemma RequestsNondecreasing(sorted: seq<Item>, start: real, j: nat, k: nat)
    requires sorted != [] && SortedByTime(sorted) && sorted[0].time >= 0.0 && j <= k < |sorted| - 1
    ensures Request(Lines(sorted), start, j) <= Request(Lines(sorted), start, k)
  {
    RequestTime(sorted, start, j);
    RequestTime(sorted, start, k);
    TimesMonotone(j, k, sorted[0].time);
  }

  /**
   Every line is due at the time of the item behind it if and only if the trace starts at 0 or has at most one line.
   */
  lemma ScheduleIff(sorted: seq<Item>, start: real)
    requires sorted != []
    ensures (forall k: nat | k < |sorted| - 1 :: Request(Lines(sorted), start, k) == start + sorted[k + 1].time)
            <==> sorted[0].time == 0.0 || |sorted| <= 2
  {
    forall k: nat | k < |sorted| - 1
      ensures Request(Lines(sorted), start, k) == start + sorted[k + 1].time <==> sorted[0].time == 0.0 || k == 0
    {
      RequestTime(sorted, start, k);
      TimesSigns(k, sorted[0].time);
    }
    if |sorted| > 2 && sorted[0].time != 0.0 {
      var k: nat := 1;
      assert Request(Lines(sorted), start, k) != start + sorted[k + 1].time;
    }
  }

  /**
   An item is due at its own time only if the item behind it has the same time (and the trace starts at 0, or it is
   the first): the differences are one line off, and the last item has no line.
   */
  lemma OwnTimeIff(sorted: seq<Item>, start: real, k: nat)
    requires SortedByTime(sorted) && k < |sorted| - 1 && sorted[0].time >= 0.0
    ensures |Lines(sorted)| == |sorted| - 1 && Lines(sorted)[k].arg == sorted[k].arg
    ensures Request(Lines(sorted), start, k) >= start + sorted[k].time
    ensures Request(Lines(sorted), start, k) == start + sorted[k].time <==>
            sorted[k + 1].time == sorted[k].time && (sorted[0].time == 0.0 || k == 0)
  {
    RequestTime(sorted, start, k);
    TimesSigns(k, sorted[0].time);
  }

  // ---------- the dispatcher ----------

  /**
   A put: the item, its request time, the clock when the round began, the sleep asked for, the last clock reading before
   the put, and which readings of the clock these two were.
   */
  datatype Put = Put(arg: Bytes, index: nat, request: real, now: real, slept: real, at: real, began: nat, ended: nat)

  /** A clock that is read again and again, never goes back and passes every time. */
  ghost predicate IsClock(clock: nat -> real, reach: real -> nat) {
    && (forall i, j | 0 <= i <= j :: clock(i) <= clock(j))
    && (forall t: real :: t <= clock(reach(t)))
  }

  /** A put due at `request`: at once if the round began late, else at the first look at the clock that reaches it. */
  ghost predicate PutAt(arg: Bytes, index: nat, request: real, clock: nat -> real, put: Put) {
    && put.arg == arg && put.index == index && put.request == request
    && put.began <= put.ended && put.now == clock(put.began) && put.at == clock(put.ended)
    && put.now <= put.at && put.request <= put.at
    && (put.now >= put.request ==> put.ended == put.began && put.slept == 0.0)
    && (forall r | put.began <= r < put.ended :: clock(r) < put.request)
    && (put.request - put.now > 0.002 ==> put.now + put.slept == put.request - 0.001)
    && (put.now < put.request <= put.now + 0.002 ==> put.slept == 0.0)
  }

  /** The put of line k: in file order, due at the running sum. */
  ghost predicate PutOf(lines: seq<Line>, start: real, clock: nat -> real, k: nat, put: Put) {
    k < |lines| && PutAt(lines[k].arg, k, Request(lines, start, k), clock, put)
  }

  lemma PutOfLine(lines: seq<Line>, start: real, clock: nat -> real, k: nat, put: Put)
    requires k < |lines| && PutAt(lines[k].arg, k, Request(lines, start, k), clock, put)
    ensures PutOf(lines, start, clock, k, put)
  {
  }

  /** Each round takes up the readings of the clock where the one before left them, from the first up to `reading`. */
  predicate Consecutive(puts: seq<Put>, reading: nat) {
    if puts == [] then reading == 0
    else puts[|puts| - 1].ended + 1 == reading && Consecutive(puts[..|puts| - 1], puts[|puts| - 1].began)
  }

  /** One round, from the `reading`-th look at the clock on: sleep if there is time, wait out the rest, put. */
  method DispatchOne(arg: Bytes, index: nat, request: real, reading: nat, clock: nat -> real, ghost reach: real -> nat)
    returns (put: Put)
    requires IsClock(clock, reach)
    ensures PutAt(arg, index, request, clock, put)
    ensures put.began == reading <= put.ended && put.now == clock(reading) && put.at == clock(put.ended)
  {
    var now := clock(reading);
    var slept, ended := 0.0, reading;
    if now < request {
      var diff := request - now;
      if diff > 0.002 {
        slept := diff - 0.001;
      }
      ended := reading + 1;
      while clock(ended) < request
        invariant reading < ended && forall r | reading <= r < ended :: clock(r) < request
        decreases reach(request) - ended
      {
        assert ended < reach(request);
        ended := ended + 1;
      }
    }
    put := Put(arg, index, request, now, slept, clock(ended), reading, ended);
  }

  /** The main loop: whatever the clock does between two readings, no put comes before its request time. */
  method DispatchAll(lines: seq<Line>, start: real, clock: nat -> real, ghost reach: real -> nat)
    returns (puts: seq<Put>)
    requires IsClock(clock, reach)
    ensures |puts| == |lines| && forall k | 0 <= k < |puts| :: PutOf(lines, start, clock, k, puts[k])
    ensures puts != [] ==> Consecutive(puts, puts[|puts| - 1].ended + 1)
    ensures forall j, k | 0 <= j < k < |puts| :: puts[j].at <= puts[k].now
  {
    hide PutAt, PutOf;
    var workload := seq(|lines|, k requires 0 <= k < |lines| => lines[|lines| - 1 - k]);
    var request, reading: nat := start, 0;
    puts := [];
    while |puts| < |lines|
      invariant |workload| + |puts| == |lines|
      invariant forall k | 0 <= k < |workload| :: workload[k] == lines[|lines| - 1 - k]
      invariant request == if |puts| == 0 then start else Request(lines, start, |puts| - 1)
      invariant forall k | 0 <= k < |puts| :: PutOf(lines, start, clock, k, puts[k])
      invariant Consecutive(puts, reading)
      invariant forall j, k | 0 <= j < k < |puts| :: puts[j].at <= puts[k].now
      invariant forall k | 0 <= k < |puts| :: puts[k].at <= clock(reading)
    {
      var line := workload[|workload| - 1];
      workload := workload[..|workload| - 1];
      request := request + line.iat;
      var put := DispatchOne(line.arg, |puts|, request, reading, clock, reach);
      PutOfLine(lines, start, clock, |puts|, put);
      assert clock(reading) <= put.at <= clock(put.ended + 1);
      assert (puts + [put])[..|puts|] == puts;
      puts := puts + [put];
      reading := put.ended + 1;
    }
  }

  /** With nothing in the trace before time 0, a put comes no earlier than the time of the item behind its own. */
  lemma PutInTime(sorted: seq<Item>, start: real, clock: nat -> real, k: nat, put: Put)
    requires sorted != [] && sorted[0].time >= 0.0 && k < |sorted| - 1 && PutOf(Lines(sorted), start, clock, k, put)
    ensures put.arg == sorted[k].arg && put.index == k
    ensures put.at >= put.request == Request(Lines(sorted), start, k) >= start + sorted[k + 1].time
    ensures put.now <= put.at
    ensures sorted[0].time == 0.0 ==> put.request == start + sorted[k + 1].time
  {
    RequestTime(sorted, start, k);
    TimesSigns(k, sorted[0].time);
  }

  lemma SortedShape(items: seq<Item>)
    requires items != [] && forall i | 0 <= i < |items| :: items[i].time >= 0.0
    ensures var sorted := SortItems(items);
      |sorted| == |items| && SortedByTime(sorted) && sorted[0].time >= 0.0
  {
    var sorted := SortItems(items);
    SortItemsSorts(items, 0.0);
    assert |sorted| == |multiset(sorted)| == |items|;
    assert sorted[0] in multiset(items);
  }

  /** Generation, file and replay together: item k of the sorted trace is put k-th, never before start + time[k + 1]. */
  method ReplayTrace(items: seq<Item>, start: real, clock: nat -> real, ghost reach: real -> nat)
    returns (puts: seq<Put>)
    requires items != [] && IsClock(clock, reach)
    requires forall i | 0 <= i < |items| :: items[i].time >= 0.0
    ensures |puts| == |items| - 1
    ensures |SortItems(items)| == |items|
    ensures forall k | 0 <= k < |puts| :: puts[k].arg == SortItems(items)[k].arg && puts[k].index == k
    ensures forall k | 0 <= k < |puts| :: puts[k].at >= puts[k].request >= start + SortItems(items)[k + 1].time
    ensures SortItems(items)[0].time == 0.0 ==>
              forall k | 0 <= k < |puts| :: puts[k].request == start + SortItems(items)[k + 1].time
    ensures forall j, k | 0 <= j < k < |puts| :: puts[j].request <= puts[k].request && puts[j].at <= puts[k].at
  {
    hide SortItems, SortedByTime, PutOf, Request;
    var sorted := SortItems(items);
    SortedShape(items);
    puts := DispatchAll(Lines(sorted), start, clock, reach);
    forall k | 0 <= k < |puts|
      ensures puts[k].arg == sorted[k].arg && puts[k].index == k && puts[k].now <= puts[k].at
      ensures puts[k].at >= puts[k].request == Request(Lines(sorted), start, k) >= start + sorted[k + 1].time
      ensures sorted[0].time == 0.0 ==> puts[k].request == start + sorted[k + 1].time
    {
      PutInTime(sorted, start, clock, k, puts[k]);
    }
    forall j, k | 0 <= j < k < |puts| ensures puts[j].request <= puts[k].request && puts[j].at <= puts[k].at {
      RequestsNondecreasing(sorted, start, j, k);
    }
  }
}

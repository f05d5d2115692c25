/**
 The daemon's side in place: a singly linked tail queue threaded through the `tasks` array, the drain of the
 request queue, the batch dispatch and the main loop.  The list is the protocol's list, and each function is a run
 of the protocol's daemon steps.
 */
module DispatchList {
  import opened U64
  import opened UserParser
  import opened AskProtocol

  const ENOENT := 2
  const NULL := -1

  /** sizeof(struct enqueued_task): a link, a u64 and a padded bool. */
  const SLOT_SIZE := 24

  function AddressOf(base: nat, pid: nat): nat {
    base + pid * SLOT_SIZE
  }

  /** task_pid: pointer difference, truncated to 32 bits. */
  function TaskPid(base: nat, address: nat): nat
    requires base <= address
  {
    ((address - base) / SLOT_SIZE) % 0x1_0000_0000
  }

  /** task_pid inverts the address of an array element, for every pid an s32 can hold. */
  lemma TaskPidInverts(base: nat, pid: nat)
    ensures TaskPid(base, AddressOf(base, pid)) == pid <==> pid < 0x1_0000_0000
  {
    assert (pid * SLOT_SIZE) / SLOT_SIZE == pid;
  }

  /** One element of `tasks`; `next` is the index of the next element, or NULL. */
  datatype Slot = Slot(next: int, slice: u64, isQueued: bool)

  /** What the daemon shares with the kernel: the two queues and the two counters. */
  class Maps {
    var enqueued: seq<Pid>
    var dispatched: seq<Entry>
    var nrQueued: int
    var nrScheduled: int
  }

  // ----- specifications

  /** The daemon after listing the first `n` of these popped pids one by one. */
  function Listed(cfg: Config, d: AskProtocol.Daemon, pids: seq<Pid>, n: nat): (r: AskProtocol.Daemon)
    requires d.pc.Drain? && n <= |pids|
    ensures r.pc.Drain?
  {
    if n == 0 then d else DoList(cfg, Listed(cfg, d, pids, n - 1).(pc := Hand(pids[n - 1])))
  }

  lemma ListedStep(cfg: Config, d: AskProtocol.Daemon, pids: seq<Pid>, i: nat)
    requires d.pc.Drain? && i < |pids|
    ensures Listed(cfg, d, pids, i + 1) == DoList(cfg, Listed(cfg, d, pids, i).(pc := Hand(pids[i])))
  {}

  /** How many of the leading pids fit the array. */
  function Fitting(pids: seq<Pid>, pidMax: nat): (k: nat)
    ensures k <= |pids|
    ensures forall i | 0 <= i < k :: pids[i] < pidMax
    ensures k < |pids| ==> pids[k] >= pidMax
    decreases |pids|
  {
    if pids == [] || pids[0] >= pidMax then 0 else 1 + Fitting(pids[1..], pidMax)
  }

  /** How many tasks a batch moves: as many as it may, has, and finds room for. */
  function BatchSize(cfg: Config, list: seq<Entry>, dispatched: seq<Entry>): (m: nat)
    ensures m <= |list|
  {
    Min(cfg.batch, Min(|list|, Max(0, cfg.capacity - |dispatched|)))
  }

  /** The daemon after a batch; one that stops with more to move and more allowed has met a full queue once. */
  function Batched(cfg: Config, d: AskProtocol.Daemon, dispatched: seq<Entry>): AskProtocol.Daemon {
    var m := BatchSize(cfg, d.list, dispatched);
    AskProtocol.Daemon(Check, d.list[m..], d.nrCurr - m, d.nrIn, d.nrOut + m,
                       d.nrFailed + if m < cfg.batch && m < |d.list| then 1 else 0)
  }

  /** The daemon after `i` moves. */
  function Moved(d: AskProtocol.Daemon, i: nat): AskProtocol.Daemon
    requires i <= |d.list|
  {
    d.(list := d.list[i..], nrCurr := d.nrCurr - i, nrOut := d.nrOut + i)
  }

  /** The daemon in the middle of a batch; a push that found no room has been counted. */
  function MidBatch(d: AskProtocol.Daemon, i: nat, go: bool): AskProtocol.Daemon
    requires i <= |d.list|
  {
    Moved(d, i).(nrFailed := d.nrFailed + if go || i == |d.list| then 0 else 1)
  }

  lemma MoveInBatch(cfg: Config, d: AskProtocol.Daemon, sent: seq<Entry>, i: nat)
    requires i <= BatchSize(cfg, d.list, sent) && i < cfg.batch
    ensures var was := MidBatch(d, i, true);
      && (i < BatchSize(cfg, d.list, sent) <==> was.list != [] && |sent + d.list[..i]| < cfg.capacity)
      && MidBatch(d, i, false) == was.(nrFailed := was.nrFailed + if was.list == [] then 0 else 1)
    ensures i < BatchSize(cfg, d.list, sent) ==>
      var was := MidBatch(d, i, true);
      && MidBatch(d, i + 1, true) == was.(list := was.list[1..], nrCurr := was.nrCurr - 1, nrOut := was.nrOut + 1)
      && sent + d.list[..i] + [was.list[0]] == sent + d.list[..i + 1]
  {
    if i < |d.list| {
      assert d.list[..i] + [d.list[i]] == d.list[..i + 1];
    }
  }

  /** The loop of a batch leaves exactly what a batch should. */
  lemma BatchEnds(cfg: Config, d: AskProtocol.Daemon, sent: seq<Entry>, i: nat, go: bool)
    requires i <= BatchSize(cfg, d.list, sent) && (go ==> i >= cfg.batch)
    requires !go ==> i == BatchSize(cfg, d.list, sent) < cfg.batch
    ensures i == BatchSize(cfg, d.list, sent) && MidBatch(d, i, go).(pc := Check) == Batched(cfg, d, sent)
  {
  }

  function CeilDiv(n: nat, d: nat): nat
    requires d > 0
  {
    (n + d - 1) / d
  }

  /** Passes of the main loop for n pending tasks: one, and one more for every full batch that leaves something. */
  function Passes(n: nat, batch: nat): nat
    requires batch > 0
  {
    if n <= batch then 1 else 1 + Passes(n - batch, batch)
  }

  lemma MulMonotone(a: nat, b: nat, d: nat)
    requires a <= b
    ensures a * d <= b * d
  {
    assert b * d == a * d + (b - a) * d;
  }

  lemma QuotientIs(n: nat, d: nat, q: nat, r: nat)
    requires d > 0 && n == q * d + r && r < d
    ensures n / d == q
  {
    var k := n / d;
    assert k * d <= n < k * d + d;
    if k < q {
      MulMonotone(k + 1, q, d);
    } else if q < k {
      MulMonotone(q + 1, k, d);
    }
  }

  lemma {:induction false} PassesIsCeiling(n: nat, batch: nat)
    requires batch > 0
    ensures Passes(n, batch) == Max(1, CeilDiv(n, batch))
    decreases n
  {
    if n == 0 {
      QuotientIs(batch - 1, batch, 0, batch - 1);
    } else if n <= batch {
      QuotientIs(n + batch - 1, batch, 1, n - 1);
    } else {
      PassesIsCeiling(n - batch, batch);
      var x := n - 1;
      QuotientIs(n + batch - 1, batch, x / batch + 1, x % batch);
      QuotientIs(x, batch, x / batch, x % batch);
    }
  }

  ghost predicate Distinct(q: seq<nat>) {
    forall i, j | 0 <= i < j < |q| :: q[i] != q[j]
  }

  /** The codes of the configuration are those computed from these command lines. */
  ghost predicate CodesFrom(cfg: Config, files: Pid -> File) {
    forall p: Pid :: cfg.codes(p) == CodeFor(files(p))
  }

  /** What follows the i-th element of a list. */
  function Successor(q: seq<nat>, i: nat): int {
    if i + 1 < |q| then q[i + 1] else NULL
  }

  ghost predicate Within(q: seq<nat>, slots: seq<Slot>) {
    forall i | 0 <= i < |q| :: q[i] < |slots|
  }

  /** The links from the head spell `q`, which names no element twice. */
  ghost predicate Chain(q: seq<nat>, slots: seq<Slot>, first: int, last: int) {
    && Within(q, slots)
    && Distinct(q)
    && first == (if q == [] then NULL else q[0])
    && last == (if q == [] then NULL else q[|q| - 1])
    && (forall i {:trigger Successor(q, i)} | 0 <= i < |q| :: slots[q[i]].next == Successor(q, i))
  }

  /** is_queued marks exactly the members. */
  ghost predicate Marks(q: seq<nat>, slots: seq<Slot>) {
    forall p {:trigger slots[p].isQueued} | 0 <= p < |slots| :: slots[p].isQueued <==> p in q
  }

  ghost function Entries(q: seq<nat>, slots: seq<Slot>): seq<Entry>
    requires Within(q, slots)
  {
    seq(|q|, i requires 0 <= i < |q| && Within(q, slots) => Entry(q[i], slots[q[i]].slice))
  }

  /** The two link writes of a tail insertion; `last` is NULL on an empty list. */
  function Linked(slots: seq<Slot>, last: int, p: nat): seq<Slot>
    requires p < |slots| && (last == NULL || 0 <= last < |slots|)
  {
    var cut := slots[p := slots[p].(next := NULL)];
    if last == NULL then cut else cut[last := cut[last].(next := p)]
  }

  lemma InsertKeepsChain(q: seq<nat>, slots: seq<Slot>, first: int, last: int, p: nat)
    requires Chain(q, slots, first, last) && p < |slots| && p !in q
    ensures last == NULL || 0 <= last < |slots|
    ensures Chain(q + [p], Linked(slots, last, p), if q == [] then p else first, p)
    ensures Entries(q + [p], Linked(slots, last, p)) == Entries(q, slots) + [Entry(p, slots[p].slice)]
    ensures forall x | 0 <= x < |slots| :: Linked(slots, last, p)[x].isQueued == slots[x].isQueued
  {
    var q', slots' := q + [p], Linked(slots, last, p);
    forall i | 0 <= i < |q'| ensures slots'[q'[i]].next == Successor(q', i) {
      if i < |q| {
        assert q'[i] == q[i] && slots[q[i]].next == Successor(q, i);
      }
    }
  }

  /** The element of a newly admitted pid before it is linked. */
  function Admitted(slots: seq<Slot>, p: nat, slice: u64): seq<Slot>
    requires p < |slots|
  {
    slots[p := slots[p].(isQueued := true, slice := slice)]
  }

  lemma AdmitKeepsChain(q: seq<nat>, slots: seq<Slot>, first: int, last: int, p: nat, slice: u64)
    requires Chain(q, slots, first, last) && Marks(q, slots) && p < |slots| && !slots[p].isQueued
    ensures p !in q && (last == NULL || 0 <= last < |slots|)
    ensures Chain(q, Admitted(slots, p, slice), first, last)
    ensures var after := Linked(Admitted(slots, p, slice), last, p);
      && Chain(q + [p], after, if q == [] then p else first, p)
      && Marks(q + [p], after)
      && Entries(q + [p], after) == Entries(q, slots) + [Entry(p, slice)]
  {
    var s := Admitted(slots, p, slice);
    assert Entries(q, s) == Entries(q, slots);
    InsertKeepsChain(q, s, first, last, p);
    var after := Linked(s, last, p);
    forall x | 0 <= x < |after| ensures after[x].isQueued <==> x in q + [p] {
      assert after[x].isQueued == s[x].isQueued;
    }
  }

  lemma RemoveKeepsChain(q: seq<nat>, slots: seq<Slot>, first: int, last: int)
    requires Chain(q, slots, first, last) && q != []
    ensures 0 <= first < |slots|
    ensures var next := slots[first].next; Chain(q[1..], slots, next, if next == NULL then NULL else last)
    ensures Entries(q[1..], slots) == Entries(q, slots)[1..]
  {
    assert slots[q[0]].next == Successor(q, 0);
    forall i | 0 <= i < |q[1..]| ensures slots[q[1..][i]].next == Successor(q[1..], i) {
      assert q[1..][i] == q[i + 1] && slots[q[i + 1]].next == Successor(q, i + 1);
    }
  }

  lemma UnmarkKeepsList(q: seq<nat>, slots: seq<Slot>, first: int, last: int)
    requires Chain(q, slots, first, last) && Marks(q, slots) && q != []
    ensures 0 <= first < |slots|
    ensures var after := slots[first := slots[first].(isQueued := false)];
      var next := slots[first].next;
      && Chain(q[1..], after, next, if next == NULL then NULL else last)
      && Marks(q[1..], after)
      && Entries(q[1..], after) == Entries(q, slots)[1..]
  {
    RemoveKeepsChain(q, slots, first, last);
    var after := slots[first := slots[first].(isQueued := false)];
    forall x | 0 <= x < |after| ensures after[x].isQueued <==> x in q[1..] {
      assert q == [q[0]] + q[1..];
    }
    assert Entries(q[1..], after) == Entries(q[1..], slots);
  }

  /** is_queued is membership in the abstract list. */
  lemma MarksList(q: seq<nat>, slots: seq<Slot>, p: nat)
    requires Within(q, slots) && Marks(q, slots) && p < |slots|
    ensures slots[p].isQueued <==> Lists(Entries(q, slots), p)
  {
    if p in q {
      var i :| 0 <= i < |q| && q[i] == p;
      assert Entries(q, slots)[i].pid == p;
    }
  }

  class Daemon {
    const cfg: Config
    const files: Pid -> File
    const tasks: array<Slot>
    const maps: Maps
    var first: int
    var last: int  // owner of the link that the next tail insertion writes; NULL is the head itself
    var nrCurr: int
    var nrIn: int
    var nrOut: int
    var nrFailed: int
    var nrNoCmdline: int
    var exitReq: bool
    ghost var queue: seq<nat>   // the elements the links run through
    ghost var list: seq<Entry>  // what the list stands for

    /** The links spell `queue`, the marks agree with it, and `list` is what it stands for. */
    ghost predicate Shape()
      reads this`queue, this`list, this`first, this`last, tasks
    {
      Chain(queue, tasks[..], first, last) && Marks(queue, tasks[..]) && list == Entries(queue, tasks[..])
    }

    ghost predicate Valid()
      reads this, tasks
    {
      Shape() && nrCurr == |list| && nrIn == nrOut + nrCurr && CodesFrom(cfg, files)
    }

    /** The daemon as the protocol sees it. */
    ghost function View(pc: DaemonPc): AskProtocol.Daemon
      reads this
    {
      AskProtocol.Daemon(pc, list, nrCurr, nrIn, nrOut, nrFailed)
    }

    constructor (cfg: Config, files: Pid -> File, pidMax: nat, maps: Maps)
      requires CodesFrom(cfg, files)
      ensures Valid() && fresh(tasks) && tasks.Length == pidMax && this.maps == maps && this.cfg == cfg
      ensures View(Drain) == START.d
    {
      this.cfg, this.files, this.maps := cfg, files, maps;
      tasks := new Slot[pidMax](_ => Slot(NULL, 0, false));
      first, last, nrCurr, nrIn, nrOut, nrFailed, nrNoCmdline, exitReq := NULL, NULL, 0, 0, 0, 0, 0, false;
      queue, list := [], [];
    }

    /** STAILQ_INSERT_HEAD or STAILQ_INSERT_TAIL, whichever the list calls for. */
    method Insert(p: nat)
      requires p < tasks.Length && p !in queue && Chain(queue, tasks[..], first, last)
      modifies this`first, this`last, this`queue, tasks
      ensures old(last) == NULL || 0 <= old(last) < tasks.Length
      ensures queue == old(queue) + [p] && tasks[..] == Linked(old(tasks[..]), old(last), p)
      ensures last == p && first == if old(queue) == [] then p else old(first)
    {
      InsertKeepsChain(queue, tasks[..], first, last, p);
      tasks[p] := tasks[p].(next := NULL);
      if first == NULL {
        first := p;
      } else {
        tasks[last] := tasks[last].(next := p);
      }
      assert tasks[..] == Linked(old(tasks[..]), old(last), p);
      last := p;
      queue := queue + [p];
    }

    /** STAILQ_REMOVE of the first element. */
    method RemoveFirst()
      requires queue != [] && Chain(queue, tasks[..], first, last)
      modifies this`first, this`last, this`queue
      ensures 0 <= old(first) < tasks.Length && queue == old(queue[1..])
      ensures first == tasks[old(first)].next && last == if first == NULL then NULL else old(last)
    {
      RemoveKeepsChain(queue, tasks[..], first, last);
      first := tasks[first].next;
      if first == NULL {
        last := NULL;
      }
      queue := queue[1..];
    }

    /** The part of local_enqueue_task that computes the code of a process. */
    method CodeOf(pid: nat) returns (slice: u64)
      modifies this`nrNoCmdline
      ensures slice == CodeFor(files(pid))
      ensures files(pid).Unreadable? || files(pid).bytes == [] ==> slice == 0 && nrNoCmdline == old(nrNoCmdline) + 1
      ensures files(pid).Readable? && files(pid).bytes != [] ==> nrNoCmdline == old(nrNoCmdline)
    {
      slice := 0;
      var taskArg := new Decimal.byte[CMDLINE_BUF];
      var got := ReadCmdline(files(pid), taskArg);
      if got < 0 {
        nrNoCmdline := nrNoCmdline + 1;
        return;
      }
      var fibArg := ParseFibArg(CString(taskArg[..]));
      if fibArg >= 0 {
        slice := Slices.UserCode(fibArg);
      }
    }

    /** Mark, count, compute the code, link. */
    method Admit(pid: nat)
      requires pid < tasks.Length && pid !in queue && !tasks[pid].isQueued && (last == NULL || 0 <= last < tasks.Length)
      requires Chain(queue, Admitted(tasks[..], pid, CodeFor(files(pid))), first, last)
      modifies this`nrIn, this`nrCurr, this`nrNoCmdline, this`first, this`last, this`queue, tasks
      ensures tasks[..] == Linked(Admitted(old(tasks[..]), pid, CodeFor(files(pid))), old(last), pid)
      ensures queue == old(queue) + [pid] && last == pid && first == if old(queue) == [] then pid else old(first)
      ensures nrIn == old(nrIn) + 1 && nrCurr == old(nrCurr) + 1
    {
      ghost var was := tasks[..];
      tasks[pid] := tasks[pid].(isQueued := true);
      nrIn := nrIn + 1;
      nrCurr := nrCurr + 1;
      var slice := CodeOf(pid);
      tasks[pid] := tasks[pid].(slice := slice);
      assert tasks[..] == Admitted(was, pid, slice);
      Insert(pid);
    }

    /** local_enqueue_task: ignore a pid that is still queued, else append it with its code. */
    method LocalEnqueueTask(pid: nat) returns (err: int)
      requires Valid()
      modifies this`nrIn, this`nrCurr, this`nrNoCmdline, this`first, this`last, this`queue, this`list, tasks
      ensures Valid()
      ensures err == if pid >= tasks.Length then ENOENT else 0
      ensures View(Drain) == if err != 0 then old(View(Drain)) else DoList(cfg, old(View(Hand(pid))))
    {
      err := if pid >= tasks.Length then ENOENT else 0;
      if pid < tasks.Length {
        MarksList(queue, tasks[..], pid);
        if !tasks[pid].isQueued {
          AdmitKeepsChain(queue, tasks[..], first, last, pid, cfg.codes(pid));
          Admit(pid);
          list := list + [Entry(pid, cfg.codes(pid))];
        }
      }
    }

    /** One successful pop of the drain loop. */
    method DrainRound() returns (err: int)
      requires Valid() && maps.enqueued != []
      modifies this`nrIn, this`nrCurr, this`nrNoCmdline, this`first, this`last, this`queue, this`list, tasks,
               maps`enqueued
      ensures Valid()
      ensures maps.enqueued == old(maps.enqueued)[1..]
      ensures err == if old(maps.enqueued)[0] >= tasks.Length then ENOENT else 0
      ensures View(Drain) ==
        if err != 0 then old(View(Drain)) else DoList(cfg, old(View(Drain)).(pc := Hand(old(maps.enqueued)[0])))
    {
      var task := maps.enqueued[0];
      maps.enqueued := maps.enqueued[1..];
      err := LocalEnqueueTask(task);
    }

    /** Pop and list until the queue is empty or a pid is beyond the array. */
    method DrainLoop() returns (err: int)
      requires Valid()
      modifies this`nrIn, this`nrCurr, this`nrNoCmdline, this`first, this`last, this`queue, this`list, tasks,
               maps`enqueued
      ensures Valid()
      ensures View(Drain) ==
              Listed(cfg, old(View(Drain)), old(maps.enqueued), Fitting(old(maps.enqueued), tasks.Length))
      ensures err == 0 <==> Fitting(old(maps.enqueued), tasks.Length) == |old(maps.enqueued)|
      ensures maps.enqueued ==
        if err == 0 then [] else old(maps.enqueued)[Fitting(old(maps.enqueued), tasks.Length) + 1..]
    {
      hide Chain;
      hide Marks;
      ghost var was, start, k := maps.enqueued, View(Drain), Fitting(maps.enqueued, tasks.Length);
      ghost var i := 0;
      while maps.enqueued != []
        invariant 0 <= i <= k && Valid() && maps.enqueued == was[i..]
        invariant View(Drain) == Listed(cfg, start, was, i)
        decreases |maps.enqueued|
      {
        ListedStep(cfg, start, was, i);
        assert maps.enqueued[0] == was[i] && maps.enqueued[1..] == was[i + 1..];
        err := DrainRound();
        if err != 0 {
          return;
        }
        i := i + 1;
      }
      err := 0;
    }

    /** drain_enqueued_map: an empty queue publishes the counters, a pid beyond the array ends the daemon. */
    method DrainEnqueuedMap()
      requires Valid()
      modifies this`nrIn, this`nrCurr, this`nrNoCmdline, this`first, this`last, this`queue, this`list, this`exitReq,
               tasks
      modifies maps`enqueued, maps`nrQueued, maps`nrScheduled
      ensures Valid()
      ensures View(Drain) ==
              Listed(cfg, old(View(Drain)), old(maps.enqueued), Fitting(old(maps.enqueued), tasks.Length))
      ensures var was, k := old(maps.enqueued), Fitting(old(maps.enqueued), tasks.Length);
        if k == |was| then
          maps.enqueued == [] && maps.nrQueued == 0 && maps.nrScheduled == nrCurr && exitReq == old(exitReq)
        else
          && maps.enqueued == was[k + 1..] && exitReq
          && maps.nrQueued == old(maps.nrQueued) && maps.nrScheduled == old(maps.nrScheduled)
    {
      var err := DrainLoop();
      if err != 0 {
        exitReq := true;
      } else {
        maps.nrQueued := 0;
        maps.nrScheduled := nrCurr;
      }
    }

    /** dispatch_task: the push to the kernel. */
    method DispatchTask(task: Entry) returns (err: int)
      modifies this`nrOut, this`nrFailed, maps`dispatched
      ensures if |old(maps.dispatched)| < cfg.capacity
        then
          && err == 0 && maps.dispatched == old(maps.dispatched) + [task]
          && nrOut == old(nrOut) + 1 && nrFailed == old(nrFailed)
        else err != 0 && maps.dispatched == old(maps.dispatched) && nrOut == old(nrOut) && nrFailed == old(nrFailed) + 1
    {
      if |maps.dispatched| < cfg.capacity {
        maps.dispatched := maps.dispatched + [task];
        nrOut := nrOut + 1;
        err := 0;
      } else {
        nrFailed := nrFailed + 1;
        err := -7;
      }
    }

    /** Take the head off the list after its push. */
    method DropHead()
      requires Shape() && list != []
      modifies this`first, this`last, this`queue, this`list, this`nrCurr, tasks
      ensures Shape() && list == old(list)[1..] && nrCurr == old(nrCurr) - 1
    {
      ghost var was := tasks[..];
      UnmarkKeepsList(queue, was, first, last);
      var head := first;
      RemoveFirst();
      tasks[head] := tasks[head].(isQueued := false);
      assert tasks[..] == was[head := was[head].(isQueued := false)];
      nrCurr := nrCurr - 1;
      list := list[1..];
    }

    /** One round of the batch loop; false when the loop breaks. */
    method DispatchHead() returns (moved: bool)
      requires Valid()
      modifies this`first, this`last, this`queue, this`list, this`nrCurr, this`nrOut, this`nrFailed, tasks,
               maps`dispatched
      ensures Valid()
      ensures moved <==> old(list) != [] && |old(maps.dispatched)| < cfg.capacity
      ensures var was := old(View(Drain));
        if moved then
          && View(Drain) == was.(list := was.list[1..], nrCurr := was.nrCurr - 1, nrOut := was.nrOut + 1)
          && maps.dispatched == old(maps.dispatched) + [was.list[0]]
        else
          && View(Drain) == was.(nrFailed := was.nrFailed + if was.list == [] then 0 else 1)
          && maps.dispatched == old(maps.dispatched)
    {
      if first == NULL {
        return false;
      }
      var err := DispatchTask(Entry(first, tasks[first].slice));
      if err != 0 {
        return false;
      }
      DropHead();
      return true;
    }

    /** dispatch_batch: moves exactly BatchSize tasks, the front of the list in order, and keeps the head on failure. */
    method DispatchBatch()
      requires Valid()
      modifies this`first, this`last, this`queue, this`list, this`nrCurr, this`nrOut, this`nrFailed, tasks
      modifies maps`dispatched, maps`nrScheduled
      ensures Valid()
      ensures View(Check) == Batched(cfg, old(View(Drain)), old(maps.dispatched))
      ensures maps.dispatched == old(maps.dispatched) + old(list)[..BatchSize(cfg, old(list), old(maps.dispatched))]
      ensures maps.nrScheduled == nrCurr
    {
      hide Chain;
      hide Marks;
      ghost var was, sent := View(Drain), maps.dispatched;
      ghost var m := BatchSize(cfg, was.list, sent);
      var i, go := 0, true;
      while i < cfg.batch && go
        invariant Valid() && 0 <= i <= m && (!go ==> i == m < cfg.batch)
        invariant View(Drain) == MidBatch(was, i, go) && maps.dispatched == sent + was.list[..i]
        decreases cfg.batch - i, go
      {
        MoveInBatch(cfg, was, sent, i);
        go := DispatchHead();
        if go {
          i := i + 1;
        }
      }
      BatchEnds(cfg, was, sent, i, go);
      maps.nrScheduled := nrCurr;
    }

    /**
     One pass of sched_main_loop; `idle` when it goes on to wait for a message.  A pid beyond the array asks for the
     exit, but the batch is still sent.  The counter needs no correction.
     */
    method Iterate() returns (idle: bool)
      requires Valid()
      modifies this`nrIn, this`nrCurr, this`nrNoCmdline, this`first, this`last, this`queue, this`list, this`nrOut,
               this`nrFailed
      modifies this`exitReq, tasks, maps`enqueued, maps`nrQueued, maps`nrScheduled, maps`dispatched
      ensures Valid() && maps.nrScheduled == nrCurr
      ensures var was, k := old(maps.enqueued), Fitting(old(maps.enqueued), tasks.Length);
        var d := Listed(cfg, old(View(Drain)), was, k);
        && maps.enqueued == (if k == |was| then [] else was[k + 1..])
        && (exitReq <==> old(exitReq) || k < |was|)
        && View(Check) == Batched(cfg, d, old(maps.dispatched))
        && maps.dispatched == old(maps.dispatched) + d.list[..BatchSize(cfg, d.list, old(maps.dispatched))]
      ensures idle <==> list == []
      ensures idle ==> maps.nrScheduled == 0
    {
      DrainEnqueuedMap();
      DispatchBatch();
      idle := first == NULL;
      if idle && nrCurr != 0 {
        assert false;
      }
    }

    /** A pass with no new arrivals and room for the whole list. */
    method QuietPass() returns (idle: bool)
      requires Valid() && maps.enqueued == [] && |maps.dispatched| + |list| <= cfg.capacity
      modifies this`nrIn, this`nrCurr, this`nrNoCmdline, this`first, this`last, this`queue, this`list, this`nrOut,
               this`nrFailed
      modifies this`exitReq, tasks, maps`enqueued, maps`nrQueued, maps`nrScheduled, maps`dispatched
      ensures Valid() && maps.enqueued == [] && exitReq == old(exitReq)
      ensures |list| == Max(0, |old(list)| - cfg.batch)
      ensures maps.dispatched + list == old(maps.dispatched) + old(list)
      ensures idle <==> list == []
      ensures idle ==> maps.nrScheduled == 0
    {
      ghost var was, sent := list, maps.dispatched;
      ghost var m := BatchSize(cfg, was, sent);
      idle := Iterate();
      assert sent + was[..m] + was[m..] == sent + was;
    }

    /**
     The main loop with no new arrivals and room for everything: everything listed goes out in order, and the daemon
     waits after exactly max(1, ceil(n / batch)) passes.
     */
    method RunUntilWait() returns (passes: nat)
      requires Valid() && !exitReq && cfg.batch >= 1
      requires maps.enqueued == [] && |maps.dispatched| + |list| <= cfg.capacity
      modifies this`nrIn, this`nrCurr, this`nrNoCmdline, this`first, this`last, this`queue, this`list, this`nrOut,
               this`nrFailed
      modifies this`exitReq, tasks, maps`enqueued, maps`nrQueued, maps`nrScheduled, maps`dispatched
      ensures Valid() && list == [] && maps.enqueued == [] && maps.nrScheduled == 0
      ensures maps.dispatched == old(maps.dispatched) + old(list)
      ensures passes == Max(1, CeilDiv(|old(list)|, cfg.batch))
    {
      ghost var goal, n := maps.dispatched + list, |list|;
      var idle := false;
      passes := 0;
      while !idle
        invariant Valid() && maps.enqueued == [] && maps.dispatched + list == goal
        invariant |goal| <= cfg.capacity
        invariant idle ==> list == [] && maps.nrScheduled == 0
        invariant passes + (if idle then 0 else Passes(|list|, cfg.batch)) == Passes(n, cfg.batch)
        decreases !idle, |list|
      {
        idle := QuietPass();
        passes := passes + 1;
      }
      PassesIsCeiling(n, cfg.batch);
      assert maps.dispatched + [] == maps.dispatched;
    }
  }
}

/**
 The virtual-time engine of the kernel-assigned scheduler, with its callbacks
 serialized and no counter near 2^64.  A task carries its vtime and the runtime
 the kernel has counted for it; its context remembers the slice and the runtime
 already charged.  The shared dispatch queue is ordered by vtime, equal keys in
 order of arrival.
 */
module VtimeEngine {
  import opened U64
  import opened Clamp

  type Pid = nat

  datatype Ctx = NoCtx | Ctx(slice: nat, charged: nat)

  datatype Place = Off | Queued | Local | Running

  datatype Task = Task(vtime: nat, runtime: nat, ctx: Ctx, enabled: bool, place: Place)

  datatype Entry = Entry(pid: Pid, key: nat)

  /**
   History of the latest enable: the clock and both runtimes it saw, the clamp lifts and whether a stop came since.
   */
  datatype Ledger = Ledger(base: nat, opening: nat, enabledAt: nat, lift: nat, stopped: bool)

  datatype State = State(clock: nat, tasks: map<Pid, Task>, dsq: seq<Entry>, books: map<Pid, Ledger>)

  datatype Action =
    | Spawn(p: Pid, runtime: nat)
    | Enable(p: Pid, slice: nat)
    | Disable(p: Pid)
    | Enqueue(p: Pid)
    | Direct(p: Pid)                   // select_cpu found an idle CPU
    | Dispatch(cpu: nat, failed: nat)  // `failed` moves refused before one succeeds, if any is left
    | Start(p: Pid)
    | Run(p: Pid, ns: nat)
    | Stop(p: Pid, again: bool)
    | Pull(i: nat)                     // the kernel takes a waiting task back
    | Cancel(p: Pid)

  const START := State(0, map[], [], map[])

  // ----- the shared queue

  ghost predicate Sorted(q: seq<Entry>) {
    forall i, j | 0 <= i < j < |q| :: q[i].key <= q[j].key
  }

  ghost predicate DistinctPids(q: seq<Entry>) {
    forall i, j | 0 <= i < j < |q| :: q[i].pid != q[j].pid
  }

  /** Behind every entry whose key is not larger. */
  function Slot(q: seq<Entry>, key: nat): (i: nat)
    ensures i <= |q|
    ensures i < |q| ==> key < q[i].key
    ensures forall j | 0 <= j < i :: q[j].key <= key
  {
    if q == [] || key < q[0].key then 0 else 1 + Slot(q[1..], key)
  }

  function Insert(q: seq<Entry>, e: Entry): seq<Entry> {
    var i := Slot(q, e.key);
    q[..i] + [e] + q[i..]
  }

  function RemoveAt(q: seq<Entry>, i: nat): seq<Entry>
    requires i < |q|
  {
    q[..i] + q[i + 1..]
  }

  /** The clock after a walk over `q`. */
  function Advance(clock: nat, q: seq<Entry>): nat
    decreases |q|
  {
    if q == [] then clock else Advance(Max(clock, q[0].key), q[1..])
  }

  /** How many entries a dispatch looks at. */
  function Examined(q: seq<Entry>, failed: nat): nat {
    Min(failed + 1, |q|)
  }

  // ----- the callbacks

  predicate Is(s: State, p: Pid, place: Place) {
    p in s.tasks && s.tasks[p].enabled && s.tasks[p].place == place && s.tasks[p].ctx.Ctx? && p in s.books
  }

  predicate Enabled(s: State, a: Action) {
    match a
    case Spawn(p, _) => p !in s.tasks
    case Enable(p, _) => p in s.tasks && !s.tasks[p].enabled && s.tasks[p].place == Off
    case Disable(p) => Is(s, p, Off)
    case Enqueue(p) => Is(s, p, Off)
    case Direct(p) => Is(s, p, Off)
    case Dispatch(_, failed) => failed <= |s.dsq| && forall e | e in s.dsq :: e.pid in s.tasks
    case Start(p) => Is(s, p, Local)
    case Run(p, _) => Is(s, p, Running) || (p in s.tasks && !s.tasks[p].enabled && s.tasks[p].place == Off)
    case Stop(p, _) => Is(s, p, Running) && s.tasks[p].ctx.charged <= s.tasks[p].runtime
    case Pull(i) => i < |s.dsq| && s.dsq[i].pid in s.tasks
    case Cancel(p) => Is(s, p, Local)
  }

  function Move(s: State, p: Pid, place: Place): State
    requires p in s.tasks
  {
    s.(tasks := s.tasks[p := s.tasks[p].(place := place)])
  }

  /** Task storage survives a disable: an old context is found again and left as it was. */
  function OpenCtx(t: Task, slice: nat): Ctx {
    if t.ctx.Ctx? then t.ctx else Ctx(slice, t.runtime)
  }

  function DoEnable(s: State, p: Pid, slice: nat): State
    requires Enabled(s, Enable(p, slice))
  {
    var t := s.tasks[p];
    var ctx := OpenCtx(t, slice);
    s.(tasks := s.tasks[p := t.(vtime := s.clock, ctx := ctx, enabled := true)],
       books := s.books[p := Ledger(s.clock, ctx.charged, t.runtime, 0, false)])
  }

  function DoEnqueue(s: State, p: Pid): State
    requires Enabled(s, Enqueue(p))
  {
    var t := s.tasks[p];
    var key := Lifted(t.vtime, s.clock);
    s.(tasks := s.tasks[p := t.(vtime := key, place := Queued)],
       dsq := Insert(s.dsq, Entry(p, key)),
       books := s.books[p := s.books[p].(lift := s.books[p].lift + (key - t.vtime))])
  }

  function DoDispatch(s: State, cpu: nat, failed: nat): State
    requires Enabled(s, Dispatch(cpu, failed))
  {
    if cpu == 0 then s else
      var s1 := s.(clock := Advance(s.clock, s.dsq[..Examined(s.dsq, failed)]));
      if failed == |s.dsq| then s1
      else Move(s1, s.dsq[failed].pid, Local).(dsq := RemoveAt(s.dsq, failed))
  }

  function DoStop(s: State, p: Pid, again: bool): State
    requires Enabled(s, Stop(p, again))
  {
    var t := s.tasks[p];
    s.(tasks := s.tasks[p := t.(vtime := t.vtime + (t.runtime - t.ctx.charged),
                                ctx := t.ctx.(charged := t.runtime),
                                place := if again then Local else Off)],
       books := s.books[p := s.books[p].(stopped := true)])
  }

  function Apply(s: State, a: Action): State
    requires Enabled(s, a)
  {
    match a
    case Spawn(p, runtime) => s.(tasks := s.tasks[p := Task(0, runtime, NoCtx, false, Off)])
    case Enable(p, slice) => DoEnable(s, p, slice)
    case Disable(p) => s.(tasks := s.tasks[p := s.tasks[p].(enabled := false)])
    case Enqueue(p) => DoEnqueue(s, p)
    case Direct(p) => Move(s, p, Local)
    case Dispatch(cpu, failed) => DoDispatch(s, cpu, failed)
    case Start(p) => Move(s, p, Running)
    case Run(p, ns) => s.(tasks := s.tasks[p := s.tasks[p].(runtime := s.tasks[p].runtime + ns)])
    case Stop(p, again) => DoStop(s, p, again)
    case Pull(i) => Move(s, s.dsq[i].pid, Off).(dsq := RemoveAt(s.dsq, i))
    case Cancel(p) => Move(s, p, Off)
  }

  predicate Legal(s: State, run: seq<Action>)
    decreases |run|
  {
    run == [] || (Enabled(s, run[0]) && Legal(Apply(s, run[0]), run[1..]))
  }

  function Exec(s: State, run: seq<Action>): State
    requires Legal(s, run)
    decreases |run|
  {
    if run == [] then s else Exec(Apply(s, run[0]), run[1..])
  }

  // ----- what every run keeps

  ghost predicate QueueInv(s: State) {
    && Sorted(s.dsq)
    && DistinctPids(s.dsq)
    && (forall i | 0 <= i < |s.dsq| :: Is(s, s.dsq[i].pid, Queued) && s.tasks[s.dsq[i].pid].vtime == s.dsq[i].key)
    && (forall p | p in s.tasks && s.tasks[p].place == Queued :: exists i :: 0 <= i < |s.dsq| && s.dsq[i].pid == p)
  }

  /** vtime = clock at enable + runtime charged since + lifts; off the CPU everything run so far is charged. */
  ghost predicate BookInv(t: Task, b: Ledger) {
    && t.ctx.Ctx?
    && b.opening <= t.ctx.charged <= t.runtime
    && b.opening <= b.enabledAt
    && t.vtime == b.base + (t.ctx.charged - b.opening) + b.lift
    && (!b.stopped ==> t.ctx.charged == b.opening)
    && (!b.stopped && t.place != Running ==> t.runtime == b.enabledAt)
    && (b.stopped && t.place != Running ==> t.ctx.charged == t.runtime)
  }

  ghost predicate TaskInv(s: State) {
    && (forall p | p in s.tasks && s.tasks[p].enabled :: p in s.books && BookInv(s.tasks[p], s.books[p]))
    && (forall p | p in s.tasks && s.tasks[p].ctx.Ctx? :: s.tasks[p].ctx.charged <= s.tasks[p].runtime)
    && (forall p | p in s.tasks && !s.tasks[p].enabled :: s.tasks[p].place == Off)
  }

  ghost predicate Inv(s: State) {
    QueueInv(s) && TaskInv(s)
  }

  lemma InsertAt(q: seq<Entry>, e: Entry, i: nat)
    requires i <= |q|
    ensures |Insert(q, e)| == |q| + 1
    ensures var k := Slot(q, e.key);
      Insert(q, e)[i] == if i < k then q[i] else if i == k then e else q[i - 1]
  {}

  lemma InsertKeepsOrder(q: seq<Entry>, e: Entry)
    requires Sorted(q) && DistinctPids(q) && forall i | 0 <= i < |q| :: q[i].pid != e.pid
    ensures Sorted(Insert(q, e)) && DistinctPids(Insert(q, e))
  {
    var r := Insert(q, e);
    forall i, j | 0 <= i < j < |r|
      ensures r[i].key <= r[j].key && r[i].pid != r[j].pid
    {
      InsertAt(q, e, i);
      InsertAt(q, e, j);
    }
  }

  lemma InsertAdds(q: seq<Entry>, e: Entry)
    ensures forall x :: x in Insert(q, e) <==> x == e || x in q
  {
    var i := Slot(q, e.key);
    assert q == q[..i] + q[i..];
    assert Insert(q, e)[i] == e;
  }

  lemma RemoveKeepsOrder(q: seq<Entry>, i: nat)
    requires i < |q| && Sorted(q) && DistinctPids(q)
    ensures Sorted(RemoveAt(q, i)) && DistinctPids(RemoveAt(q, i))
    ensures forall x :: x in RemoveAt(q, i) <==> x in q && x.pid != q[i].pid
  {
    assert q == q[..i] + [q[i]] + q[i + 1..];
  }

  lemma EnqueueKeepsQueue(s: State, p: Pid)
    requires Inv(s) && Enabled(s, Enqueue(p))
    ensures QueueInv(Apply(s, Enqueue(p)))
  {
    var key := Lifted(s.tasks[p].vtime, s.clock);
    var s' := Apply(s, Enqueue(p));
    InsertKeepsOrder(s.dsq, Entry(p, key));
    InsertAdds(s.dsq, Entry(p, key));
    forall i | 0 <= i < |s'.dsq|
      ensures Is(s', s'.dsq[i].pid, Queued) && s'.tasks[s'.dsq[i].pid].vtime == s'.dsq[i].key
    {
      assert s'.dsq[i] in s'.dsq;
    }
    forall r | r in s'.tasks && s'.tasks[r].place == Queued
      ensures exists i :: 0 <= i < |s'.dsq| && s'.dsq[i].pid == r
    {
      if r == p {
        assert Entry(p, key) in s'.dsq;
      } else {
        var i :| 0 <= i < |s.dsq| && s.dsq[i].pid == r;
        assert s.dsq[i] in s'.dsq;
      }
    }
  }

  lemma LeaveKeepsQueue(s: State, i: nat, place: Place, s': State)
    requires Inv(s) && i < |s.dsq| && place != Queued
    requires s'.tasks == Move(s, s.dsq[i].pid, place).tasks && s'.dsq == RemoveAt(s.dsq, i) && s'.books == s.books
    ensures QueueInv(s')
  {
    RemoveKeepsOrder(s.dsq, i);
    forall j | 0 <= j < |s'.dsq|
      ensures Is(s', s'.dsq[j].pid, Queued) && s'.tasks[s'.dsq[j].pid].vtime == s'.dsq[j].key
    {
      assert s'.dsq[j] in s'.dsq;
    }
    forall r | r in s'.tasks && s'.tasks[r].place == Queued
      ensures exists j :: 0 <= j < |s'.dsq| && s'.dsq[j].pid == r
    {
      var j :| 0 <= j < |s.dsq| && s.dsq[j].pid == r;
      assert s.dsq[j] in s'.dsq;
    }
  }

  /** A step that leaves the queue and every queued task alone, and queues nobody, keeps the queue in order. */
  lemma SameQueueKeeps(s: State, s': State)
    requires QueueInv(s) && s'.dsq == s.dsq
    requires forall r | Is(s, r, Queued) :: Is(s', r, Queued) && s'.tasks[r].vtime == s.tasks[r].vtime
    requires forall r | r in s'.tasks && s'.tasks[r].place == Queued :: r in s.tasks && s.tasks[r].place == Queued
    ensures QueueInv(s')
  {
  }

  predicate TouchesQueue(a: Action) {
    a.Enqueue? || a.Dispatch? || a.Pull?
  }

  lemma QueuedKept(s: State, a: Action, r: Pid)
    requires Inv(s) && Enabled(s, a) && !TouchesQueue(a)
    ensures Is(s, r, Queued) ==> Is(Apply(s, a), r, Queued) && Apply(s, a).tasks[r].vtime == s.tasks[r].vtime
    ensures r in Apply(s, a).tasks && Apply(s, a).tasks[r].place == Queued ==>
              r in s.tasks && s.tasks[r].place == Queued
  {
  }

  lemma OthersKeepQueue(s: State, a: Action)
    requires Inv(s) && Enabled(s, a) && !TouchesQueue(a)
    ensures QueueInv(Apply(s, a))
  {
    var s' := Apply(s, a);
    forall r: Pid
      ensures Is(s, r, Queued) ==> Is(s', r, Queued) && s'.tasks[r].vtime == s.tasks[r].vtime
      ensures r in s'.tasks && s'.tasks[r].place == Queued ==> r in s.tasks && s.tasks[r].place == Queued
    {
      QueuedKept(s, a, r);
    }
    SameQueueKeeps(s, s');
  }

  lemma StepKeepsQueue(s: State, a: Action)
    requires Inv(s) && Enabled(s, a)
    ensures QueueInv(Apply(s, a))
  {
    match a
    case Enqueue(p) => EnqueueKeepsQueue(s, p);
    case Dispatch(cpu, failed) =>
      if cpu != 0 && failed < |s.dsq| {
        LeaveKeepsQueue(s, failed, Local, Apply(s, a));
      }
    case Pull(i) => LeaveKeepsQueue(s, i, Off, Apply(s, a));
    case _ => OthersKeepQueue(s, a);
  }

  /** A step that leaves every task but `p` alone, and `p` in order, keeps the books. */
  lemma OneTaskKeepsTasks(s: State, s': State, p: Pid)
    requires TaskInv(s)
    requires p in s'.tasks && forall r | r != p ::
      && (r in s'.tasks <==> r in s.tasks) && (r in s.tasks ==> s'.tasks[r] == s.tasks[r])
      && (r in s.books ==> r in s'.books && s'.books[r] == s.books[r])
    requires s'.tasks[p].enabled ==> p in s'.books && BookInv(s'.tasks[p], s'.books[p])
    requires s'.tasks[p].ctx.Ctx? ==> s'.tasks[p].ctx.charged <= s'.tasks[p].runtime
    requires !s'.tasks[p].enabled ==> s'.tasks[p].place == Off
    ensures TaskInv(s')
  {}

  lemma MoveKeepsTasks(s: State, p: Pid, place: Place, s': State)
    requires TaskInv(s) && p in s.tasks && s.tasks[p].enabled && (s.tasks[p].place == Running ==> place == Running)
    requires s'.tasks == Move(s, p, place).tasks && s'.books == s.books
    ensures TaskInv(s')
  {
    OneTaskKeepsTasks(s, s', p);
  }

  lemma StepKeepsTasks(s: State, a: Action)
    requires Inv(s) && Enabled(s, a)
    ensures TaskInv(Apply(s, a))
  {
    var s' := Apply(s, a);
    match a
    case Dispatch(cpu, failed) =>
      if cpu != 0 && failed < |s.dsq| {
        MoveKeepsTasks(s, s.dsq[failed].pid, Local, s');
      }
    case Pull(i) => MoveKeepsTasks(s, s.dsq[i].pid, Off, s');
    case Direct(p) => MoveKeepsTasks(s, p, Local, s');
    case Start(p) => MoveKeepsTasks(s, p, Running, s');
    case Cancel(p) => MoveKeepsTasks(s, p, Off, s');
    case _ => OneTaskKeepsTasks(s, s', a.p);
  }

  lemma StepKeepsInv(s: State, a: Action)
    requires Inv(s) && Enabled(s, a)
    ensures Inv(Apply(s, a))
  {
    StepKeepsQueue(s, a);
    StepKeepsTasks(s, a);
  }

  /** Every run keeps the queue sorted and the books balanced. */
  lemma {:induction false} RunKeepsInv(s: State, run: seq<Action>)
    requires Inv(s) && Legal(s, run)
    ensures Inv(Exec(s, run))
    decreases |run|
  {
    if run != [] {
      StepKeepsInv(s, run[0]);
      RunKeepsInv(Apply(s, run[0]), run[1..]);
    }
  }

  lemma ExecCons(s: State, a: Action, rest: seq<Action>)
    requires Enabled(s, a) && Legal(Apply(s, a), rest)
    ensures Legal(s, [a] + rest) && Exec(s, [a] + rest) == Exec(Apply(s, a), rest)
  {
    assert ([a] + rest)[1..] == rest;
  }

  lemma {:induction false} ExecAppend(s: State, a: seq<Action>, b: seq<Action>)
    requires Legal(s, a) && Legal(Exec(s, a), b)
    ensures Legal(s, a + b) && Exec(s, a + b) == Exec(Exec(s, a), b)
    decreases |a|
  {
    if a == [] {
      assert a + b == b;
    } else {
      assert (a + b)[0] == a[0] && (a + b)[1..] == a[1..] + b;
      ExecAppend(Apply(s, a[0]), a[1..], b);
    }
  }
}

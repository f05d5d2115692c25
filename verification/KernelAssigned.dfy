/**
 The callbacks of the kernel-assigned scheduler as they are written: 64-bit wrapping arithmetic, in place.
 While no counter is near 2^63 each callback is one step of the virtual-time engine, so its run properties apply.
 */
module KernelAssigned {
  import opened U64
  import opened Clamp
  import opened VtimeEngine
  import Decimal
  import KernelParser

  const ENOENT := 2
  const ENOMEM := 12

  /** The first index below n at which the move oracle succeeds, or n. */
  function FirstSuccess(moves: nat -> bool, n: nat, i: nat := 0): (k: nat)
    requires i <= n
    ensures i <= k <= n && (k < n ==> moves(k)) && forall j | i <= j < k :: !moves(j)
    decreases n - i
  {
    if i == n || moves(i) then i else FirstSuccess(moves, n, i + 1)
  }

  lemma {:induction false} AdvanceSnoc(clock: nat, q: seq<Entry>, i: nat)
    requires i < |q|
    ensures Advance(clock, q[..i + 1]) == Max(Advance(clock, q[..i]), q[i].key)
    decreases i
  {
    if i > 0 {
      AdvanceSnoc(Max(clock, q[0].key), q[1..], i - 1);
      assert q[..i + 1][1..] == q[1..][..i];
      assert q[..i][1..] == q[1..][..i - 1];
    } else {
      assert q[..1][1..] == [];
    }
  }

  class Scheduler {
    var clock: u64
    var tasks: map<Pid, Task>
    var dsq: seq<Entry>
    var scxSlice: map<Pid, nat>  // the slice field of the kernel's task, as enable and the inserts write it
    var nrEnabled: nat
    var nrDisabled: nat
    ghost var books: map<Pid, Ledger>

    ghost function View(): State
      reads this
    {
      State(clock, tasks, dsq, books)
    }

    /** The kernel's view of a queued task: its key is its vtime. */
    ghost predicate Keyed()
      reads this
    {
      forall e | e in dsq :: e.pid in tasks && tasks[e.pid].vtime == e.key
    }

    /** Every counter fits an unsigned 64-bit word. */
    ghost predicate Words()
      reads this
    {
      forall p | p in tasks :: tasks[p].vtime < TWO64 && tasks[p].runtime < TWO64
    }

    /** The clock and this task are not near the sign bit. */
    ghost predicate InRange(p: Pid)
      reads this
    {
      clock < TWO63 - SCX_SLICE_DFL && p in tasks && tasks[p].vtime < TWO63 - SCX_SLICE_DFL && tasks[p].runtime < TWO63
    }

    constructor ()
      ensures Words() && Keyed() && View() == START && nrEnabled == nrDisabled == 0
    {
      clock, tasks, dsq, scxSlice, books := 0, map[], [], map[], map[];
      nrEnabled, nrDisabled := 0, 0;
    }

    /** select_cpu: a task that finds an idle CPU goes straight to its local queue. */
    method SelectCpu(p: Pid, isIdle: bool)
      requires Words() && p in tasks && (tasks[p].ctx.Ctx? ==> Is(View(), p, Off))
      modifies this`tasks, this`scxSlice
      ensures Words()
      ensures View() == if isIdle && old(tasks[p].ctx.Ctx?) then Apply(old(View()), Direct(p)) else old(View())
      ensures isIdle && old(tasks[p].ctx.Ctx?) ==> p in tasks && tasks[p].place == Local
      ensures scxSlice ==
              if isIdle && old(tasks[p].ctx.Ctx?) then old(scxSlice)[p := old(tasks[p].ctx.slice)] else old(scxSlice)
    {
      if isIdle {
        if tasks[p].ctx.NoCtx? {
          return;
        }
        tasks := tasks[p := tasks[p].(place := Local)];
        scxSlice := scxSlice[p := tasks[p].ctx.slice];
      }
    }

    /** enqueue: clamp the vtime, put the task on the shared queue, write the clamped vtime back. */
    method Enqueue(p: Pid) returns (err: int)
      requires Words() && p in tasks && (tasks[p].ctx.Ctx? ==> Is(View(), p, Off))
      modifies this`tasks, this`dsq, this`books, this`scxSlice
      ensures Words()
      ensures err == if old(tasks[p].ctx.NoCtx?) then -ENOENT else 0
      ensures err != 0 ==> View() == old(View()) && scxSlice == old(scxSlice)
      ensures err == 0 ==> scxSlice == old(scxSlice)[p := old(tasks[p].ctx.slice)]
      ensures err == 0 ==> var key := Guarded(old(tasks[p].vtime), clock);
        && tasks == old(tasks)[p := old(tasks)[p].(vtime := key, place := Queued)]
        && dsq == Insert(old(dsq), Entry(p, key))
      ensures err == 0 && old(InRange(p)) ==> View() == Apply(old(View()), VtimeEngine.Enqueue(p))
    {
      if tasks[p].ctx.NoCtx? {
        return -ENOENT;
      }
      ghost var was := View();
      var vtime: u64 := tasks[p].vtime;
      var limit := clock;
      if limit > LAG_LIMIT {
        if TimeBefore(vtime, Sub(limit, LAG_LIMIT)) {
          vtime := Sub(limit, LAG_LIMIT);
        }
      }
      assert vtime == Guarded(was.tasks[p].vtime, clock);
      ghost var lifted := if vtime >= was.tasks[p].vtime then vtime - was.tasks[p].vtime else 0;
      if InRange(p) {
        ClampEquivalence(was.tasks[p].vtime, clock);
      }
      tasks := tasks[p := tasks[p].(vtime := vtime, place := Queued)];
      dsq := Insert(dsq, Entry(p, vtime));
      scxSlice := scxSlice[p := tasks[p].ctx.slice];
      books := books[p := books[p].(lift := books[p].lift + lifted)];
      return 0;
    }

    /** A successful move of the task at this place of the shared queue. */
    method MoveToLocal(i: nat)
      requires Words() && Keyed() && i < |dsq|
      modifies this`tasks, this`dsq
      ensures Words() && old(dsq)[i].pid in tasks && tasks[old(dsq)[i].pid].place == Local
      ensures dsq == old(dsq)[..i] + old(dsq)[i + 1..]
      ensures View() == Move(old(View()), old(dsq)[i].pid, Local).(dsq := RemoveAt(old(dsq), i))
    {
      assert dsq[i] in dsq;
      var p := dsq[i].pid;
      tasks := tasks[p := tasks[p].(place := Local)];
      dsq := RemoveAt(dsq, i);
    }

    /** The walk over the shared queue, pushing the clock forward, up to the task whose move succeeds. */
    method Walk(moves: nat -> bool) returns (i: nat)
      requires Words() && Keyed()
      modifies this`clock
      ensures i == FirstSuccess(moves, |dsq|)
      ensures clock == Advance(old(clock), dsq[..Examined(dsq, i)])
      ensures forall j | 0 <= j < |dsq| && j <= i :: dsq[j].key <= clock
    {
      ghost var k := FirstSuccess(moves, |dsq|);
      i := 0;
      while i < |dsq|
        invariant 0 <= i <= |dsq| && i <= k
        invariant clock == Advance(old(clock), dsq[..i])
        invariant forall j | 0 <= j < i :: dsq[j].key <= clock
      {
        assert dsq[i] in dsq;
        var vtime := tasks[dsq[i].pid].vtime;
        var oldGlobal := clock;
        AdvanceSnoc(old(clock), dsq, i);
        if vtime > oldGlobal {
          clock := vtime;
        }
        if moves(i) {
          return;
        }
        i := i + 1;
      }
      assert dsq[..Examined(dsq, i)] == dsq[..|dsq|];
    }

    /** dispatch: nothing on CPU 0; else walk the shared queue until one move succeeds. */
    method Dispatch(cpu: nat, moves: nat -> bool)
      requires Words() && Keyed()
      modifies this`clock, this`tasks, this`dsq
      ensures Words()
      ensures View() == Apply(old(View()), VtimeEngine.Dispatch(cpu, FirstSuccess(moves, |old(dsq)|)))
      ensures cpu == 0 ==> clock == old(clock) && tasks == old(tasks) && dsq == old(dsq)
      ensures cpu != 0 ==> var was, k := old(dsq), FirstSuccess(moves, |old(dsq)|);
        && (forall i | 0 <= i < |was| && i <= k :: was[i].key <= clock)
        && (k < |was| ==> was[k].pid in tasks && tasks[was[k].pid].place == Local && dsq == was[..k] + was[k + 1..])
    {
      if cpu == 0 {
        return;
      }
      var i := Walk(moves);
      if i < |dsq| {
        MoveToLocal(i);
      }
    }

    /** stopping: charge the runtime since the last stop, modulo 2^64; nothing without a context. */
    method Stopping(p: Pid, again: bool)
      requires Words() && p in tasks && (tasks[p].ctx.Ctx? ==> Is(View(), p, Running))
      modifies this`tasks, this`books
      ensures Words() && p in tasks
      ensures old(tasks[p].ctx.NoCtx?) ==> View() == old(View())
      ensures old(tasks[p].ctx.Ctx?) ==>
        && tasks[p].ctx.Ctx? && tasks[p].ctx.charged == old(tasks[p].runtime)
        && tasks[p].vtime == Add(old(tasks[p].vtime), (old(tasks[p].runtime) - old(tasks[p].ctx.charged)) % TWO64)
      ensures old(InRange(p) && tasks[p].ctx.Ctx? && tasks[p].ctx.charged <= tasks[p].runtime)
        ==> View() == Apply(old(View()), Stop(p, again))
    {
      var t := tasks[p];
      if t.ctx.NoCtx? {
        return;
      }
      var delta: u64 := (t.runtime - t.ctx.charged) % TWO64;
      tasks := tasks[p := t.(vtime := Add(t.vtime, delta), ctx := t.ctx.(charged := t.runtime),
                             place := if again then Local else Off)];
      books := books[p := books[p].(stopped := true)];
    }

    /**
     enable: start at the clock, read the slice off the command line; task storage left over from an earlier stay is
     found again, unchanged, but scx.slice is written either way.
     */
    method Enable(p: Pid, args: Decimal.Bytes, beyond: Decimal.Bytes, readable: bool, storageOk: bool)
      returns (err: int)
      requires Words() && Enabled(View(), VtimeEngine.Enable(p, 0))
      requires readable ==> |args| + |beyond| >= KernelParser.MAX_CMDLINE_LEN
      modifies this`tasks, this`books, this`scxSlice, this`nrEnabled
      ensures Words()
      ensures err == if old(tasks[p].ctx.NoCtx?) && !storageOk then -ENOMEM else 0
      ensures var slice := if readable then KernelParser.AssignedSlice(args) else SCX_SLICE_DFL;
        if err == 0 then
          View() == Apply(old(View()), VtimeEngine.Enable(p, slice)) && scxSlice == old(scxSlice)[p := slice]
        else
          && View() == old(View()).(tasks := old(tasks)[p := old(tasks)[p].(vtime := clock)])
          && scxSlice == old(scxSlice)
      ensures p in tasks && tasks[p].vtime == clock == old(clock)
      ensures err == 0 ==> p in books && books[p].base == clock
      ensures nrEnabled == old(nrEnabled) + if err == 0 then 1 else 0
    {
      hide KernelParser.AssignedSlice;
      ghost var was := View();
      tasks := tasks[p := tasks[p].(vtime := clock)];
      var slice := KernelParser.GetTaskSlice(args, beyond, readable);
      if tasks[p].ctx.NoCtx? {
        if !storageOk {
          return -ENOMEM;
        }
        tasks := tasks[p := tasks[p].(ctx := Ctx(slice, tasks[p].runtime))];
      }
      tasks := tasks[p := tasks[p].(enabled := true)];
      books := books[p := Ledger(clock, tasks[p].ctx.charged, tasks[p].runtime, 0, false)];
      assert tasks == Apply(was, VtimeEngine.Enable(p, slice)).tasks;
      scxSlice := scxSlice[p := slice];
      nrEnabled := nrEnabled + 1;
      return 0;
    }

    /** disable leaves the task storage in place. */
    method Disable(p: Pid)
      requires Is(View(), p, Off)
      modifies this`tasks, this`nrDisabled
      ensures View() == Apply(old(View()), VtimeEngine.Disable(p)) && nrDisabled == old(nrDisabled) + 1
      ensures p in tasks && !tasks[p].enabled && tasks[p].ctx == old(tasks[p].ctx)
    {
      nrDisabled := nrDisabled + 1;
      tasks := tasks[p := tasks[p].(enabled := false)];
    }
  }
}

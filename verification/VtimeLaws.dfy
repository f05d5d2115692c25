/**
 What the callbacks of the virtual-time engine do to clock, tasks and queue, said without the functions that define
 them; and what follows over runs: the clock is the largest key looked at, and vtime accounts for everything since the
 enable.
 */
module VtimeLaws {
  import opened U64
  import opened VtimeEngine
  import opened VtimeBounds
  import ClockRace

  // ---------- the clock ----------

  /** A dispatch takes the clock to the key of the last task it looked at, if that is ahead. */
  lemma DispatchClock(s: State, cpu: nat, failed: nat)
    requires Inv(s) && Enabled(s, Dispatch(cpu, failed))
    ensures Apply(s, Dispatch(cpu, failed)).clock ==
            if cpu == 0 || s.dsq == [] then s.clock
            else if failed < |s.dsq| then Max(s.clock, s.dsq[failed].key)
            else Max(s.clock, s.dsq[|s.dsq| - 1].key)
  {
    if cpu != 0 {
      WalkEndsAtLastKey(s.clock, s.dsq[..Examined(s.dsq, failed)]);
    }
  }

  /** The keys a dispatch looks at: up to the task it moves, or all of them. */
  function LooksAt(q: seq<Entry>, cpu: nat, failed: nat): seq<(nat, nat)> {
    var n := if failed < |q| then failed + 1 else |q|;
    seq(n, i requires 0 <= i < n => (cpu, q[i].key))
  }

  function StepLooks(s: State, a: Action): seq<(nat, nat)> {
    if a.Dispatch? && a.cpu != 0 then LooksAt(s.dsq, a.cpu, a.failed) else []
  }

  /** Every look of a run at a key of the shared queue, with the CPU that took it. */
  function Looks(s: State, run: seq<Action>): seq<(nat, nat)>
    requires Legal(s, run)
    decreases |run|
  {
    if run == [] then [] else StepLooks(s, run[0]) + Looks(Apply(s, run[0]), run[1..])
  }

  lemma {:induction false} MaxOfConcat(a: seq<(nat, nat)>, b: seq<(nat, nat)>)
    ensures ClockRace.MaxOf(a + b) == Max(ClockRace.MaxOf(a), ClockRace.MaxOf(b))
  {
    if a == [] {
      assert a + b == b;
    } else {
      assert (a + b)[0] == a[0] && (a + b)[1..] == a[1..] + b;
      MaxOfConcat(a[1..], b);
    }
  }

  lemma {:induction false} MaxOfRising(visits: seq<(nat, nat)>)
    requires forall i, j | 0 <= i <= j < |visits| :: visits[i].1 <= visits[j].1
    ensures ClockRace.MaxOf(visits) == if visits == [] then 0 else visits[|visits| - 1].1
  {
    if |visits| > 1 {
      MaxOfRising(visits[1..]);
    } else if |visits| == 1 {
      assert visits[1..] == [];
    }
  }

  lemma OthersKeepClock(s: State, a: Action)
    requires Enabled(s, a) && !(a.Dispatch? && a.cpu != 0)
    ensures Apply(s, a).clock == s.clock
  {
  }

  lemma LooksMax(q: seq<Entry>, cpu: nat, failed: nat)
    requires Sorted(q)
    ensures ClockRace.MaxOf(LooksAt(q, cpu, failed)) ==
            if q == [] then 0 else if failed < |q| then q[failed].key else q[|q| - 1].key
  {
    MaxOfRising(LooksAt(q, cpu, failed));
  }

  lemma StepTakesMax(s: State, a: Action)
    requires Inv(s) && Enabled(s, a)
    ensures Apply(s, a).clock == Max(s.clock, ClockRace.MaxOf(StepLooks(s, a)))
  {
    if a.Dispatch? && a.cpu != 0 {
      hide Apply;
      DispatchClock(s, a.cpu, a.failed);
      LooksMax(s.dsq, a.cpu, a.failed);
    } else {
      OthersKeepClock(s, a);
    }
  }

  /** Over every run the clock is where it was or the largest key looked at since, whichever is larger. */
  lemma {:induction false} ClockIsMaxLooked(s: State, run: seq<Action>)
    requires Inv(s) && Legal(s, run)
    ensures Exec(s, run).clock == Max(s.clock, ClockRace.MaxOf(Looks(s, run)))
    decreases |run|
  {
    if run != [] {
      hide Inv;
      var s' := Apply(s, run[0]);
      StepKeepsInv(s, run[0]);
      StepTakesMax(s, run[0]);
      ClockIsMaxLooked(s', run[1..]);
      MaxOfConcat(StepLooks(s, run[0]), Looks(s', run[1..]));
    }
  }

  /**
   From the start state the engine's clock is the one that the compare-and-swaps leave when the same looks are taken
   one at a time.
   */
  lemma ClockIsSerialRace(run: seq<Action>)
    requires Legal(START, run)
    ensures var visits := Looks(START, run);
      && ClockRace.Legal(ClockRace.START, ClockRace.SerialRun(visits))
      && Exec(START, run).clock == ClockRace.Exec(ClockRace.START, ClockRace.SerialRun(visits)).clock
      && Exec(START, run).clock == ClockRace.MaxOf(visits)
  {
    ClockIsMaxLooked(START, run);
    ClockRace.SerialClockIsMax(ClockRace.START, Looks(START, run));
  }

  // ---------- the callbacks' effects ----------

  /** A dispatch on any CPU but 0 whose move succeeds brings exactly that task to the CPU's local queue. */
  lemma DispatchMoves(s: State, cpu: nat, failed: nat)
    requires Enabled(s, Dispatch(cpu, failed))
    ensures var s' := Apply(s, Dispatch(cpu, failed));
      if cpu != 0 && failed < |s.dsq| then
        var p := s.dsq[failed].pid;
        && s'.tasks == s.tasks[p := s.tasks[p].(place := Local)]
        && s'.dsq == s.dsq[..failed] + s.dsq[failed + 1..] && s'.books == s.books
      else s'.tasks == s.tasks && s'.dsq == s.dsq && s'.books == s.books
  {
  }

  /** An enabled task starts at the clock, with nothing of its runtime charged unless an old context is found. */
  lemma EnableStartsAtClock(s: State, p: Pid, slice: nat)
    requires Enabled(s, Enable(p, slice))
    ensures var t, s' := s.tasks[p], Apply(s, Enable(p, slice));
      && p in s'.tasks && p in s'.books && s'.tasks[p].vtime == s.clock && s'.books[p].base == s.clock
      && s'.tasks[p].enabled && s'.tasks[p].ctx.Ctx? && s'.tasks[p].runtime == t.runtime
      && (t.ctx.NoCtx? ==> s'.tasks[p].ctx.slice == slice && s'.tasks[p].ctx.charged == t.runtime)
      && (t.ctx.Ctx? ==> s'.tasks[p].ctx == t.ctx)
      && s'.clock == s.clock && s'.dsq == s.dsq
      && forall q | q != p :: (q in s'.tasks <==> q in s.tasks) && (q in s.tasks ==> s'.tasks[q] == s.tasks[q])
  {
  }

  /** An enqueued task keeps its vtime if it is at most one limit behind the clock, and else is brought that near. */
  lemma EnqueueClampsToLimit(s: State, p: Pid)
    requires Inv(s) && Enabled(s, Enqueue(p))
    ensures var v, s' := s.tasks[p].vtime, Apply(s, Enqueue(p));
      && p in s'.tasks && s'.tasks[p].place == Queued && Entry(p, s'.tasks[p].vtime) in s'.dsq
      && s'.tasks[p].vtime == (if v + LAG_LIMIT >= s.clock then v else s.clock - LAG_LIMIT)
  {
    InsertAdds(s.dsq, Entry(p, Apply(s, Enqueue(p)).tasks[p].vtime));
  }

  /** A stop charges what has been run since the last one, and takes the task off the CPU. */
  lemma StopCharges(s: State, p: Pid, again: bool)
    requires Enabled(s, Stop(p, again))
    ensures var t, s' := s.tasks[p], Apply(s, Stop(p, again));
      && p in s'.tasks && s'.tasks[p].vtime - t.vtime == t.runtime - t.ctx.charged
      && s'.tasks[p].ctx == Ctx(t.ctx.slice, t.runtime) && s'.tasks[p].runtime == t.runtime
      && s'.tasks[p].place == (if again then Local else Off)
  {
  }

  /** A direct dispatch brings the task, and no other, to a local queue. */
  lemma DirectGoesLocal(s: State, p: Pid)
    requires Enabled(s, Direct(p))
    ensures Is(Apply(s, Direct(p)), p, Local) && Apply(s, Direct(p)) == s.(tasks := Apply(s, Direct(p)).tasks)
    ensures var t' := Apply(s, Direct(p)).tasks;
      forall q | q in s.tasks && q != p :: q in t' && t'[q] == s.tasks[q]
  {
  }

  lemma StepKeepsSlice(s: State, a: Action, p: Pid)
    requires Enabled(s, a) && p in s.tasks && s.tasks[p].ctx.Ctx?
    ensures var t' := Apply(s, a).tasks; p in t' && t'[p].ctx.Ctx? && t'[p].ctx.slice == s.tasks[p].ctx.slice
  {
  }

  lemma {:induction false} RunKeepsSlice(s: State, run: seq<Action>, p: Pid)
    requires Legal(s, run) && p in s.tasks && s.tasks[p].ctx.Ctx?
    ensures var t' := Exec(s, run).tasks; p in t' && t'[p].ctx.Ctx? && t'[p].ctx.slice == s.tasks[p].ctx.slice
    decreases |run|
  {
    if run != [] {
      StepKeepsSlice(s, run[0], p);
      RunKeepsSlice(Apply(s, run[0]), run[1..], p);
    }
  }

  /**
   The slice a task is dispatched with is the one its first enable read, for ever: storage survives a disable, so a
   task that comes back with another command line keeps the old slice.
   */
  lemma FirstSliceStays(before: seq<Action>, p: Pid, slice: nat, after: seq<Action>)
    requires Legal(START, before) && Enabled(Exec(START, before), Enable(p, slice))
    requires Exec(START, before).tasks[p].ctx.NoCtx?
    requires Legal(Apply(Exec(START, before), Enable(p, slice)), after)
    ensures var t := Exec(Apply(Exec(START, before), Enable(p, slice)), after).tasks;
      p in t && t[p].ctx.Ctx? && t[p].ctx.slice == slice
  {
    EnableStartsAtClock(Exec(START, before), p, slice);
    RunKeepsSlice(Apply(Exec(START, before), Enable(p, slice)), after, p);
  }

  // ---------- accounting since the enable ----------

  /** What the clamp adds to the vtime of `p` over a run. */
  function Lifts(s: State, run: seq<Action>, p: Pid): int
    requires Legal(s, run)
    decreases |run|
  {
    if run == [] then 0
    else
      var s' := Apply(s, run[0]);
      (if run[0] == Enqueue(p) && p in s.tasks && p in s'.tasks then s'.tasks[p].vtime - s.tasks[p].vtime else 0) +
      Lifts(s', run[1..], p)
  }

  predicate Stops(run: seq<Action>, p: Pid) {
    exists i | 0 <= i < |run| :: run[i].Stop? && run[i].p == p
  }

  /** Runtime that an old context has not charged. */
  function Uncharged(t: Task): int {
    if t.ctx.Ctx? then t.runtime - t.ctx.charged else 0
  }

  lemma StopsCons(run: seq<Action>, p: Pid)
    requires run != []
    ensures Stops(run, p) <==> (run[0].Stop? && run[0].p == p) || Stops(run[1..], p)
  {
    if Stops(run, p) {
      var i :| 0 <= i < |run| && run[i].Stop? && run[i].p == p;
      assert i > 0 ==> run[1..][i - 1] == run[i];
    }
    if Stops(run[1..], p) {
      var i :| 0 <= i < |run[1..]| && run[1..][i].Stop? && run[1..][i].p == p;
      assert run[i + 1] == run[1..][i];
    }
  }

  lemma StepKeepsLedger(s: State, a: Action, p: Pid)
    requires Inv(s) && Enabled(s, a) && p in s.tasks && s.tasks[p].enabled && Undisturbed([a], p)
    ensures var s' := Apply(s, a);
      && p in s'.tasks && s'.tasks[p].enabled && p in s.books && p in s'.books
      && s'.books[p].base == s.books[p].base && s'.books[p].opening == s.books[p].opening
      && s'.books[p].enabledAt == s.books[p].enabledAt
      && s'.books[p].lift == s.books[p].lift + (if a == Enqueue(p) then s'.tasks[p].vtime - s.tasks[p].vtime else 0)
      && (s'.books[p].stopped <==> s.books[p].stopped || (a.Stop? && a.p == p))
  {
    assert [a][0] == a;
  }

  lemma {:induction false} RunKeepsLedger(s: State, run: seq<Action>, p: Pid)
    requires Inv(s) && Legal(s, run) && p in s.tasks && s.tasks[p].enabled && Undisturbed(run, p)
    ensures var s' := Exec(s, run);
      && p in s'.tasks && s'.tasks[p].enabled && p in s.books && p in s'.books
      && s'.books[p].base == s.books[p].base && s'.books[p].opening == s.books[p].opening
      && s'.books[p].enabledAt == s.books[p].enabledAt
      && s'.books[p].lift == s.books[p].lift + Lifts(s, run, p)
      && (s'.books[p].stopped <==> s.books[p].stopped || Stops(run, p))
    decreases |run|
  {
    if run != [] {
      var a, s' := run[0], Apply(s, run[0]);
      assert Undisturbed([a], p) && Undisturbed(run[1..], p);
      StepKeepsLedger(s, a, p);
      StepKeepsInv(s, a);
      RunKeepsLedger(s', run[1..], p);
      StopsCons(run, p);
    }
  }

  /**
   Exact accounting: off the CPU a task's vtime is the clock when it was enabled, plus all it has run since, plus what
   the clamp has lifted it by, plus, from its first stop on, what an old context had not charged.
   */
  lemma AccountingAlongRun(before: seq<Action>, p: Pid, slice: nat, after: seq<Action>)
    requires Legal(START, before) && Enabled(Exec(START, before), Enable(p, slice))
    requires Legal(Apply(Exec(START, before), Enable(p, slice)), after) && Undisturbed(after, p)
    requires var s := Exec(Apply(Exec(START, before), Enable(p, slice)), after);
      Is(s, p, Off) || Is(s, p, Queued) || Is(s, p, Local)
    ensures var s0 := Exec(START, before); var s1 := Apply(s0, Enable(p, slice)); var s := Exec(s1, after);
      s.tasks[p].vtime ==
      s0.clock + (s.tasks[p].runtime - s0.tasks[p].runtime) + Lifts(s1, after, p) +
      if Stops(after, p) then Uncharged(s0.tasks[p]) else 0
  {
    var s0 := Exec(START, before);
    var s1 := Apply(s0, Enable(p, slice));
    RunKeepsInv(START, before);
    StepKeepsInv(s0, Enable(p, slice));
    RunKeepsInv(s1, after);
    RunKeepsLedger(s1, after, p);
  }
}

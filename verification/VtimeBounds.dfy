/**
 What the virtual-time engine guarantees over whole runs: bounded lag, exact accounting, bounded service to others.
 */
module VtimeBounds {
  import opened U64
  import opened Clamp
  import opened VtimeEngine

  // ----- lag

  /** No waiting task is more than LAG_LIMIT behind the clock. */
  ghost predicate LagInv(s: State) {
    forall i | 0 <= i < |s.dsq| :: s.dsq[i].key + LAG_LIMIT >= s.clock
  }

  /** Over a sorted queue the walk ends at the key it looked at last. */
  lemma {:induction false} WalkEndsAtLastKey(clock: nat, q: seq<Entry>)
    requires Sorted(q)
    ensures Advance(clock, q) == if q == [] then clock else Max(clock, q[|q| - 1].key)
    decreases |q|
  {
    if |q| > 1 {
      WalkEndsAtLastKey(Max(clock, q[0].key), q[1..]);
    }
  }

  lemma EnqueueKeepsLag(s: State, p: Pid)
    requires LagInv(s) && Enabled(s, Enqueue(p))
    ensures LagInv(Apply(s, Enqueue(p)))
  {
    var e := Entry(p, Lifted(s.tasks[p].vtime, s.clock));
    InsertAdds(s.dsq, e);
    var s' := Apply(s, Enqueue(p));
    forall i | 0 <= i < |s'.dsq| ensures s'.dsq[i].key + LAG_LIMIT >= s'.clock {
      assert s'.dsq[i] in s'.dsq;
    }
  }

  lemma FirstMoveKeepsLag(s: State, cpu: nat)
    requires Inv(s) && LagInv(s) && Enabled(s, Dispatch(cpu, 0))
    ensures LagInv(Apply(s, Dispatch(cpu, 0)))
  {
    if cpu != 0 && s.dsq != [] {
      WalkEndsAtLastKey(s.clock, s.dsq[..1]);
      assert RemoveAt(s.dsq, 0) == s.dsq[1..];
    }
  }

  /** The queue behind a dispatch that has failed to move its first task. */
  lemma SkippedStays(q: seq<Entry>, failed: nat)
    requires Sorted(q) && 0 < failed <= |q|
    ensures var r := if failed == |q| then q else RemoveAt(q, failed);
      r != [] && r[0] == q[0] && forall i | 0 <= i < |r| :: r[i].key >= q[0].key
  {
    if failed < |q| {
      var r := RemoveAt(q, failed);
      forall i | 0 <= i < |r| ensures r[i].key >= q[0].key {
        assert r[i] == q[if i >= failed then i + 1 else i];
      }
    }
  }

  lemma SkippingKeepsLagIff(s: State, cpu: nat, failed: nat)
    requires Inv(s) && LagInv(s) && Enabled(s, Dispatch(cpu, failed)) && cpu != 0 && failed > 0
    ensures LagInv(Apply(s, Dispatch(cpu, failed)))
       <==> s.dsq[Examined(s.dsq, failed) - 1].key <= s.dsq[0].key + LAG_LIMIT
  {
    var s' := Apply(s, Dispatch(cpu, failed));
    var n := Examined(s.dsq, failed);
    WalkEndsAtLastKey(s.clock, s.dsq[..n]);
    SkippedStays(s.dsq, failed);
    assert s'.clock == Max(s.clock, s.dsq[n - 1].key);
    assert LagInv(s') <==> s'.clock <= s.dsq[0].key + LAG_LIMIT;
  }

  /** A dispatch keeps the bound exactly when it did not look more than LAG_LIMIT past a task it failed to move. */
  lemma DispatchKeepsLagIff(s: State, cpu: nat, failed: nat)
    requires Inv(s) && LagInv(s) && Enabled(s, Dispatch(cpu, failed))
    ensures LagInv(Apply(s, Dispatch(cpu, failed)))
       <==> cpu == 0 || failed == 0 || s.dsq[Examined(s.dsq, failed) - 1].key <= s.dsq[0].key + LAG_LIMIT
  {
    if failed == 0 {
      FirstMoveKeepsLag(s, cpu);
    } else if cpu != 0 {
      SkippingKeepsLagIff(s, cpu, failed);
    }
  }

  /** Every move of the run succeeds at the first task of the queue. */
  predicate FirstMovesSucceed(run: seq<Action>) {
    forall i | 0 <= i < |run| && run[i].Dispatch? :: run[i].failed == 0
  }

  lemma StepKeepsLag(s: State, a: Action)
    requires Inv(s) && LagInv(s) && Enabled(s, a) && (a.Dispatch? ==> a.failed == 0)
    ensures LagInv(Apply(s, a))
  {
    match a
    case Enqueue(p) => EnqueueKeepsLag(s, p);
    case Dispatch(cpu, failed) => FirstMoveKeepsLag(s, cpu);
    case _ =>
  }

  /** Lag bound over every run whose moves succeed. */
  lemma {:induction false} LagBound(s: State, run: seq<Action>)
    requires Inv(s) && LagInv(s) && Legal(s, run) && FirstMovesSucceed(run)
    ensures LagInv(Exec(s, run))
    decreases |run|
  {
    if run != [] {
      StepKeepsLag(s, run[0]);
      StepKeepsInv(s, run[0]);
      LagBound(Apply(s, run[0]), run[1..]);
    }
  }

  ghost predicate AlwaysLag(s: State, run: seq<Action>)
    requires Legal(s, run)
    decreases |run|
  {
    LagInv(s) && (run == [] || AlwaysLag(Apply(s, run[0]), run[1..]))
  }

  /** No dispatch of the run looks more than LAG_LIMIT past a task it has failed to move. */
  ghost predicate LooksNear(s: State, run: seq<Action>)
    requires Legal(s, run)
    decreases |run|
  {
    run == [] ||
    (&& (run[0].Dispatch? && run[0].cpu != 0 && run[0].failed > 0 ==>
           s.dsq[Examined(s.dsq, run[0].failed) - 1].key <= s.dsq[0].key + LAG_LIMIT)
     && LooksNear(Apply(s, run[0]), run[1..]))
  }

  /** Over whole runs, whichever moves fail: the bound holds at every point if and only if every dispatch looks near. */
  lemma {:induction false} LagBoundIff(s: State, run: seq<Action>)
    requires Inv(s) && LagInv(s) && Legal(s, run)
    ensures AlwaysLag(s, run) <==> LooksNear(s, run)
    decreases |run|
  {
    if run != [] {
      var a := run[0];
      var s' := Apply(s, a);
      StepKeepsInv(s, a);
      if a.Dispatch? {
        DispatchKeepsLagIff(s, a.cpu, a.failed);
      } else {
        StepKeepsLag(s, a);
      }
      if LagInv(s') {
        LagBoundIff(s', run[1..]);
      }
    }
  }

  /** A task gets a CPU, runs `ns` and stops. */
  lemma RunsOnce(s: State, p: Pid, ns: nat) returns (run: seq<Action>)
    requires Is(s, p, Off) && s.tasks[p].ctx.charged <= s.tasks[p].runtime
    ensures Legal(s, run) && FirstMovesSucceed(run)
    ensures var s' := Exec(s, run); var t := s.tasks[p];
      && s'.clock == s.clock && s'.dsq == s.dsq && Is(s', p, Off) && s'.tasks[p].runtime == t.runtime + ns
      && s'.tasks[p].vtime == t.vtime + (t.runtime - t.ctx.charged) + ns
      && s'.books[p] == s.books[p].(stopped := true)
      && forall q | q != p && q in s.tasks && q in s.books ::
           q in s'.tasks && s'.tasks[q] == s.tasks[q] && q in s'.books
  {
    var s1 := Apply(s, Direct(p));
    var s2 := Apply(s1, Start(p));
    var s3 := Apply(s2, Run(p, ns));
    run := [];
    ExecCons(s3, Stop(p, false), run);
    run := [Stop(p, false)] + run;
    ExecCons(s2, Run(p, ns), run);
    run := [Run(p, ns)] + run;
    ExecCons(s1, Start(p), run);
    run := [Start(p)] + run;
    ExecCons(s, Direct(p), run);
    run := [Direct(p)] + run;
  }

  lemma TwoEnabled(slice: nat) returns (run: seq<Action>)
    ensures Legal(START, run) && FirstMovesSucceed(run)
    ensures var s := Exec(START, run);
      && s.clock == 0 && s.dsq == [] && Is(s, 1, Off) && Is(s, 2, Off)
      && s.tasks[1].vtime == 0 && s.tasks[2].vtime == 0 && s.tasks[2].ctx.charged == s.tasks[2].runtime
  {
    var s1 := Apply(START, Spawn(1, 0));
    var s2 := Apply(s1, Spawn(2, 0));
    var s3 := Apply(s2, Enable(1, slice));
    run := [];
    ExecCons(s3, Enable(2, slice), run);
    run := [Enable(2, slice)] + run;
    ExecCons(s2, Enable(1, slice), run);
    run := [Enable(1, slice)] + run;
    ExecCons(s1, Spawn(2, 0), run);
    run := [Spawn(2, 0)] + run;
    ExecCons(START, Spawn(1, 0), run);
    run := [Spawn(1, 0)] + run;
  }

  /** Two fresh tasks; the second runs `ns` and stops. */
  lemma OneRunsAhead(slice: nat, ns: nat) returns (run: seq<Action>)
    ensures Legal(START, run) && FirstMovesSucceed(run)
    ensures var s := Exec(START, run);
      && s.clock == 0 && s.dsq == [] && Is(s, 1, Off) && Is(s, 2, Off)
      && s.tasks[1].vtime == 0 && s.tasks[2].vtime == ns
  {
    var first := TwoEnabled(slice);
    var last := RunsOnce(Exec(START, first), 2, ns);
    ExecAppend(START, first, last);
    run := first + last;
  }

  /** The bound does break: one failed move is enough when the task behind is more than LAG_LIMIT ahead. */
  lemma FailedMoveBreaksLag(slice: nat, ns: nat) returns (run: seq<Action>)
    requires ns > LAG_LIMIT
    ensures Legal(START, run) && LagInv(Exec(START, run)) && Enabled(Exec(START, run), Dispatch(1, 1))
    ensures !LagInv(Apply(Exec(START, run), Dispatch(1, 1)))
  {
    var first := OneRunsAhead(slice, ns);
    var s := Exec(START, first);
    var s1 := Apply(s, Enqueue(1));
    var s2 := Apply(s1, Enqueue(2));
    assert s1.dsq == [Entry(1, 0)];
    assert s2.dsq == [Entry(1, 0), Entry(2, ns)];
    ExecCons(s1, Enqueue(2), []);
    ExecCons(s, Enqueue(1), [Enqueue(2)] + []);
    var last := [Enqueue(1)] + ([Enqueue(2)] + []);
    ExecAppend(START, first, last);
    run := first + last;
    RunKeepsInv(START, run);
    DispatchKeepsLagIff(s2, 1, 1);
  }

  // ----- accounting

  /** Runtime that an old context makes the first stop charge although it was not run under the scheduler. */
  function Foreign(b: Ledger): int {
    b.enabledAt - b.opening
  }

  /** After a stop, off the CPU: vtime is clock at enable, plus all runtime since, plus lifts, plus foreign runtime. */
  lemma LedgerBalances(run: seq<Action>, p: Pid)
    requires Legal(START, run)
    requires var s := Exec(START, run); Is(s, p, Off) || Is(s, p, Queued) || Is(s, p, Local)
    ensures var s := Exec(START, run); var t, b := s.tasks[p], s.books[p];
      t.vtime == b.base + (t.runtime - b.enabledAt) + b.lift + if b.stopped then Foreign(b) else 0
  {
    RunKeepsInv(START, run);
  }

  /**
   Enabling charges foreign runtime exactly when the task comes back with an old context and has run elsewhere since.
   */
  lemma EnableIsCleanIff(s: State, p: Pid, slice: nat)
    requires Inv(s) && Enabled(s, Enable(p, slice))
    ensures var b := Apply(s, Enable(p, slice)).books[p];
      Foreign(b) == 0 <==> s.tasks[p].ctx.NoCtx? || s.tasks[p].ctx.charged == s.tasks[p].runtime
  {}

  /** A task is enabled, leaves, runs `ns` elsewhere and comes back. */
  lemma ComesBack(slice: nat, ns: nat) returns (run: seq<Action>)
    ensures Legal(START, run)
    ensures var s := Exec(START, run);
      && s.clock == 0 && Is(s, 1, Off) && s.tasks[1].vtime == 0
      && s.tasks[1].runtime == ns && s.tasks[1].ctx.charged == 0 && s.books[1] == Ledger(0, 0, ns, 0, false)
  {
    var s1 := Apply(START, Spawn(1, 0));
    var s2 := Apply(s1, Enable(1, slice));
    var s3 := Apply(s2, Disable(1));
    var s4 := Apply(s3, Run(1, ns));
    run := [];
    ExecCons(s4, Enable(1, slice), run);
    run := [Enable(1, slice)] + run;
    ExecCons(s3, Run(1, ns), run);
    run := [Run(1, ns)] + run;
    ExecCons(s2, Disable(1), run);
    run := [Disable(1)] + run;
    ExecCons(s1, Enable(1, slice), run);
    run := [Enable(1, slice)] + run;
    ExecCons(START, Spawn(1, 0), run);
    run := [Spawn(1, 0)] + run;
  }

  /**
   A task that leaves, runs `ns` elsewhere, comes back and runs `m` is charged for both: its vtime is the clock at
   enable plus m plus ns, although it has run only m under the scheduler since.
   */
  lemma ReenableOwesForeign(slice: nat, ns: nat, m: nat) returns (run: seq<Action>)
    ensures Legal(START, run) && 1 in Exec(START, run).tasks && 1 in Exec(START, run).books
    ensures var t, b := Exec(START, run).tasks[1], Exec(START, run).books[1];
      t.runtime - b.enabledAt == m && t.vtime == b.base + m + ns
  {
    var first := ComesBack(slice, ns);
    var last := RunsOnce(Exec(START, first), 1, m);
    ExecAppend(START, first, last);
    run := first + last;
  }

  // ----- service to others while a task waits

  /** `t` waits throughout the run. */
  predicate Waits(s: State, run: seq<Action>, t: Pid)
    requires Legal(s, run)
    decreases |run|
  {
    Is(s, t, Queued) && (run == [] || Waits(Apply(s, run[0]), run[1..], t))
  }

  /** This dispatch gives `u` a CPU ahead of the waiting `t`. */
  predicate Passes(s: State, a: Action, u: Pid, t: Pid) {
    && a.Dispatch? && a.cpu != 0 && a.failed < |s.dsq| && s.dsq[a.failed].pid == u
    && exists j | a.failed < j < |s.dsq| :: s.dsq[j].pid == t
  }

  /** `u` is neither enabled nor disabled during the run. */
  predicate Undisturbed(run: seq<Action>, u: Pid) {
    forall i | 0 <= i < |run| :: run[i] != Disable(u) && !(run[i].Enable? && run[i].p == u)
  }

  /** `u` is under the scheduler with a context made by its latest enable. */
  predicate Accounted(s: State, u: Pid) {
    u in s.tasks && s.tasks[u].enabled && s.tasks[u].ctx.Ctx? && u in s.books && Foreign(s.books[u]) == 0
  }

  lemma StepKeepsKey(s: State, a: Action, t: Pid)
    requires Inv(s) && Enabled(s, a) && Is(s, t, Queued) && Is(Apply(s, a), t, Queued)
    ensures Apply(s, a).tasks[t].vtime == s.tasks[t].vtime
  {}

  /** vtime grows at least as fast as charged runtime: clamps only lift it. */
  lemma StepKeepsDrift(s: State, a: Action, u: Pid)
    requires Inv(s) && Enabled(s, a) && Accounted(s, u) && Undisturbed([a], u)
    ensures Accounted(Apply(s, a), u)
    ensures var t, t' := s.tasks[u], Apply(s, a).tasks[u];
      t'.vtime - t'.ctx.charged >= t.vtime - t.ctx.charged
  {
    assert [a][0] == a;
  }

  /** Whoever passes `t` has a key no larger and nothing left uncharged. */
  lemma PassNeedsSmallerKey(s: State, a: Action, u: Pid, t: Pid)
    requires Inv(s) && Enabled(s, a) && Accounted(s, u) && Is(s, t, Queued) && Passes(s, a, u, t)
    ensures s.tasks[u].vtime <= s.tasks[t].vtime && s.tasks[u].runtime == s.tasks[u].ctx.charged
    ensures s.tasks[u].place == Queued && Apply(s, a).tasks[u].place == Local
  {}

  /**
   Service bound.  `t` waits with key v during the run.  When a dispatch then passes `u` ahead of `t`, all the
   runtime `u` has had since the start of the run, with whatever it still owed then, is at most v minus the
   vtime `u` started with: over any number of clamps and re-enqueues, and whichever moves fail.
   */
  lemma {:induction false} ServiceBound(s: State, run: seq<Action>, a: Action, u: Pid, t: Pid)
    requires Inv(s) && Legal(s, run) && Enabled(Exec(s, run), a)
    requires Waits(s, run, t) && Undisturbed(run, u) && Accounted(s, u)
    requires Passes(Exec(s, run), a, u, t)
    ensures u in Exec(s, run).tasks
    ensures s.tasks[u].vtime + (Exec(s, run).tasks[u].runtime - s.tasks[u].ctx.charged) <= s.tasks[t].vtime
    decreases |run|
  {
    if run == [] {
      PassNeedsSmallerKey(s, a, u, t);
    } else {
      var s1 := Apply(s, run[0]);
      StepKeepsInv(s, run[0]);
      assert run == [run[0]] + run[1..];
      StepKeepsDrift(s, run[0], u);
      StepKeepsKey(s, run[0], t);
      ServiceBound(s1, run[1..], a, u, t);
    }
  }

  /** What `u` runs. */
  function Ran(run: seq<Action>, u: Pid): nat {
    if run == [] then 0 else (if run[0].Run? && run[0].p == u then run[0].ns else 0) + Ran(run[1..], u)
  }

  function Starts(run: seq<Action>, u: Pid): nat {
    if run == [] then 0 else (if run[0] == Start(u) then 1 else 0) + Starts(run[1..], u)
  }

  predicate NeverPasses(s: State, run: seq<Action>, u: Pid, t: Pid)
    requires Legal(s, run)
    decreases |run|
  {
    run == [] || (!Passes(s, run[0], u, t) && NeverPasses(Apply(s, run[0]), run[1..], u, t))
  }

  /** `u` gets no CPU but from the shared queue. */
  predicate OnlyByQueue(run: seq<Action>, u: Pid) {
    forall i | 0 <= i < |run| :: run[i] != Direct(u) && run[i] != Stop(u, true)
  }

  /** While `t` waits and is not passed, only a task that is already past it gets to run, and once. */
  lemma StepWithoutPass(s: State, a: Action, u: Pid, t: Pid)
    requires Inv(s) && Enabled(s, a) && Is(s, t, Queued) && Is(Apply(s, a), t, Queued) && !Passes(s, a, u, t)
    requires (a.Dispatch? ==> a.failed == 0) && a != Direct(u) && a != Stop(u, true)
    requires u in s.tasks && a != Disable(u) && !(a.Enable? && a.p == u)
    ensures u in Apply(s, a).tasks
    ensures Apply(s, a).tasks[u].runtime == s.tasks[u].runtime + (if a.Run? && a.p == u then a.ns else 0)
    ensures Apply(s, a).tasks[u].place == Local ==> s.tasks[u].place == Local && a != Start(u)
    ensures a == Start(u) ==> s.tasks[u].place == Local
  {
    if a.Dispatch? && a.cpu != 0 && s.dsq != [] {
      var j :| 0 <= j < |s.dsq| && s.dsq[j].pid == t;
      assert Is(s, s.dsq[0].pid, Queued);
    }
  }

  lemma {:induction false} RunWithoutPass(s: State, run: seq<Action>, u: Pid, t: Pid)
    requires Inv(s) && Legal(s, run) && Waits(s, run, t) && NeverPasses(s, run, u, t) && u in s.tasks
    requires FirstMovesSucceed(run) && OnlyByQueue(run, u) && Undisturbed(run, u)
    ensures u in Exec(s, run).tasks && Exec(s, run).tasks[u].runtime == s.tasks[u].runtime + Ran(run, u)
    ensures Starts(run, u) <= if s.tasks[u].place == Local then 1 else 0
    decreases |run|
  {
    if run != [] {
      var s' := Apply(s, run[0]);
      StepWithoutPass(s, run[0], u, t);
      StepKeepsInv(s, run[0]);
      RunWithoutPass(s', run[1..], u, t);
    }
  }

  /**
   Behind its last pass ahead of `t`, a task that gets its CPUs from the shared queue is started once at most: it has
   had its allowance and what it runs then, which is one run.
   */
  lemma ExcessIsOneRun(s: State, run: seq<Action>, a: Action, more: seq<Action>, u: Pid, t: Pid)
    requires Inv(s) && Legal(s, run) && Enabled(Exec(s, run), a) && Legal(Apply(Exec(s, run), a), more)
    requires Waits(s, run, t) && Undisturbed(run, u) && Accounted(s, u) && Passes(Exec(s, run), a, u, t)
    requires Waits(Apply(Exec(s, run), a), more, t) && NeverPasses(Apply(Exec(s, run), a), more, u, t)
    requires FirstMovesSucceed(more) && OnlyByQueue(more, u) && Undisturbed(more, u)
    ensures var s' := Exec(Apply(Exec(s, run), a), more);
      && u in s'.tasks && Starts(more, u) <= 1
      && s.tasks[u].vtime + (s'.tasks[u].runtime - s.tasks[u].ctx.charged) <= s.tasks[t].vtime + Ran(more, u)
  {
    ServiceBound(s, run, a, u, t);
    RunKeepsInv(s, run);
    StepKeepsInv(Exec(s, run), a);
    RunWithoutPass(Apply(Exec(s, run), a), more, u, t);
  }

  // ----- how often a waiting task is passed

  /**
   A step of a run in which every stint on a CPU of a task in `us` is charged, and none enters or leaves the scheduler.
   */
  predicate Works(s: State, a: Action, us: seq<Pid>) {
    && (a.Stop? && a.p in us && a.p in s.tasks && s.tasks[a.p].ctx.Ctx? ==>
        s.tasks[a.p].ctx.charged < s.tasks[a.p].runtime)
    && (a.Cancel? ==> a.p !in us)
    && forall u | u in us :: Undisturbed([a], u)
  }

  predicate WorksThroughout(s: State, run: seq<Action>, us: seq<Pid>)
    requires Legal(s, run)
    decreases |run|
  {
    run == [] || (Works(s, run[0], us) && WorksThroughout(Apply(s, run[0]), run[1..], us))
  }

  /** How many times `u` can still pass a task with key v. */
  function Allowance(s: State, u: Pid, v: nat): nat {
    if u !in s.tasks then 0 else
      var t := s.tasks[u];
      Max(0, v - t.vtime + if t.place == Local || t.place == Running then 0 else 1)
  }

  function Budget(s: State, us: seq<Pid>, v: nat): nat
    decreases |us|
  {
    if us == [] then 0 else Allowance(s, us[0], v) + Budget(s, us[1..], v)
  }

  /** Some competitor is dispatched ahead of `t` by this step. */
  predicate PassedBy(s: State, a: Action, us: seq<Pid>, t: Pid) {
    exists u | u in us :: Passes(s, a, u, t)
  }

  function PassCount(s: State, run: seq<Action>, us: seq<Pid>, t: Pid): nat
    requires Legal(s, run)
    decreases |run|
  {
    if run == [] then 0
    else (if PassedBy(s, run[0], us, t) then 1 else 0) + PassCount(Apply(s, run[0]), run[1..], us, t)
  }

  lemma StepSpendsAllowance(s: State, a: Action, us: seq<Pid>, u: Pid, t: Pid)
    requires Inv(s) && Enabled(s, a) && u in us && Accounted(s, u) && Works(s, a, us) && Is(s, t, Queued)
    ensures Accounted(Apply(s, a), u)
    ensures Allowance(Apply(s, a), u, s.tasks[t].vtime) + (if Passes(s, a, u, t) then 1 else 0)
         <= Allowance(s, u, s.tasks[t].vtime)
  {
    StepKeepsDrift(s, a, u);
    if Passes(s, a, u, t) {
      PassNeedsSmallerKey(s, a, u, t);
    }
  }

  lemma {:induction false} StepSpendsBudget(s: State, a: Action, all: seq<Pid>, us: seq<Pid>, t: Pid)
    requires Inv(s) && Enabled(s, a) && Works(s, a, all) && Is(s, t, Queued)
    requires forall u | u in us :: u in all && Accounted(s, u)
    ensures forall u | u in us :: Accounted(Apply(s, a), u)
    ensures Budget(Apply(s, a), us, s.tasks[t].vtime) + (if PassedBy(s, a, us, t) then 1 else 0)
         <= Budget(s, us, s.tasks[t].vtime)
    decreases |us|
  {
    if us != [] {
      StepSpendsAllowance(s, a, all, us[0], t);
      StepSpendsBudget(s, a, all, us[1..], t);
      assert us == [us[0]] + us[1..];
    }
  }

  /**
   No starvation.  While `t` waits with key v, the competitors together are dispatched ahead of it at most as often
   as the sum of v - vtime + 1 over those of them that start behind v.
   */
  lemma {:induction false} BypassBound(s: State, run: seq<Action>, us: seq<Pid>, t: Pid)
    requires Inv(s) && Legal(s, run) && Waits(s, run, t)
    requires WorksThroughout(s, run, us) && forall u | u in us :: Accounted(s, u)
    ensures PassCount(s, run, us, t) <= Budget(s, us, s.tasks[t].vtime)
    decreases |run|
  {
    if run != [] {
      var s1 := Apply(s, run[0]);
      StepKeepsInv(s, run[0]);
      StepKeepsKey(s, run[0], t);
      StepSpendsBudget(s, run[0], us, us, t);
      BypassBound(s1, run[1..], us, t);
    }
  }
}

/**
 The full queue.  A task whose request does not fit gets one default slice, and never another: has_slice stays
 false, nobody asks again, and every later enqueue withholds it.
 */
module AskOverflow {
  import opened AskProtocol
  import opened AskStrand
  import opened AskConservation

  /** Overflowed, and past its one fallback slice. */
  ghost predicate OutOfService(k: Kernel, p: Pid) {
    && p in k.tasks
    && k.tasks[p].overflowed
    && (k.tasks[p].phase.Quiet? || k.tasks[p].phase.Queueing? || k.tasks[p].phase.SawNone?)
    && (k.tasks[p].place.Off? || k.tasks[p].place.Held?)
  }

  lemma UnansweredIsNoTarget(cfg: Config, k: Kernel, a: Action, p: Pid)
    requires cfg.flagFirst && (a.WriteSlice? || a.WriteFlag? || a.Insert?) && EnabledK(cfg, k, a) && Unanswered(k, p)
    ensures Target(k, a) != p
  {}

  lemma StepKeepsOutOfService(cfg: Config, s: State, a: Action, p: Pid)
    requires cfg.flagFirst && p != cfg.daemon && PidOk(cfg, s, p) && Enabled(cfg, s, a) && a != Disable(p)
    requires OutOfService(s.k, p)
    ensures OutOfService(Apply(cfg, s, a).k, p)
  {
    if !IsDaemonStep(a) {
      if a.WriteSlice? || a.WriteFlag? || a.Insert? {
        UnansweredIsNoTarget(cfg, s.k, a, p);
      }
      if p != Target(s.k, a) {
        OthersKept(cfg, s.k, a, p);
      }
    }
  }

  /** As long as it stays under the scheduler, an overflowed task is never on a dispatch queue again. */
  lemma {:induction false} OverflowedNeverRunsAgain(cfg: Config, s: State, run: seq<Action>, p: Pid)
    requires cfg.flagFirst && p != cfg.daemon && ExactInv(cfg, s) && NoEarlyInsert(s.k)
    requires Legal(cfg, s, run) && FreshRun(cfg, s, run) && Disable(p) !in run
    requires OutOfService(s.k, p)
    ensures OutOfService(Exec(cfg, s, run).k, p)
    decreases |run|
  {
    if run != [] {
      assert PidOk(cfg, s, p);
      StepKeepsOutOfService(cfg, s, run[0], p);
      StepKeepsExactInv(cfg, s, run[0]);
      OverflowedNeverRunsAgain(cfg, Apply(cfg, s, run[0]), run[1..], p);
    }
  }

  // ----- it does happen

  /** A task enabled without interruption. */
  function EnableRun(p: Pid): seq<Action> {
    [Enable(p), Push(p, false), SetFlag(p)]
  }

  lemma FreshCons(cfg: Config, s: State, a: Action, b: seq<Action>)
    requires Enabled(cfg, s, a) && Fresh(s, a) && Legal(cfg, Apply(cfg, s, a), b) && FreshRun(cfg, Apply(cfg, s, a), b)
    ensures Legal(cfg, s, [a] + b) && FreshRun(cfg, s, [a] + b)
    ensures Exec(cfg, s, [a] + b) == Exec(cfg, Apply(cfg, s, a), b)
  {
    assert ([a] + b)[1..] == b;
  }

  lemma {:induction false} FreshAppend(cfg: Config, s: State, a: seq<Action>, b: seq<Action>)
    requires Legal(cfg, s, a) && FreshRun(cfg, s, a)
    requires Legal(cfg, Exec(cfg, s, a), b) && FreshRun(cfg, Exec(cfg, s, a), b)
    ensures Legal(cfg, s, a + b) && FreshRun(cfg, s, a + b) && Exec(cfg, s, a + b) == Exec(cfg, Exec(cfg, s, a), b)
    decreases |a|
  {
    ExecAppend(cfg, s, a, b);
    if a == [] {
      assert a + b == b;
    } else {
      var first, rest := a[0], a[1..];
      FreshAppend(cfg, Apply(cfg, s, first), rest, b);
      FreshCons(cfg, s, first, rest + b);
      assert [first] + (rest + b) == a + b;
    }
  }

  /** Only the daemon's queue of requests has anything in it, all of it from pids up to daemon + n. */
  ghost predicate Flooded(cfg: Config, s: State, n: nat) {
    && s.k.cpus == map[] && s.k.dispatched == [] && s.d == START.d
    && |s.k.enqueued| == n
    && (forall p | p in s.k.tasks :: p <= cfg.daemon + n)
    && (forall i | 0 <= i < n :: s.k.enqueued[i] <= cfg.daemon + n)
  }

  lemma FloodedIsFresh(cfg: Config, s: State, n: nat, p: Pid)
    requires Flooded(cfg, s, n) && p > cfg.daemon + n
    ensures Enabled(cfg, s, Enable(p)) && Fresh(s, Enable(p))
  {
    assert Line(s) == s.k.enqueued;
  }

  lemma EnableSteps(cfg: Config, s: State, p: Pid)
    requires p != cfg.daemon && Enabled(cfg, s, Enable(p)) && Fresh(s, Enable(p)) && |s.k.enqueued| < cfg.capacity
    ensures Legal(cfg, s, EnableRun(p)) && FreshRun(cfg, s, EnableRun(p))
    ensures var s' := Exec(cfg, s, EnableRun(p));
      && s'.d == s.d && s'.k.cpus == s.k.cpus && s'.k.dispatched == s.k.dispatched
      && s'.k.enqueued == s.k.enqueued + [p] && s'.k.tasks.Keys == s.k.tasks.Keys + {p}
  {
    var s1 := Apply(cfg, s, Enable(p));
    var s2 := Apply(cfg, s1, Push(p, false));
    FreshCons(cfg, s2, SetFlag(p), []);
    FreshCons(cfg, s1, Push(p, false), [SetFlag(p)] + []);
    FreshCons(cfg, s, Enable(p), [Push(p, false)] + ([SetFlag(p)] + []));
    assert [Enable(p)] + ([Push(p, false)] + ([SetFlag(p)] + [])) == EnableRun(p);
  }

  lemma FloodedGrows(cfg: Config, s: State, s': State, n: nat)
    requires Flooded(cfg, s, n)
    requires s'.d == s.d && s'.k.cpus == s.k.cpus && s'.k.dispatched == s.k.dispatched
    requires s'.k.enqueued == s.k.enqueued + [cfg.daemon + (n + 1)]
    requires s'.k.tasks.Keys == s.k.tasks.Keys + {cfg.daemon + (n + 1)}
    ensures Flooded(cfg, s', n + 1)
  {
    forall q | q in s'.k.tasks ensures q <= cfg.daemon + (n + 1) {
      assert q in s'.k.tasks.Keys;
    }
  }

  lemma EnableOneMore(cfg: Config, s: State, n: nat) returns (run: seq<Action>)
    requires Flooded(cfg, s, n) && n < cfg.capacity
    ensures Legal(cfg, s, run) && FreshRun(cfg, s, run) && Flooded(cfg, Exec(cfg, s, run), n + 1)
  {
    var p := cfg.daemon + (n + 1);
    FloodedIsFresh(cfg, s, n, p);
    EnableSteps(cfg, s, p);
    FloodedGrows(cfg, s, Exec(cfg, s, EnableRun(p)), n);
    run := EnableRun(p);
  }

  /** `n` tasks enabled while the daemon does nothing. */
  lemma {:induction false} FloodFills(cfg: Config, s: State, n: nat) returns (run: seq<Action>)
    requires Flooded(cfg, s, 0) && n <= cfg.capacity
    ensures Legal(cfg, s, run) && FreshRun(cfg, s, run) && Flooded(cfg, Exec(cfg, s, run), n)
  {
    if n == 0 {
      return [];
    }
    var most := FloodFills(cfg, s, n - 1);
    var more := EnableOneMore(cfg, Exec(cfg, s, most), n - 1);
    FreshAppend(cfg, s, most, more);
    run := most + more;
  }

  lemma EnqueueIsFresh(cfg: Config, s: State, p: Pid)
    requires Legal(cfg, s, EnqueueRun(p))
    ensures FreshRun(cfg, s, EnqueueRun(p))
  {
    var run := EnqueueRun(p);
    var s1 := Apply(cfg, s, run[0]);
    var s2 := Apply(cfg, s1, run[1..][0]);
    assert FreshRun(cfg, s2, run[1..][1..]);
    assert FreshRun(cfg, s1, run[1..]);
  }

  /** Enabling a task whose request does not fit. */
  lemma EnableOverflows(cfg: Config, s: State, p: Pid) returns (run: seq<Action>)
    requires Flooded(cfg, s, cfg.capacity) && p == cfg.daemon + cfg.capacity + 1
    ensures Legal(cfg, s, run) && FreshRun(cfg, s, run)
    ensures var k := Exec(cfg, s, run).k;
      InPhase(k, p, Quiet) && k.tasks[p].place.Off? && !k.tasks[p].hasSlice && k.tasks[p].overflowed
  {
    FloodedIsFresh(cfg, s, cfg.capacity, p);
    var s1 := Apply(cfg, s, Enable(p));
    run := [];
    FreshCons(cfg, s1, Push(p, false), run);
    run := [Push(p, false)] + run;
    FreshCons(cfg, s, Enable(p), run);
    run := [Enable(p)] + run;
  }

  lemma OverflowThenEnqueue(cfg: Config, s: State, p: Pid) returns (run: seq<Action>)
    requires Flooded(cfg, s, cfg.capacity) && p == cfg.daemon + cfg.capacity + 1
    ensures Legal(cfg, s, run) && FreshRun(cfg, s, run)
    ensures var k := Exec(cfg, s, run).k; p in k.tasks && k.tasks[p].place.Held? && k.tasks[p].overflowed
  {
    var first := EnableOverflows(cfg, s, p);
    var t := Exec(cfg, s, first);
    EnqueueWithholds(cfg, t, p);
    EnqueueIsFresh(cfg, t, p);
    FreshAppend(cfg, s, first, EnqueueRun(p));
    run := first + EnqueueRun(p);
  }

  /** For every capacity: enable one task more than fits before the daemon gets to run, and the last one is stranded. */
  lemma OverflowStrands(cfg: Config) returns (run: seq<Action>)
    requires cfg.flagFirst
    ensures Legal(cfg, START, run) && FreshRun(cfg, START, run)
    ensures Stranded(Exec(cfg, START, run), cfg.daemon + cfg.capacity + 1)
  {
    var p := cfg.daemon + cfg.capacity + 1;
    var flood := FloodFills(cfg, START, cfg.capacity);
    var rest := OverflowThenEnqueue(cfg, Exec(cfg, START, flood), p);
    FreshAppend(cfg, START, flood, rest);
    run := flood + rest;
    StrandedIffOverflowed(cfg, run, p);
  }
}

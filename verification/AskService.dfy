/**
 From the shared queue to a CPU.  A held task whose request fitted can be brought all the way to the local queue of any
 CPU but the first, with the slice userspace decided.  One whose request did not fit gets there once at most, with the
 default slice, and never after it has been held.
 */
module AskService {
  import opened U64
  import opened AskProtocol
  import opened AskStrand
  import opened AskWakeup
  import opened AskConservation
  import opened AskOverflow
  import opened AskRelease
  import opened AskGate
  import opened AskCallbacks

  predicate OnLocal(s: State, p: Pid) {
    p in s.k.tasks && s.k.tasks[p].place.Local?
  }

  lemma {:induction false} HelpKeepsReady(cfg: Config, crew: Crew, s: State, run: seq<Action>, p: Pid)
    requires Ready(cfg, crew, s, p) && Legal(cfg, s, run) && HelpsOnly(crew, run)
    ensures Ready(cfg, crew, Exec(cfg, s, run), p)
    decreases |run|
  {
    if run != [] {
      StepKeepsReady(cfg, crew, s, run[0], p);
      HelpKeepsReady(cfg, crew, Apply(cfg, s, run[0]), run[1..], p);
    }
  }

  lemma HelpStepKeepsOverflowed(cfg: Config, crew: Crew, s: State, a: Action, p: Pid)
    requires Enabled(cfg, s, a) && Helps(crew, a) && p in s.k.tasks
    ensures p in Apply(cfg, s, a).k.tasks && Apply(cfg, s, a).k.tasks[p].overflowed == s.k.tasks[p].overflowed
  {
    if IsDaemonStep(a) {
      DaemonKeepsTasks(cfg, s, a);
    }
  }

  lemma {:induction false} HelpKeepsOverflowed(cfg: Config, crew: Crew, s: State, run: seq<Action>, p: Pid)
    requires Legal(cfg, s, run) && HelpsOnly(crew, run) && p in s.k.tasks
    ensures p in Exec(cfg, s, run).k.tasks && Exec(cfg, s, run).k.tasks[p].overflowed == s.k.tasks[p].overflowed
    decreases |run|
  {
    if run != [] {
      HelpStepKeepsOverflowed(cfg, crew, s, run[0], p);
      HelpKeepsOverflowed(cfg, crew, Apply(cfg, s, run[0]), run[1..], p);
    }
  }

  /** The CPU submits its message if it is about to, and else leaves its callback or takes a reply. */
  function ExitStep(k: Kernel, c: Cpu): Action {
    if PcOf(k, c).Woken? then Submit(c) else LeaveStep(k, c)
  }

  lemma ExitNears(cfg: Config, s: State, c: Cpu)
    requires cfg.flagFirst && NoEarlyInsert(s.k) && !PcOf(s.k, c).Idle?
    ensures Enabled(cfg, s, ExitStep(s.k, c)) && OfCpu(ExitStep(s.k, c)) && ExitStep(s.k, c).cpu == c
    ensures var s' := Apply(cfg, s, ExitStep(s.k, c));
      || |s'.k.dispatched| < |s.k.dispatched|
      || (s'.k.dispatched == s.k.dispatched && IdleRank(s'.k, c) < IdleRank(s.k, c))
  {
    if !PcOf(s.k, c).Woken? {
      CpuNearsIdle(cfg, s, c);
    }
  }

  /** With the task on the shared queue, a CPU is driven out of its callback; the task stays there. */
  lemma {:induction false} ToIdle(cfg: Config, crew: Crew, s: State, c: Cpu, p: Pid) returns (run: seq<Action>)
    requires Ready(cfg, crew, s, p) && OnShared(s, p) && c in crew.cpus
    ensures Legal(cfg, s, run) && HelpsOnly(crew, run)
    ensures PcOf(Exec(cfg, s, run).k, c).Idle? && OnShared(Exec(cfg, s, run), p)
    decreases |s.k.dispatched|, IdleRank(s.k, c)
  {
    if PcOf(s.k, c).Idle? {
      return [];
    }
    var a := ExitStep(s.k, c);
    ExitNears(cfg, s, c);
    StepKeepsReady(cfg, crew, s, a, p);
    var rest := ToIdle(cfg, crew, Apply(cfg, s, a), c, p);
    ExecCons(cfg, s, a, rest);
    run := [a] + rest;
  }

  /** From hold to the CPU being ready to take the task. */
  lemma ReadyToMove(cfg: Config, run: seq<Action>, c: Cpu, p: Pid) returns (more: seq<Action>)
    requires cfg.flagFirst && cfg.capacity >= 1 && cfg.batch >= 1 && Legal(cfg, START, run) && c != 0
    requires var s := Exec(cfg, START, run);
      p in s.k.tasks && s.k.tasks[p].place.Held? && !s.k.tasks[p].overflowed
    ensures var s := Exec(cfg, START, run);
      && Legal(cfg, s, more) && HelpsOnly(CrewOf(s.k, c), more) && EnabledK(cfg, Exec(cfg, s, more).k, Move(c, p))
      && !Exec(cfg, s, more).k.tasks[p].overflowed
  {
    var s := Exec(cfg, START, run);
    var crew := CrewOf(s.k, c);
    RunKeepsStrandInv(cfg, START, run);
    RunKeepsWakeInv(cfg, START, run);
    RunKeepsNoEarlyInsert(cfg, START, run);
    assert Ready(cfg, crew, s, p);
    var first := CanBeReleased(cfg, run, c, p);
    HelpKeepsReady(cfg, crew, s, first, p);
    var second := ToIdle(cfg, crew, Exec(cfg, s, first), c, p);
    ExecAppend(cfg, s, first, second);
    more := first + second;
    HelpKeepsReady(cfg, crew, s, more, p);
    HelpKeepsOverflowed(cfg, crew, s, more, p);
  }

  /**
   Service: in every reachable state a held task whose request fitted the queue can be brought to the local queue of any
   CPU but the first, with the slice userspace decided, by those same steps and one move of that CPU.
   */
  lemma CanBeServed(cfg: Config, run: seq<Action>, c: Cpu, p: Pid) returns (more: seq<Action>)
    requires cfg.flagFirst && cfg.capacity >= 1 && cfg.batch >= 1 && Legal(cfg, START, run) && c != 0
    requires var s := Exec(cfg, START, run);
      p in s.k.tasks && s.k.tasks[p].place.Held? && !s.k.tasks[p].overflowed
    ensures var s := Exec(cfg, START, run);
      && HelpsOnly(CrewOf(s.k, c), more) && Legal(cfg, s, more + [Move(c, p)])
      && p in Exec(cfg, s, more + [Move(c, p)]).k.tasks
      && Exec(cfg, s, more + [Move(c, p)]).k.tasks[p].place == Local(Decided(cfg, p))
  {
    var s := Exec(cfg, START, run);
    more := ReadyToMove(cfg, run, c, p);
    var t := Exec(cfg, s, more);
    RunKeepsStrandInv(cfg, START, run);
    ExecAppend(cfg, START, run, more);
    assert p != cfg.daemon;
    GateAndSlice(cfg, run + more, p);
    MoveGivesCpu(cfg, t.k, c, p);
    ExecCons(cfg, t, Move(c, p), []);
    assert [Move(c, p)] + [] == [Move(c, p)];
    ExecAppend(cfg, s, more, [Move(c, p)]);
  }

  lemma {:induction false} ExecPrefix(cfg: Config, s: State, run: seq<Action>, more: seq<Action>)
    requires Legal(cfg, s, run + more)
    ensures Legal(cfg, s, run) && Legal(cfg, Exec(cfg, s, run), more)
    decreases |run|
  {
    if run == [] {
      assert run + more == more;
    } else {
      assert (run + more)[0] == run[0] && (run + more)[1..] == run[1..] + more;
      ExecPrefix(cfg, Apply(cfg, s, run[0]), run[1..], more);
    }
  }

  /** Some continuation under the scheduler, with no pid enabled twice in a row, brings `p` to a CPU. */
  ghost predicate Servable(cfg: Config, s: State, p: Pid) {
    exists more: seq<Action> ::
      Legal(cfg, s, more) && FreshRun(cfg, s, more) && Disable(p) !in more && OnLocal(Exec(cfg, s, more), p)
  }

  lemma OverflowedIsNotServed(cfg: Config, s: State, more: seq<Action>, p: Pid)
    requires cfg.flagFirst && StrandInv(cfg, s) && ExactInv(cfg, s) && NoEarlyInsert(s.k)
    requires p in s.k.tasks && s.k.tasks[p].place.Held? && s.k.tasks[p].overflowed
    requires Legal(cfg, s, more) && FreshRun(cfg, s, more) && Disable(p) !in more
    ensures !OnLocal(Exec(cfg, s, more), p)
  {
    OverflowedNeverRunsAgain(cfg, s, more, p);
  }

  lemma ServiceIsFresh(cfg: Config, crew: Crew, s: State, more: seq<Action>, c: Cpu, p: Pid)
    requires HelpsOnly(crew, more) && Legal(cfg, s, more + [Move(c, p)])
    ensures FreshRun(cfg, s, more + [Move(c, p)]) && Disable(p) !in more + [Move(c, p)]
  {
    ExecPrefix(cfg, s, more, [Move(c, p)]);
    HelpIsFresh(cfg, crew, s, more);
    assert FreshRun(cfg, Exec(cfg, s, more), [Move(c, p)]);
    FreshAppend(cfg, s, more, [Move(c, p)]);
  }

  lemma FittedIsServable(cfg: Config, run: seq<Action>, p: Pid)
    requires cfg.flagFirst && cfg.capacity >= 1 && cfg.batch >= 1 && Legal(cfg, START, run)
    requires var s := Exec(cfg, START, run);
      p in s.k.tasks && s.k.tasks[p].place.Held? && !s.k.tasks[p].overflowed
    ensures Servable(cfg, Exec(cfg, START, run), p)
  {
    var s := Exec(cfg, START, run);
    var more := CanBeServed(cfg, run, 1, p);
    ServiceIsFresh(cfg, CrewOf(s.k, 1), s, more, 1, p);
  }

  /** A held task can get to a CPU if and only if its request fitted the queue. */
  lemma ServableIff(cfg: Config, run: seq<Action>, p: Pid)
    requires cfg.flagFirst && cfg.capacity >= 1 && cfg.batch >= 1
    requires Legal(cfg, START, run) && FreshRun(cfg, START, run)
    requires var k := Exec(cfg, START, run).k; p in k.tasks && k.tasks[p].place.Held?
    ensures Servable(cfg, Exec(cfg, START, run), p) <==> !Exec(cfg, START, run).k.tasks[p].overflowed
  {
    var s := Exec(cfg, START, run);
    if s.k.tasks[p].overflowed {
      RunKeepsStrandInv(cfg, START, run);
      RunKeepsExactInv(cfg, START, run);
      forall more: seq<Action> | Legal(cfg, s, more) && FreshRun(cfg, s, more) && Disable(p) !in more
        ensures !OnLocal(Exec(cfg, s, more), p)
      {
        OverflowedIsNotServed(cfg, s, more, p);
      }
    } else {
      FittedIsServable(cfg, run, p);
    }
  }

  // ---------- the one slice of an overflow ----------

  /** A request that does not fit: the fallback insert gives the task the default slice, if it takes effect. */
  lemma OverflowGetsDefault(cfg: Config, k: Kernel, p: Pid, took: bool)
    requires EnabledK(cfg, k, Push(p, took)) && |k.enqueued| >= cfg.capacity
    ensures var t, k' := k.tasks[p], ApplyK(cfg, k, Push(p, took));
      && k'.enqueued == k.enqueued && k'.needed == k.needed
      && p in k'.tasks && k'.tasks[p].overflowed && k'.tasks[p].phase.Quiet? && k'.tasks[p].hasSlice == t.hasSlice
      && k'.tasks[p].place == (if took then Shared(SCX_SLICE_DFL) else t.place)
  {
  }

  /** Enabled into a full queue, the task gets to a CPU with the default slice. */
  lemma OverflowRuns(cfg: Config, s: State, c: Cpu, p: Pid) returns (run: seq<Action>)
    requires Flooded(cfg, s, cfg.capacity) && p == cfg.daemon + cfg.capacity + 1 && c != 0
    ensures run == [Enable(p), Push(p, true), Move(c, p)] && Legal(cfg, s, run) && FreshRun(cfg, s, run)
    ensures var k := Exec(cfg, s, run).k;
      InPhase(k, p, Quiet) && k.tasks[p].place == Local(SCX_SLICE_DFL) && k.tasks[p].overflowed
  {
    FloodedIsFresh(cfg, s, cfg.capacity, p);
    var s1 := Apply(cfg, s, Enable(p));
    OverflowGetsDefault(cfg, s1.k, p, true);
    var s2 := Apply(cfg, s1, Push(p, true));
    run := [];
    FreshCons(cfg, s2, Move(c, p), run);
    run := [Move(c, p)] + run;
    FreshCons(cfg, s1, Push(p, true), run);
    run := [Push(p, true)] + run;
    FreshCons(cfg, s, Enable(p), run);
    run := [Enable(p)] + run;
  }

  /** In every reachable state: when an overflowed task leaves, it is on no dispatch queue from then on. */
  lemma LeavesForGood(cfg: Config, run: seq<Action>, p: Pid, more: seq<Action>)
    requires cfg.flagFirst && Legal(cfg, START, run) && FreshRun(cfg, START, run) && p != cfg.daemon
    requires Enabled(cfg, Exec(cfg, START, run), Leave(p)) && Exec(cfg, START, run).k.tasks[p].overflowed
    requires var s := Apply(cfg, Exec(cfg, START, run), Leave(p));
      Legal(cfg, s, more) && FreshRun(cfg, s, more) && Disable(p) !in more
    ensures OutOfService(Exec(cfg, Apply(cfg, Exec(cfg, START, run), Leave(p)), more).k, p)
  {
    RunKeepsExactInv(cfg, START, run);
    StepKeepsExactInv(cfg, Exec(cfg, START, run), Leave(p));
    OverflowedNeverRunsAgain(cfg, Apply(cfg, Exec(cfg, START, run), Leave(p)), more, p);
  }

  /**
   For every capacity and every CPU but the first: a run from the start on which a task whose request did not fit gets
   to that CPU with the default slice; once it leaves, no continuation under the scheduler brings it to a dispatch
   queue again.
   */
  lemma OverflowRunsOnce(cfg: Config, c: Cpu) returns (run: seq<Action>)
    requires cfg.flagFirst && c != 0
    ensures Legal(cfg, START, run) && FreshRun(cfg, START, run)
    ensures var p, s := cfg.daemon + cfg.capacity + 1, Exec(cfg, START, run);
      && p in s.k.tasks && s.k.tasks[p].place == Local(SCX_SLICE_DFL) && Enabled(cfg, s, Leave(p))
      && forall more: seq<Action> |
           && Legal(cfg, Apply(cfg, s, Leave(p)), more) && FreshRun(cfg, Apply(cfg, s, Leave(p)), more)
           && Disable(p) !in more
           :: OutOfService(Exec(cfg, Apply(cfg, s, Leave(p)), more).k, p)
  {
    var p := cfg.daemon + cfg.capacity + 1;
    var flood := FloodFills(cfg, START, cfg.capacity);
    var rest := OverflowRuns(cfg, Exec(cfg, START, flood), c, p);
    FreshAppend(cfg, START, flood, rest);
    run := flood + rest;
    var s := Exec(cfg, START, run);
    forall more: seq<Action> |
      && Legal(cfg, Apply(cfg, s, Leave(p)), more) && FreshRun(cfg, Apply(cfg, s, Leave(p)), more)
      && Disable(p) !in more
      ensures OutOfService(Exec(cfg, Apply(cfg, s, Leave(p)), more).k, p)
    {
      LeavesForGood(cfg, run, p, more);
    }
  }
}

/**
 What single callbacks of the ask-userspace protocol are for, said of reachable states: a dispatch gives the task its
 CPU, a direct dispatch the decided slice, the daemon always reaches the global queue, a task that comes back asks
 again, a CPU going idle reports a backlog, and every message to the daemon is paid for by one setting of the flag.
 */
module AskCallbacks {
  import opened U64
  import opened AskProtocol
  import opened AskStrand
  import opened AskWakeup
  import opened AskGate

  // ---------- tasks ----------

  /** A move brings the task, and nothing else, to the CPU's local queue, with the slice it had on the shared one. */
  lemma MoveGivesCpu(cfg: Config, k: Kernel, c: Cpu, p: Pid)
    requires EnabledK(cfg, k, Move(c, p))
    ensures c != 0 && p in k.tasks && k.tasks[p].place.Shared?
    ensures ApplyK(cfg, k, Move(c, p)) ==
            k.(tasks := k.tasks[p := k.tasks[p].(place := Local(k.tasks[p].place.slice))])
  {
  }

  /** In every reachable state a direct dispatch puts the task on a local queue with the slice userspace decided. */
  lemma DirectHasDecidedSlice(cfg: Config, run: seq<Action>, p: Pid)
    requires cfg.flagFirst && Legal(cfg, START, run) && p != cfg.daemon
    requires Enabled(cfg, Exec(cfg, START, run), SelectDirect(p))
    ensures var k := Exec(cfg, START, run).k; var k' := Apply(cfg, Exec(cfg, START, run), SelectDirect(p)).k;
      k' == k.(tasks := k.tasks[p := k.tasks[p].(place := Local(Decided(cfg, p)))])
  {
    RunKeepsGateInv(cfg, START, run);
    assert GateOk(cfg, Exec(cfg, START, run).k, p);
  }

  /** A task that leaves the scheduler and comes back has lost its slice and asks again, given room in the queue. */
  lemma ComesBackAsking(cfg: Config, s: State, p: Pid, took: bool) returns (run: seq<Action>)
    requires Enabled(cfg, s, Disable(p)) && p != cfg.daemon && |s.k.enqueued| < cfg.capacity
    requires forall c | c in s.k.cpus :: !Answers(s.k.cpus[c], p)
    ensures run == [Disable(p), Enable(p), Push(p, took), SetFlag(p)] && Legal(cfg, s, run)
    ensures var s' := Exec(cfg, s, run);
      && s'.k.enqueued == s.k.enqueued + [p] && s'.k.needed && s'.d == s.d
      && s'.k.tasks == s.k.tasks[p := Task(SCX_SLICE_DFL, false, false, Quiet, Off)]
  {
    var s1 := Apply(cfg, s, Disable(p));
    run := ThreeSteps(cfg, s1, Enable(p), Push(p, took), SetFlag(p));
    ExecCons(cfg, s, Disable(p), run);
    run := [Disable(p)] + run;
    assert Exec(cfg, s, run).k.tasks == s.k.tasks[p := Task(SCX_SLICE_DFL, false, false, Quiet, Off)];
  }

  // ---------- the daemon's own task ----------

  /** Nobody asks for the daemon, and it is off all queues or on the global one. */
  ghost predicate DaemonFree(cfg: Config, s: State) {
    var p := cfg.daemon;
    && !Requested(s, p) && (forall c | c in s.k.cpus :: !Answers(s.k.cpus[c], p))
    && (p in s.k.tasks ==>
          var t := s.k.tasks[p];
          t.phase.Quiet? && !t.hasSlice && !t.overflowed && (t.place.Off? || t.place == Global(SCX_SLICE_INF)))
  }

  lemma KernelKeepsDaemonFree(cfg: Config, s: State, a: Action)
    requires cfg.flagFirst && !IsDaemonStep(a) && DaemonFree(cfg, s) && EnabledK(cfg, s.k, a)
    ensures DaemonFree(cfg, Apply(cfg, s, a))
  {
    var p := cfg.daemon;
    var k' := ApplyK(cfg, s.k, a);
    assert a.PopReply? ==> s.k.dispatched[0].pid != p;
    forall c | c in k'.cpus ensures !Answers(k'.cpus[c], p) && !Pending(k'.cpus[c], p) {
      assert c in s.k.cpus ==> !Answers(s.k.cpus[c], p);
    }
    if p == Target(s.k, a) {
      assert !a.WriteSlice? && !a.WriteFlag? && !a.Insert?;
    } else {
      OthersKept(cfg, s.k, a, p);
    }
  }

  lemma DaemonKeepsDaemonFree(cfg: Config, s: State, a: Action)
    requires IsDaemonStep(a) && DaemonFree(cfg, s) && EnabledD(cfg, s, a)
    ensures DaemonFree(cfg, Apply(cfg, s, a))
  {
  }

  lemma {:induction false} RunKeepsDaemonFree(cfg: Config, s: State, run: seq<Action>)
    requires cfg.flagFirst && DaemonFree(cfg, s) && Legal(cfg, s, run)
    ensures DaemonFree(cfg, Exec(cfg, s, run))
    decreases |run|
  {
    if run != [] {
      if IsDaemonStep(run[0]) {
        DaemonKeepsDaemonFree(cfg, s, run[0]);
      } else {
        KernelKeepsDaemonFree(cfg, s, run[0]);
      }
      RunKeepsDaemonFree(cfg, Apply(cfg, s, run[0]), run[1..]);
    }
  }

  /**
   The daemon is never withheld and never asked about: in every reachable state it is on no queue, and then its enqueue
   puts it on the global one with the infinite slice, or it is there already.  No other task is ever there.
   */
  lemma DaemonIsNeverGated(cfg: Config, run: seq<Action>, p: Pid)
    requires cfg.flagFirst && Legal(cfg, START, run) && p in Exec(cfg, START, run).k.tasks
    ensures var s := Exec(cfg, START, run);
      if p == cfg.daemon then
        && !Requested(s, p)
        && (s.k.tasks[p].place == Global(SCX_SLICE_INF) ||
            (Enabled(cfg, s, EnqBegin(p)) &&
             Apply(cfg, s, EnqBegin(p)).k ==
             s.k.(tasks := s.k.tasks[p := s.k.tasks[p].(place := Global(SCX_SLICE_INF))])))
      else !s.k.tasks[p].place.Global?
  {
    RunKeepsDaemonFree(cfg, START, run);
    RunKeepsGateInv(cfg, START, run);
    if p != cfg.daemon {
      assert GateOk(cfg, Exec(cfg, START, run).k, p);
    }
  }

  // ---------- the flag and the ring ----------

  /** What the daemon has published: everything listed, behind the drain and again behind the batch. */
  ghost predicate Published(s: State) {
    s.d.pc == Batch(0) || s.d.pc.Check? || s.d.pc.Wait? ==> s.k.nrScheduled == |s.d.list|
  }

  lemma {:induction false} RunKeepsPublished(cfg: Config, s: State, run: seq<Action>)
    requires Published(s) && WakeInv(s) && Legal(cfg, s, run)
    ensures Published(Exec(cfg, s, run))
    decreases |run|
  {
    if run != [] {
      StepKeepsWakeInv(cfg, s, run[0]);
      RunKeepsPublished(cfg, Apply(cfg, s, run[0]), run[1..]);
    }
  }

  /**
   A CPU going idle sets the flag exactly when the last published count is not zero; behind the drain, behind the batch
   and while the daemon waits that is when tasks are listed.
   */
  lemma IdleReportsBacklog(cfg: Config, run: seq<Action>)
    requires Legal(cfg, START, run)
    ensures var s := Exec(cfg, START, run); var k' := Apply(cfg, s, UpdateIdle).k;
      && k' == s.k.(needed := k'.needed) && (k'.needed <==> s.k.needed || s.k.nrScheduled != 0)
      && (s.d.pc == Batch(0) || s.d.pc.Check? || s.d.pc.Wait? ==> (k'.needed <==> s.k.needed || s.d.list != []))
  {
    RunKeepsWakeInv(cfg, START, run);
    RunKeepsPublished(cfg, START, run);
  }

  /** In every reachable state a daemon with nothing queued and nothing listed goes to wait, in three steps. */
  lemma IdleDaemonWaits(cfg: Config, run: seq<Action>)
    requires Legal(cfg, START, run)
    requires var s := Exec(cfg, START, run); s.d.pc.Drain? && s.k.enqueued == [] && s.d.list == []
    ensures var s := Exec(cfg, START, run);
      && Legal(cfg, s, [DaemonPop, DaemonEndBatch, DaemonCheck])
      && Exec(cfg, s, [DaemonPop, DaemonEndBatch, DaemonCheck]) ==
         s.(k := s.k.(nrQueued := 0, nrScheduled := 0), d := s.d.(pc := Wait))
  {
    RunKeepsWakeInv(cfg, START, run);
    var steps := ThreeSteps(cfg, Exec(cfg, START, run), DaemonPop, DaemonEndBatch, DaemonCheck);
  }

  function WokenCpus(k: Kernel): set<Cpu> {
    set c | c in k.cpus && k.cpus[c].Woken?
  }

  /** How often the flag is set. */
  function Sets(run: seq<Action>): nat {
    if run == [] then 0 else Sets(run[1..]) + if run[0].SetFlag? || run[0].UpdateIdle? then 1 else 0
  }

  /** How many messages are submitted. */
  function Submits(run: seq<Action>): nat {
    if run == [] then 0 else Submits(run[1..]) + if run[0].Submit? then 1 else 0
  }

  /** Settings of the flag that have not become a message: one in the flag, one for each CPU about to submit. */
  function InFlight(k: Kernel): nat {
    |WokenCpus(k)| + if k.needed then 1 else 0
  }

  lemma OneCpuChanges(k: Kernel, k': Kernel, c: Cpu, pc: CpuPc)
    requires k'.cpus == k.cpus[c := pc] && !PcOf(k, c).Woken?
    ensures WokenCpus(k') == if pc.Woken? then WokenCpus(k) + {c} else WokenCpus(k)
    ensures c !in WokenCpus(k)
  {
  }

  lemma ClearKeepsFlight(cfg: Config, k: Kernel, c: Cpu)
    requires EnabledK(cfg, k, TestAndClear(c))
    ensures !ApplyK(cfg, k, TestAndClear(c)).needed && InFlight(ApplyK(cfg, k, TestAndClear(c))) == InFlight(k)
  {
    var k' := ApplyK(cfg, k, TestAndClear(c));
    OneCpuChanges(k, k', c, k'.cpus[c]);
  }

  lemma SubmitTakesOne(cfg: Config, k: Kernel, c: Cpu)
    requires EnabledK(cfg, k, Submit(c))
    ensures InFlight(ApplyK(cfg, k, Submit(c))) + 1 == InFlight(k)
  {
    assert WokenCpus(k) == WokenCpus(ApplyK(cfg, k, Submit(c))) + {c};
  }

  lemma OthersKeepFlight(cfg: Config, s: State, a: Action)
    requires Enabled(cfg, s, a) && !a.TestAndClear? && !a.Submit?
    ensures WokenCpus(Apply(cfg, s, a).k) == WokenCpus(s.k)
    ensures Apply(cfg, s, a).k.needed ==> s.k.needed || a.SetFlag? || a.UpdateIdle?
  {
  }

  lemma StepKeepsFlight(cfg: Config, s: State, a: Action, rest: seq<Action>)
    requires Enabled(cfg, s, a)
    ensures InFlight(Apply(cfg, s, a).k) + Submits([a] + rest) + Sets(rest) <=
            InFlight(s.k) + Sets([a] + rest) + Submits(rest)
  {
    hide ApplyK, ApplyD, EnabledK, EnabledD;
    assert ([a] + rest)[1..] == rest;
    if a.TestAndClear? {
      ClearKeepsFlight(cfg, s.k, a.cpu);
    } else if a.Submit? {
      SubmitTakesOne(cfg, s.k, a.cpu);
    } else {
      OthersKeepFlight(cfg, s, a);
    }
  }

  /** Over every run, no CPU wakes the daemon twice for one setting of the flag. */
  lemma {:induction false} EachMessageIsAskedFor(cfg: Config, s: State, run: seq<Action>)
    requires Legal(cfg, s, run)
    ensures InFlight(Exec(cfg, s, run).k) + Submits(run) <= InFlight(s.k) + Sets(run)
    decreases |run|
  {
    if run != [] {
      StepKeepsFlight(cfg, s, run[0], run[1..]);
      assert [run[0]] + run[1..] == run;
      EachMessageIsAskedFor(cfg, Apply(cfg, s, run[0]), run[1..]);
    }
  }

  /** How often the daemon is woken. */
  function Wakes(run: seq<Action>): nat {
    if run == [] then 0 else Wakes(run[1..]) + if run[0].DaemonWake? then 1 else 0
  }

  function Unread(k: Kernel): nat {
    if k.ring > 0 then 1 else 0
  }

  lemma StepKeepsUnread(cfg: Config, s: State, a: Action)
    requires Enabled(cfg, s, a)
    ensures Unread(Apply(cfg, s, a).k) + (if a.DaemonWake? then 1 else 0) <= Unread(s.k) + if a.Submit? then 1 else 0
  {
  }

  lemma {:induction false} EachWakeReadsAMessage(cfg: Config, s: State, run: seq<Action>)
    requires Legal(cfg, s, run)
    ensures Unread(Exec(cfg, s, run).k) + Wakes(run) <= Unread(s.k) + Submits(run)
    decreases |run|
  {
    if run != [] {
      StepKeepsUnread(cfg, s, run[0]);
      EachWakeReadsAMessage(cfg, Apply(cfg, s, run[0]), run[1..]);
    }
  }

  /** Over every run the daemon is woken at most once for each message and each setting of the flag. */
  lemma WakesAreAskedFor(cfg: Config, run: seq<Action>)
    requires Legal(cfg, START, run)
    ensures Wakes(run) <= Submits(run) <= Sets(run)
  {
    EachWakeReadsAMessage(cfg, START, run);
    EachMessageIsAskedFor(cfg, START, run);
    assert WokenCpus(START.k) == {};
  }
}

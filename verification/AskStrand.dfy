/**
 No stranded task.  In every reachable state, for every interleaving and whatever tasks come, go and come back,
 a task that is withheld has its request on the way, or its reply about to release it; the one exception is a
 task whose request did not fit the queue.
 */
module AskStrand {
  import opened U64
  import opened AskProtocol

  /** A reply for `p` is popped, but has not yet written has_slice. */
  predicate Pending(pc: CpuPc, p: Pid) {
    (pc.Reply? && pc.entry.pid == p) || (pc.SliceSet? && pc.pid == p)
  }

  predicate Releases(pc: CpuPc, p: Pid) {
    pc.FlagSet? && pc.pid == p
  }

  predicate SomePending(k: Kernel, p: Pid) {
    exists c | c in k.cpus :: Pending(k.cpus[c], p)
  }

  /** A reply for `p` has written has_slice and is about to insert. */
  predicate SomeReleases(k: Kernel, p: Pid) {
    exists c | c in k.cpus :: Releases(k.cpus[c], p)
  }

  /** The request of `p` is somewhere between the push and the write of has_slice. */
  predicate Requested(s: State, p: Pid) {
    || p in s.k.enqueued
    || s.d.pc == Hand(p)
    || Lists(s.d.list, p)
    || Lists(s.k.dispatched, p)
    || SomePending(s.k, p)
  }

  /** Withheld: on no dispatch queue, or about to be. */
  predicate Withheld(t: Task) {
    t.place.Held? || (t.phase.SawNone? && t.place.Off?)
  }

  ghost predicate TaskOk(cfg: Config, s: State, p: Pid)
    requires p in s.k.tasks
  {
    var t := s.k.tasks[p];
    && (p == cfg.daemon ==> t.phase.Quiet? && !t.place.Held?)
    && (t.phase.CtxMade? || t.phase.PushDone? ==> t.place.Off?)
    && (t.place.Held? ==> t.phase.Quiet?)
    && (p != cfg.daemon && !t.hasSlice && !t.overflowed && !t.phase.CtxMade? ==> Requested(s, p))
    && (t.hasSlice && Withheld(t) ==> SomeReleases(s.k, p))
  }

  ghost predicate StrandInv(cfg: Config, s: State) {
    forall p | p in s.k.tasks :: TaskOk(cfg, s, p)
  }

  lemma PendingKept(cfg: Config, k: Kernel, a: Action, p: Pid)
    requires cfg.flagFirst && !IsDaemonStep(a) && EnabledK(cfg, k, a) && SomePending(k, p) && p in k.tasks
    requires a.WriteFlag? ==> PcOf(k, a.cpu).pid != p
    ensures SomePending(ApplyK(cfg, k, a), p)
  {
    var k' := ApplyK(cfg, k, a);
    var c :| c in k.cpus && Pending(k.cpus[c], p);
    assert c in k'.cpus && Pending(k'.cpus[c], p);
  }

  lemma RequestKeptByKernel(cfg: Config, s: State, a: Action, p: Pid)
    requires cfg.flagFirst && !IsDaemonStep(a) && EnabledK(cfg, s.k, a) && Requested(s, p) && p in s.k.tasks
    requires a.WriteFlag? ==> PcOf(s.k, a.cpu).pid != p
    ensures Requested(Apply(cfg, s, a), p)
  {
    var k' := ApplyK(cfg, s.k, a);
    if SomePending(s.k, p) {
      PendingKept(cfg, s.k, a, p);
    } else if a.PopReply? && Lists(s.k.dispatched, p) {
      var i :| 0 <= i < |s.k.dispatched| && s.k.dispatched[i].pid == p;
      if i == 0 {
        assert a.cpu in k'.cpus && Pending(k'.cpus[a.cpu], p);
      } else {
        assert k'.dispatched[i - 1].pid == p;
      }
    }
  }

  lemma RequestKeptByDaemon(cfg: Config, s: State, a: Action, p: Pid)
    requires IsDaemonStep(a) && EnabledD(cfg, s, a) && Requested(s, p)
    ensures Requested(ApplyD(cfg, s, a), p)
  {
    var s' := ApplyD(cfg, s, a);
    match a
    case DaemonPop =>
      if p in s.k.enqueued {
        assert p == s.k.enqueued[0] || p in s.k.enqueued[1..];
      }
    case DaemonList =>
      if s.d.pc == Hand(p) && !Lists(s.d.list, p) {
        assert s'.d.list[|s.d.list|].pid == p;
      } else if Lists(s.d.list, p) {
        var i :| 0 <= i < |s.d.list| && s.d.list[i].pid == p;
        assert s'.d.list[i].pid == p;
      }
    case DaemonPush =>
      if |s.k.dispatched| < cfg.capacity {
        if Lists(s.d.list, p) {
          var i :| 0 <= i < |s.d.list| && s.d.list[i].pid == p;
          if i == 0 {
            assert s'.k.dispatched[|s.k.dispatched|].pid == p;
          } else {
            assert s'.d.list[i - 1].pid == p;
          }
        } else if Lists(s.k.dispatched, p) {
          var i :| 0 <= i < |s.k.dispatched| && s.k.dispatched[i].pid == p;
          assert s'.k.dispatched[i].pid == p;
        }
      }
    case _ =>
  }

  lemma ReleaseKept(cfg: Config, k: Kernel, a: Action, p: Pid)
    requires cfg.flagFirst && !IsDaemonStep(a) && EnabledK(cfg, k, a) && SomeReleases(k, p)
    requires a.Insert? ==> PcOf(k, a.cpu).pid != p
    ensures SomeReleases(ApplyK(cfg, k, a), p)
  {
    var k' := ApplyK(cfg, k, a);
    var c :| c in k.cpus && Releases(k.cpus[c], p);
    assert c in k'.cpus && Releases(k'.cpus[c], p);
  }

  /** The task a kernel step works on, if any. */
  function Target(k: Kernel, a: Action): (p: int) {
    match a
    case TestAndClear(_) => -1
    case Submit(_) => -1
    case PopReply(_) => -1
    case DrainDone(_) => -1
    case UpdateIdle => -1
    case WriteSlice(cpu) => if PcOf(k, cpu).Reply? then PcOf(k, cpu).entry.pid else -1
    case WriteFlag(cpu) => if PcOf(k, cpu).SliceSet? then PcOf(k, cpu).pid else -1
    case Insert(cpu) => if PcOf(k, cpu).FlagSet? then PcOf(k, cpu).pid else -1
    case DaemonPop => -1
    case DaemonList => -1
    case DaemonPush => -1
    case DaemonEndBatch => -1
    case DaemonCheck => -1
    case DaemonWake => -1
    case _ => a.p
  }

  lemma OthersKept(cfg: Config, k: Kernel, a: Action, p: Pid)
    requires cfg.flagFirst && !IsDaemonStep(a) && EnabledK(cfg, k, a) && p != Target(k, a)
    ensures p in k.tasks <==> p in ApplyK(cfg, k, a).tasks
    ensures p in k.tasks ==> ApplyK(cfg, k, a).tasks[p] == k.tasks[p]
  {}

  /** A task that is left alone stays in order if its request and its release are not lost. */
  lemma TaskCarries(cfg: Config, s: State, s': State, p: Pid)
    requires p in s.k.tasks && p in s'.k.tasks && s'.k.tasks[p] == s.k.tasks[p] && TaskOk(cfg, s, p)
    requires Requested(s, p) ==> Requested(s', p)
    requires SomeReleases(s.k, p) ==> SomeReleases(s'.k, p)
    ensures TaskOk(cfg, s', p)
  {}

  lemma KernelStepKeepsOther(cfg: Config, s: State, a: Action, p: Pid)
    requires cfg.flagFirst && !IsDaemonStep(a) && EnabledK(cfg, s.k, a) && p != Target(s.k, a)
    requires p in s.k.tasks && TaskOk(cfg, s, p)
    ensures p in Apply(cfg, s, a).k.tasks && TaskOk(cfg, Apply(cfg, s, a), p)
  {
    var s' := Apply(cfg, s, a);
    OthersKept(cfg, s.k, a, p);
    if Requested(s, p) {
      assert a.WriteFlag? ==> PcOf(s.k, a.cpu).pid != p;
      RequestKeptByKernel(cfg, s, a, p);
    }
    if SomeReleases(s.k, p) {
      assert a.Insert? ==> PcOf(s.k, a.cpu).pid != p;
      ReleaseKept(cfg, s.k, a, p);
    }
    TaskCarries(cfg, s, s', p);
  }

  /** Steps of the task's own callbacks. */
  lemma OwnStepKeepsTask(cfg: Config, s: State, a: Action, p: Pid)
    requires cfg.flagFirst && !IsDaemonStep(a) && EnabledK(cfg, s.k, a) && p == Target(s.k, a)
    requires !a.WriteSlice? && !a.WriteFlag? && !a.Insert? && !a.Enable?
    requires p in s.k.tasks && TaskOk(cfg, s, p)
    ensures p in Apply(cfg, s, a).k.tasks ==> TaskOk(cfg, Apply(cfg, s, a), p)
  {
    var s' := Apply(cfg, s, a);
    if Requested(s, p) {
      RequestKeptByKernel(cfg, s, a, p);
    }
    if SomeReleases(s.k, p) {
      ReleaseKept(cfg, s.k, a, p);
    }
    if a.Push? && |s.k.enqueued| < cfg.capacity {
      assert s'.k.enqueued[|s.k.enqueued|] == p;
    }
  }

  /** Steps of a reply to the task. */
  lemma ReplyStepKeepsTask(cfg: Config, s: State, a: Action, p: Pid)
    requires cfg.flagFirst && (a.WriteSlice? || a.WriteFlag? || a.Insert?)
    requires EnabledK(cfg, s.k, a) && p == Target(s.k, a)
    requires p in s.k.tasks && TaskOk(cfg, s, p)
    ensures TaskOk(cfg, Apply(cfg, s, a), p)
  {
    var s' := Apply(cfg, s, a);
    match a
    case WriteSlice(cpu) =>
      if Requested(s, p) {
        RequestKeptByKernel(cfg, s, a, p);
      }
      if SomeReleases(s.k, p) {
        ReleaseKept(cfg, s.k, a, p);
      }
    case WriteFlag(cpu) =>
      assert cpu in s'.k.cpus && Releases(s'.k.cpus[cpu], p);
    case Insert(cpu) =>
      assert !Withheld(s'.k.tasks[p]);
      if Requested(s, p) {
        RequestKeptByKernel(cfg, s, a, p);
      }
  }

  lemma StepKeepsStrandInv(cfg: Config, s: State, a: Action)
    requires cfg.flagFirst && StrandInv(cfg, s) && Enabled(cfg, s, a)
    ensures StrandInv(cfg, Apply(cfg, s, a))
  {
    var s' := Apply(cfg, s, a);
    forall p | p in s'.k.tasks ensures TaskOk(cfg, s', p) {
      if IsDaemonStep(a) {
        assert TaskOk(cfg, s, p);
        if Requested(s, p) {
          RequestKeptByDaemon(cfg, s, a, p);
        }
      } else if p != Target(s.k, a) {
        OthersKept(cfg, s.k, a, p);
        KernelStepKeepsOther(cfg, s, a, p);
      } else if a.WriteSlice? || a.WriteFlag? || a.Insert? {
        ReplyStepKeepsTask(cfg, s, a, p);
      } else if !a.Enable? {
        OwnStepKeepsTask(cfg, s, a, p);
      }
    }
  }

  lemma {:induction false} RunKeepsStrandInv(cfg: Config, s: State, run: seq<Action>)
    requires cfg.flagFirst && StrandInv(cfg, s) && Legal(cfg, s, run)
    ensures StrandInv(cfg, Exec(cfg, s, run))
    decreases |run|
  {
    if run != [] {
      StepKeepsStrandInv(cfg, s, run[0]);
      RunKeepsStrandInv(cfg, Apply(cfg, s, run[0]), run[1..]);
    }
  }

  /** No stranded task: what is held has a request on the way or a reply about to release it, unless it overflowed. */
  lemma NoStrandedTask(cfg: Config, run: seq<Action>, p: Pid)
    requires cfg.flagFirst && Legal(cfg, START, run)
    requires var s := Exec(cfg, START, run);
      p in s.k.tasks && s.k.tasks[p].place.Held? && !s.k.tasks[p].overflowed
    ensures var s := Exec(cfg, START, run);
      if s.k.tasks[p].hasSlice then SomeReleases(s.k, p) else Requested(s, p)
  {
    RunKeepsStrandInv(cfg, START, run);
    assert TaskOk(cfg, Exec(cfg, START, run), p);
  }

  /** Release race: once the enqueue and the reply are both over, a task with a slice is not held. */
  lemma ReleaseRace(cfg: Config, run: seq<Action>, p: Pid)
    requires cfg.flagFirst && Legal(cfg, START, run)
    requires var s := Exec(cfg, START, run);
      p in s.k.tasks && s.k.tasks[p].hasSlice && forall c | c in s.k.cpus :: !Answers(s.k.cpus[c], p)
    ensures !Exec(cfg, START, run).k.tasks[p].place.Held?
  {
    RunKeepsStrandInv(cfg, START, run);
    assert TaskOk(cfg, Exec(cfg, START, run), p);
  }

  // ----- the race between one enqueue and one reply

  /** A step that has nothing to do with `p`. */
  predicate Bystander(s: State, a: Action, p: Pid) {
    Target(s.k, a) != p && !(a.PopReply? && s.k.dispatched != [] && s.k.dispatched[0].pid == p)
  }

  /** One of the five steps of the race. */
  predicate RaceStep(a: Action, p: Pid, cpu: Cpu) {
    a == EnqBegin(p) || a == EnqRead(p) || a == EnqEnd(p) || a == WriteFlag(cpu) || a == Insert(cpu)
  }

  /** How far the race has come; `begun` tells whether the enqueue has started. */
  ghost predicate Racing(k: Kernel, p: Pid, cpu: Cpu, slice: u64, begun: bool) {
    && p in k.tasks
    && (var t, pc := k.tasks[p], PcOf(k, cpu);
      && t.slice == slice
      && (if Answers(pc, p) then (if t.hasSlice then pc.FlagSet? else pc.SliceSet?) else t.hasSlice)
      && (!begun ==> t.phase.Quiet? && t.place.Off?)
      && (begun && t.phase.Quiet? ==> t.place == Shared(slice) || (t.place.Held? && Answers(pc, p)))
      && (begun && !t.phase.Quiet? ==> t.place == Shared(slice) || t.place.Off?)
      && (begun ==> !t.phase.CtxMade? && !t.phase.PushDone?)
      && (t.phase.SawNone? && t.place.Off? ==> Answers(pc, p)))
    && forall c | c in k.cpus && c != cpu :: !Answers(k.cpus[c], p)
  }

  /** The steps of the run that touch `p` are those of one enqueue and one reply. */
  predicate RaceOnly(cfg: Config, s: State, run: seq<Action>, p: Pid, cpu: Cpu, begun: bool)
    requires Legal(cfg, s, run)
    decreases |run|
  {
    run == [] || (
      && (Bystander(s, run[0], p) || (RaceStep(run[0], p, cpu) && !(begun && run[0] == EnqBegin(p))))
      && RaceOnly(cfg, Apply(cfg, s, run[0]), run[1..], p, cpu, begun || run[0] == EnqBegin(p)))
  }

  lemma RaceStepKeepsRacing(cfg: Config, s: State, a: Action, p: Pid, cpu: Cpu, slice: u64, begun: bool)
    requires cfg.flagFirst && p != cfg.daemon && Enabled(cfg, s, a) && Racing(s.k, p, cpu, slice, begun)
    requires Target(s.k, a) == p && RaceStep(a, p, cpu) && !(begun && a == EnqBegin(p))
    ensures Racing(Apply(cfg, s, a).k, p, cpu, slice, begun || a == EnqBegin(p))
  {}

  /** A bystander neither starts nor moves nor ends a reply to `p`. */
  lemma BystanderKeepsReplies(cfg: Config, s: State, a: Action, p: Pid, c: Cpu)
    requires cfg.flagFirst && Enabled(cfg, s, a) && Bystander(s, a, p)
    requires PcOf(s.k, c).Inserted? ==> !Answers(PcOf(s.k, c), p)
    ensures var pc, pc' := PcOf(s.k, c), PcOf(Apply(cfg, s, a).k, c);
      if Answers(pc, p) then pc' == pc else !Answers(pc', p)
  {}

  lemma BystanderKeepsRacing(cfg: Config, s: State, a: Action, p: Pid, cpu: Cpu, slice: u64, begun: bool)
    requires cfg.flagFirst && Enabled(cfg, s, a) && Racing(s.k, p, cpu, slice, begun) && Bystander(s, a, p)
    ensures Racing(Apply(cfg, s, a).k, p, cpu, slice, begun)
  {
    var k' := Apply(cfg, s, a).k;
    if !IsDaemonStep(a) {
      OthersKept(cfg, s.k, a, p);
    }
    BystanderKeepsReplies(cfg, s, a, p, cpu);
    forall c | c in k'.cpus && c != cpu ensures !Answers(k'.cpus[c], p) {
      assert c in s.k.cpus || PcOf(s.k, c) == Idle;
      BystanderKeepsReplies(cfg, s, a, p, c);
    }
  }

  /**
   Release race, in full: in every interleaving of one enqueue of `p` (begin, read has_slice, hold or insert) with
   one reply to it (write has_slice, then insert), among any other steps, once both are over the task is on the
   shared queue, with the slice of the reply.
   */
  lemma {:induction false} RaceReleasesOnce(
    cfg: Config, s: State, run: seq<Action>, p: Pid, cpu: Cpu, slice: u64, begun: bool)
    requires cfg.flagFirst && p != cfg.daemon && Legal(cfg, s, run)
    requires Racing(s.k, p, cpu, slice, begun) && RaceOnly(cfg, s, run, p, cpu, begun)
    requires begun || EnqBegin(p) in run
    ensures var k := Exec(cfg, s, run).k;
      p in k.tasks && (k.tasks[p].phase.Quiet? && !Answers(PcOf(k, cpu), p) ==> k.tasks[p].place == Shared(slice))
    decreases |run|
  {
    if run != [] {
      var a := run[0];
      assert run == [a] + run[1..];
      if Bystander(s, a, p) {
        BystanderKeepsRacing(cfg, s, a, p, cpu, slice, begun);
      } else {
        RaceStepKeepsRacing(cfg, s, a, p, cpu, slice, begun);
      }
      RaceReleasesOnce(cfg, Apply(cfg, s, a), run[1..], p, cpu, slice, begun || a == EnqBegin(p));
    }
  }

  /** `p` is held, has its slice, and no reply is left to release it. */
  ghost predicate Abandoned(k: Kernel, p: Pid) {
    p in k.tasks && k.tasks[p].hasSlice && k.tasks[p].place.Held? && forall c | c in k.cpus :: !Answers(k.cpus[c], p)
  }

  /** The whole enqueue callback of a task, uninterrupted. */
  function EnqueueRun(p: Pid): seq<Action> {
    [EnqBegin(p), EnqRead(p), EnqEnd(p)]
  }

  /** The kernel after the begin of an enqueue and the look at has_slice. */
  lemma EnqueueLooks(cfg: Config, k: Kernel, p: Pid)
    requires p != cfg.daemon && InPhase(k, p, Quiet) && k.tasks[p].place.Off? && !k.tasks[p].hasSlice
    ensures EnabledK(cfg, k, EnqBegin(p)) && EnabledK(cfg, ApplyK(cfg, k, EnqBegin(p)), EnqRead(p))
    ensures ApplyK(cfg, ApplyK(cfg, k, EnqBegin(p)), EnqRead(p)) == SetTask(k, p, k.tasks[p].(phase := SawNone))
  {
    assert k.tasks[p := k.tasks[p].(phase := Queueing)][p := k.tasks[p].(phase := SawNone)]
        == k.tasks[p := k.tasks[p].(phase := SawNone)];
  }

  /** Without a slice the enqueue withholds the task and does nothing else. */
  lemma EnqueueWithholds(cfg: Config, s: State, p: Pid)
    requires p != cfg.daemon && InPhase(s.k, p, Quiet) && s.k.tasks[p].place.Off? && !s.k.tasks[p].hasSlice
    ensures Legal(cfg, s, EnqueueRun(p))
    ensures Exec(cfg, s, EnqueueRun(p)) == s.(k := SetTask(s.k, p, s.k.tasks[p].(place := Held)))
  {
    EnqueueLooks(cfg, s.k, p);
    var run := ThreeSteps(cfg, s, EnqBegin(p), EnqRead(p), EnqEnd(p));
    assert run == EnqueueRun(p);
    assert s.k.tasks[p := s.k.tasks[p].(phase := SawNone)][p := s.k.tasks[p].(place := Held)]
        == s.k.tasks[p := s.k.tasks[p].(place := Held)];
  }

  /** With the last two writes of the reply swapped, the same race leaves the task held with nobody to release it. */
  lemma SwappedWritesStrand(cfg: Config, s: State, p: Pid, cpu: Cpu)
    requires !cfg.flagFirst && p != cfg.daemon && p in s.k.tasks && PcOf(s.k, cpu).SliceSet? && PcOf(s.k, cpu).pid == p
    requires s.k.tasks[p].phase.Quiet? && s.k.tasks[p].place.Off? && !s.k.tasks[p].hasSlice
    requires forall c | c in s.k.cpus && c != cpu :: !Answers(s.k.cpus[c], p)
    ensures var run := [Insert(cpu), EnqBegin(p), EnqRead(p), EnqEnd(p), WriteFlag(cpu)];
      Legal(cfg, s, run) && Abandoned(Exec(cfg, s, run).k, p)
  {
    var s1 := Apply(cfg, s, Insert(cpu));
    EnqueueWithholds(cfg, s1, p);
    var s2 := Exec(cfg, s1, EnqueueRun(p));
    ExecCons(cfg, s2, WriteFlag(cpu), []);
    ExecAppend(cfg, s1, EnqueueRun(p), [WriteFlag(cpu)] + []);
    ExecCons(cfg, s, Insert(cpu), EnqueueRun(p) + ([WriteFlag(cpu)] + []));
    assert [Insert(cpu)] + (EnqueueRun(p) + ([WriteFlag(cpu)] + []))
        == [Insert(cpu), EnqBegin(p), EnqRead(p), EnqEnd(p), WriteFlag(cpu)];
  }
}

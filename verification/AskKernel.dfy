/**
 The callbacks of the ask-userspace BPF program as they are written, in place.  Without interference each is a
 short run of the protocol's kernel steps; interleaved, its steps are those of the protocol.
 */
module AskKernel {
  import opened U64
  import opened Slices
  import opened AskProtocol

  const ENOENT := 2
  const ENOMEM := 12

  /** The task map after one reply: slice, then has_slice, then the insert; a pid without a context is skipped. */
  function Answered(tasks: map<Pid, Task>, e: Entry): map<Pid, Task> {
    if e.pid in tasks then
      tasks[e.pid := Released(tasks[e.pid].(slice := Decode(e.code), hasSlice := true))]
    else tasks
  }

  function AnsweredAll(tasks: map<Pid, Task>, es: seq<Entry>, n: nat): map<Pid, Task>
    requires n <= |es|
  {
    if n == 0 then tasks else Answered(AnsweredAll(tasks, es, n - 1), es[n - 1])
  }

  /** The kernel after one round of the drain loop. */
  function AfterReply(k: Kernel, cpu: Cpu): Kernel
    requires PcOf(k, cpu).Draining? && PcOf(k, cpu).left > 0 && k.dispatched != []
  {
    k.(tasks := Answered(k.tasks, k.dispatched[0]), dispatched := k.dispatched[1..],
       cpus := k.cpus[cpu := Draining(PcOf(k, cpu).left - 1)])
  }

  /** The kernel after the writes of slice and has_slice. */
  lemma FieldsWritten(cfg: Config, k: Kernel, cpu: Cpu)
    requires cfg.flagFirst && PcOf(k, cpu).Reply? && PcOf(k, cpu).entry.pid in k.tasks
    ensures var e := PcOf(k, cpu).entry; var k1 := ApplyK(cfg, k, WriteSlice(cpu));
      && EnabledK(cfg, k1, WriteFlag(cpu))
      && ApplyK(cfg, k1, WriteFlag(cpu)) ==
         k.(tasks := k.tasks[e.pid := k.tasks[e.pid].(slice := Decode(e.code), hasSlice := true)],
            cpus := k.cpus[cpu := FlagSet(e.pid, PcOf(k, cpu).left)])
  {
  }

  /** The three writes for a popped reply to a task with a live context. */
  lemma ReplyWrites(cfg: Config, s: State, cpu: Cpu) returns (run: seq<Action>)
    requires cfg.flagFirst && PcOf(s.k, cpu).Reply? && PcOf(s.k, cpu).entry.pid in s.k.tasks
    ensures Legal(cfg, s, run)
    ensures Exec(cfg, s, run) == s.(k := s.k.(tasks := Answered(s.k.tasks, PcOf(s.k, cpu).entry),
                                              cpus := s.k.cpus[cpu := Draining(PcOf(s.k, cpu).left)]))
  {
    FieldsWritten(cfg, s.k, cpu);
    run := ThreeSteps(cfg, s, WriteSlice(cpu), WriteFlag(cpu), Insert(cpu));
  }

  lemma AnswerIsRun(cfg: Config, s: State, cpu: Cpu) returns (run: seq<Action>)
    requires cfg.flagFirst && PcOf(s.k, cpu).Draining? && PcOf(s.k, cpu).left > 0 && s.k.dispatched != []
    ensures Legal(cfg, s, run) && Exec(cfg, s, run).k == AfterReply(s.k, cpu) && Exec(cfg, s, run).d == s.d
  {
    var s1 := Apply(cfg, s, PopReply(cpu));
    var rest: seq<Action>;
    if s.k.dispatched[0].pid in s.k.tasks {
      rest := ReplyWrites(cfg, s1, cpu);
    } else {
      ExecCons(cfg, s1, WriteSlice(cpu), []);
      rest := [WriteSlice(cpu)] + [];
    }
    ExecCons(cfg, s, PopReply(cpu), rest);
    run := [PopReply(cpu)] + rest;
    assert Exec(cfg, s, run).k.cpus == AfterReply(s.k, cpu).cpus;
  }

  /** The kernel after `n` rounds of the drain loop on this CPU. */
  function AfterRounds(k: Kernel, cpu: Cpu, n: nat): Kernel
    requires PcOf(k, cpu).Draining? && n <= |k.dispatched| && n <= PcOf(k, cpu).left
  {
    k.(tasks := AnsweredAll(k.tasks, k.dispatched, n), dispatched := k.dispatched[n..],
       cpus := k.cpus[cpu := Draining(PcOf(k, cpu).left - n)])
  }

  lemma OneMoreRound(k: Kernel, cpu: Cpu, n: nat)
    requires PcOf(k, cpu).Draining? && 0 < n <= |k.dispatched| && n <= PcOf(k, cpu).left
    ensures var t := AfterRounds(k, cpu, n - 1);
      && PcOf(t, cpu).Draining? && PcOf(t, cpu).left > 0 && t.dispatched != []
      && AfterReply(t, cpu) == AfterRounds(k, cpu, n)
  {
    var t := AfterRounds(k, cpu, n - 1);
    assert t.dispatched[0] == k.dispatched[n - 1] && t.dispatched[1..] == k.dispatched[n..];
    assert AfterReply(t, cpu).cpus == AfterRounds(k, cpu, n).cpus;
  }

  /** dequeue_tasks_from_userspace is popping and answering. */
  lemma {:induction false} DrainRepliesIsRun(cfg: Config, s: State, cpu: Cpu, n: nat) returns (run: seq<Action>)
    requires cfg.flagFirst && PcOf(s.k, cpu).Draining? && n <= |s.k.dispatched| && n <= PcOf(s.k, cpu).left
    ensures Legal(cfg, s, run) && Exec(cfg, s, run).k == AfterRounds(s.k, cpu, n) && Exec(cfg, s, run).d == s.d
  {
    if n == 0 {
      assert s.k.cpus[cpu := Draining(PcOf(s.k, cpu).left)] == s.k.cpus;
      return [];
    }
    var most := DrainRepliesIsRun(cfg, s, cpu, n - 1);
    OneMoreRound(s.k, cpu, n);
    var more := AnswerIsRun(cfg, Exec(cfg, s, most), cpu);
    ExecAppend(cfg, s, most, more);
    run := most + more;
  }

  /** The dispatch callback up to the walk over the shared queue: at most MAX_ENQUEUED_TASKS replies are taken. */
  function AfterDispatch(cfg: Config, k: Kernel, cpu: Cpu): Kernel {
    var m := Min(cfg.capacity, |k.dispatched|);
    k.(tasks := AnsweredAll(k.tasks, k.dispatched, m), dispatched := k.dispatched[m..], needed := false,
       ring := k.ring + if k.needed then 1 else 0, cpus := k.cpus[cpu := Idle])
  }

  lemma ClearIsRun(cfg: Config, s: State, cpu: Cpu) returns (run: seq<Action>)
    requires PcOf(s.k, cpu).Idle?
    ensures Legal(cfg, s, run) && Exec(cfg, s, run).d == s.d
    ensures Exec(cfg, s, run).k == s.k.(needed := false, ring := s.k.ring + if s.k.needed then 1 else 0,
                                        cpus := s.k.cpus[cpu := Draining(cfg.capacity)])
  {
    var s1 := Apply(cfg, s, TestAndClear(cpu));
    if s.k.needed {
      ExecCons(cfg, s1, Submit(cpu), []);
      ExecCons(cfg, s, TestAndClear(cpu), [Submit(cpu)] + []);
      run := [TestAndClear(cpu)] + ([Submit(cpu)] + []);
      assert s.k.cpus[cpu := Woken][cpu := Draining(cfg.capacity)] == s.k.cpus[cpu := Draining(cfg.capacity)];
    } else {
      ExecCons(cfg, s, TestAndClear(cpu), []);
      run := [TestAndClear(cpu)] + [];
    }
  }

  /** The drain loop up to its end, and the way out of the callback. */
  lemma DrainToIdle(cfg: Config, s: State, cpu: Cpu, n: nat) returns (run: seq<Action>)
    requires cfg.flagFirst && PcOf(s.k, cpu).Draining? && n <= |s.k.dispatched| && n <= PcOf(s.k, cpu).left
    requires n == |s.k.dispatched| || n == PcOf(s.k, cpu).left
    ensures Legal(cfg, s, run) && Exec(cfg, s, run).d == s.d
    ensures Exec(cfg, s, run).k ==
            s.k.(tasks := AnsweredAll(s.k.tasks, s.k.dispatched, n), dispatched := s.k.dispatched[n..],
                 cpus := s.k.cpus[cpu := Idle])
  {
    var rounds := DrainRepliesIsRun(cfg, s, cpu, n);
    var s1 := Exec(cfg, s, rounds);
    ExecCons(cfg, s1, DrainDone(cpu), []);
    ExecAppend(cfg, s, rounds, [DrainDone(cpu)] + []);
    run := rounds + ([DrainDone(cpu)] + []);
    assert s.k.cpus[cpu := Draining(PcOf(s.k, cpu).left - n)][cpu := Idle] == s.k.cpus[cpu := Idle];
  }

  /** An uninterrupted dispatch callback is a run of the protocol. */
  lemma DispatchIsRun(cfg: Config, s: State, cpu: Cpu) returns (run: seq<Action>)
    requires cfg.flagFirst && PcOf(s.k, cpu).Idle?
    ensures Legal(cfg, s, run) && Exec(cfg, s, run).k == AfterDispatch(cfg, s.k, cpu) && Exec(cfg, s, run).d == s.d
  {
    var clear := ClearIsRun(cfg, s, cpu);
    var drain := DrainToIdle(cfg, Exec(cfg, s, clear), cpu, Min(cfg.capacity, |s.k.dispatched|));
    ExecAppend(cfg, s, clear, drain);
    run := clear + drain;
    assert s.k.cpus[cpu := Draining(cfg.capacity)][cpu := Idle] == s.k.cpus[cpu := Idle];
  }

  /** Neither queue ever holds more than fits. */
  lemma {:induction false} QueuesFit(cfg: Config, s: State, run: seq<Action>)
    requires Legal(cfg, s, run) && |s.k.enqueued| <= cfg.capacity && |s.k.dispatched| <= cfg.capacity
    ensures var k := Exec(cfg, s, run).k; |k.enqueued| <= cfg.capacity && |k.dispatched| <= cfg.capacity
    decreases |run|
  {
    if run != [] {
      QueuesFit(cfg, Apply(cfg, s, run[0]), run[1..]);
    }
  }

  /** Whoever is among the first `n` replies has its slice decided and is not held any more. */
  lemma {:induction false} AnsweredAllReleases(tasks: map<Pid, Task>, es: seq<Entry>, n: nat, p: Pid)
    requires n <= |es| && p in tasks
    ensures p in AnsweredAll(tasks, es, n)
    ensures (exists i :: 0 <= i < n && es[i].pid == p) || (tasks[p].hasSlice && !tasks[p].place.Held?) ==>
              AnsweredAll(tasks, es, n)[p].hasSlice && !AnsweredAll(tasks, es, n)[p].place.Held?
  {
    if n > 0 {
      AnsweredAllReleases(tasks, es, n - 1, p);
    }
  }

  /**
   In every reachable state an uninterrupted dispatch callback takes every reply that is queued: the queue is empty, the
   flag clear, and whoever was replied to and has a context has a slice and is not held.
   */
  lemma DispatchTakesAll(cfg: Config, run: seq<Action>, cpu: Cpu) returns (more: seq<Action>)
    requires cfg.flagFirst && Legal(cfg, START, run) && PcOf(Exec(cfg, START, run).k, cpu).Idle?
    ensures var s := Exec(cfg, START, run);
      && Legal(cfg, s, more)
      && var s' := Exec(cfg, s, more);
         && s'.k.dispatched == [] && !s'.k.needed && PcOf(s'.k, cpu).Idle? && s'.d == s.d
         && forall i | 0 <= i < |s.k.dispatched| && s.k.dispatched[i].pid in s.k.tasks ::
              var p := s.k.dispatched[i].pid;
              p in s'.k.tasks && s'.k.tasks[p].hasSlice && !s'.k.tasks[p].place.Held?
  {
    var s := Exec(cfg, START, run);
    QueuesFit(cfg, START, run);
    more := DispatchIsRun(cfg, s, cpu);
    assert Min(cfg.capacity, |s.k.dispatched|) == |s.k.dispatched|;
    forall i | 0 <= i < |s.k.dispatched| && s.k.dispatched[i].pid in s.k.tasks
      ensures var p := s.k.dispatched[i].pid; var t := AnsweredAll(s.k.tasks, s.k.dispatched, |s.k.dispatched|);
        p in t && t[p].hasSlice && !t[p].place.Held?
    {
      AnsweredAllReleases(s.k.tasks, s.k.dispatched, |s.k.dispatched|, s.k.dispatched[i].pid);
    }
  }

  class Program {
    const cfg: Config
    var tasks: map<Pid, Task>
    var enqueued: seq<Pid>
    var dispatched: seq<Entry>
    var needed: bool
    var ring: nat
    var nrQueued: int
    var nrScheduled: int
    var nrUserEnqueues: nat
    var nrFailedEnqueues: nat
    ghost var cpus: map<Cpu, CpuPc>

    ghost function View(): Kernel
      reads this
    {
      Kernel(tasks, cpus, enqueued, dispatched, needed, ring, nrQueued, nrScheduled)
    }

    constructor (cfg: Config)
      ensures this.cfg == cfg && View() == START.k
    {
      this.cfg := cfg;
      tasks, enqueued, dispatched, needed, ring, nrQueued, nrScheduled := map[], [], [], false, 0, 0, 0;
      nrUserEnqueues, nrFailedEnqueues, cpus := 0, 0, map[];
    }

    method SetUserschedNeeded()
      modifies this`needed
      ensures needed
    {
      needed := true;
    }

    method TestAndClearUserschedNeeded() returns (was: bool)
      modifies this`needed
      ensures was == old(needed) && !needed
    {
      was := needed;
      needed := false;
    }

    /** enqueue_task_in_userspace; `took` tells whether the fallback insert takes effect in the enable context. */
    method EnqueueTaskInUserspace(p: Pid, took: bool)
      requires InPhase(View(), p, CtxMade)
      modifies this`tasks, this`enqueued, this`needed, this`nrUserEnqueues, this`nrFailedEnqueues
      ensures var k1 := ApplyK(cfg, old(View()), Push(p, took));
        View() == if |old(enqueued)| < cfg.capacity then ApplyK(cfg, k1, SetFlag(p)) else k1
      ensures p in tasks && tasks[p].phase.Quiet?
      ensures if |old(enqueued)| < cfg.capacity
        then enqueued == old(enqueued) + [p] && needed && tasks[p].place == old(tasks)[p].place
        else enqueued == old(enqueued) && tasks[p].overflowed && (took ==> tasks[p].place == Shared(SCX_SLICE_DFL))
      ensures if |old(enqueued)| < cfg.capacity
        then nrUserEnqueues == old(nrUserEnqueues) + 1 && nrFailedEnqueues == old(nrFailedEnqueues)
        else nrUserEnqueues == old(nrUserEnqueues) && nrFailedEnqueues == old(nrFailedEnqueues) + 1
    {
      if |enqueued| >= cfg.capacity {
        nrFailedEnqueues := nrFailedEnqueues + 1;
        var t := tasks[p];
        var place := if took then Shared(SCX_SLICE_DFL) else t.place;
        tasks := tasks[p := t.(phase := Quiet, overflowed := true, place := place)];
        return;
      }
      enqueued := enqueued + [p];
      ghost var pushed := tasks[p := tasks[p].(phase := PushDone)];
      nrUserEnqueues := nrUserEnqueues + 1;
      tasks := tasks[p := tasks[p].(phase := Quiet)];
      assert tasks == pushed[p := pushed[p].(phase := Quiet)];
      SetUserschedNeeded();
    }

    /** enable: context, then the request, for every task but the daemon; nothing without storage for the context. */
    method Enable(p: Pid, took: bool, storageOk: bool) returns (err: int)
      requires EnabledK(cfg, View(), AskProtocol.Enable(p))
      modifies this`tasks, this`enqueued, this`needed, this`nrUserEnqueues, this`nrFailedEnqueues
      ensures err == if storageOk then 0 else -ENOMEM
      ensures var k1 := ApplyK(cfg, old(View()), AskProtocol.Enable(p));
        View() ==
          if err != 0 then old(View())
          else if p == cfg.daemon then k1
          else if |old(enqueued)| < cfg.capacity then ApplyK(cfg, ApplyK(cfg, k1, Push(p, took)), SetFlag(p))
          else ApplyK(cfg, k1, Push(p, took))
      ensures err == 0 ==> p in tasks && !tasks[p].hasSlice
      ensures enqueued == if err == 0 && p != cfg.daemon && |old(enqueued)| < cfg.capacity then old(enqueued) + [p]
                          else old(enqueued)
    {
      if !storageOk {
        return -ENOMEM;
      }
      tasks := tasks[p := NewTask(cfg, p)];
      if p != cfg.daemon {
        EnqueueTaskInUserspace(p, took);
      }
      return 0;
    }

    method Disable(p: Pid)
      requires EnabledK(cfg, View(), AskProtocol.Disable(p))
      modifies this`tasks
      ensures View() == ApplyK(cfg, old(View()), AskProtocol.Disable(p))
      ensures p !in tasks
    {
      tasks := tasks - {p};
    }

    /**
     select_cpu: direct dispatch only with a decided slice.  `cpu` is the kernel's choice, returned in every case;
     `reported` tells that the program has called for its own ejection.
     */
    method SelectCpu(p: Pid, cpu: Cpu, isIdle: bool) returns (chosen: Cpu, reported: bool)
      requires p in tasks ==> tasks[p].phase.Quiet? && tasks[p].place.Off?
      modifies this`tasks
      ensures chosen == cpu && (reported <==> isIdle && p !in old(tasks))
      ensures View() ==
        if isIdle && p in old(tasks) && old(tasks)[p].hasSlice
        then ApplyK(cfg, old(View()), SelectDirect(p))
        else old(View())
      ensures isIdle && p in old(tasks) && old(tasks)[p].hasSlice ==>
                p in tasks && tasks[p].place == Local(old(tasks)[p].slice)
    {
      if isIdle {
        if p !in tasks {
          return cpu, true;
        }
        if !tasks[p].hasSlice {
          return cpu, false;
        }
        tasks := tasks[p := tasks[p].(place := Local(tasks[p].slice))];
      }
      return cpu, false;
    }

    /**
     enqueue: the daemon to the global queue, a task without a slice nowhere, any other to the shared queue.  A daemon
     without a context is queued just the same, but has no place in the view.
     */
    method Enqueue(p: Pid) returns (err: int)
      requires p in tasks ==> tasks[p].phase.Quiet? && tasks[p].place.Off?
      modifies this`tasks
      ensures err == if p != cfg.daemon && p !in old(tasks) then -ENOENT else 0
      ensures View() ==
        if p !in old(tasks) then old(View())
        else
          var k1 := ApplyK(cfg, old(View()), EnqBegin(p));
          if p == cfg.daemon then k1 else ApplyK(cfg, ApplyK(cfg, k1, EnqRead(p)), EnqEnd(p))
      ensures p in old(tasks) ==>
        && p in tasks
        && tasks[p].place == if p == cfg.daemon then Global(SCX_SLICE_INF)
                             else if old(tasks)[p].hasSlice then Shared(old(tasks)[p].slice) else Held
    {
      if p == cfg.daemon {
        if p in tasks {
          tasks := tasks[p := tasks[p].(place := Global(SCX_SLICE_INF))];
        }
        return 0;
      }
      if p !in tasks {
        return -ENOENT;
      }
      ghost var t := tasks[p];
      ghost var begun: map<Pid, Task> := tasks[p := t.(phase := Queueing)];
      var place := if !tasks[p].hasSlice then Held else Shared(tasks[p].slice);
      tasks := tasks[p := tasks[p].(place := place)];
      ghost var read: map<Pid, Task> := begun[p := t.(phase := if t.hasSlice then SawSlice else SawNone)];
      assert tasks == read[p := Settled(read[p])];
      return 0;
    }

    /** dequeue_tasks_from_userspace. */
    method DequeueTasksFromUserspace()
      modifies this`tasks, this`dispatched
      ensures var m := Min(cfg.capacity, |old(dispatched)|);
        dispatched == old(dispatched)[m..] && tasks == AnsweredAll(old(tasks), old(dispatched), m)
    {
      ghost var was, queue := tasks, dispatched;
      var i := 0;
      while i < cfg.capacity
        invariant 0 <= i <= Min(cfg.capacity, |queue|)
        invariant dispatched == queue[i..] && tasks == AnsweredAll(was, queue, i)
      {
        if dispatched == [] {
          break;
        }
        var task := dispatched[0];
        dispatched := dispatched[1..];
        i := i + 1;
        if task.pid !in tasks {
          continue;
        }
        var slice := task.code;
        if slice <= 1 {
          slice := if slice == 0 then SCX_SLICE_DFL else SCX_SLICE_INF;
        }
        ghost var before := tasks;
        tasks := tasks[task.pid := tasks[task.pid].(slice := slice)];
        tasks := tasks[task.pid := tasks[task.pid].(hasSlice := true)];
        tasks := tasks[task.pid := Released(tasks[task.pid])];
        assert tasks == Answered(before, task);
      }
    }

    /** The part of dispatch in front of the walk over the shared queue. */
    method TakeReplies(ghost cpu: Cpu)
      requires PcOf(View(), cpu).Idle?
      modifies this`tasks, this`dispatched, this`needed, this`ring, this`cpus
      ensures View() == AfterDispatch(cfg, old(View()), cpu)
      ensures !needed && ring == old(ring) + if old(needed) then 1 else 0
    {
      var wake := TestAndClearUserschedNeeded();
      if wake {
        ring := ring + 1;
      }
      DequeueTasksFromUserspace();
      cpus := cpus[cpu := Idle];
    }

    /**
     dispatch: wake the daemon if asked, take replies, then move one task of the shared queue to this CPU, with the
     slice it was queued with.
     */
    method Dispatch(cpu: Cpu, pick: Pid)
      requires PcOf(View(), cpu).Idle?
      modifies this`tasks, this`dispatched, this`needed, this`ring, this`cpus
      ensures !needed && ring == old(ring) + if old(needed) then 1 else 0
      ensures dispatched == old(dispatched)[Min(cfg.capacity, |old(dispatched)|)..]
      ensures var was := AnsweredAll(old(tasks), old(dispatched), Min(cfg.capacity, |old(dispatched)|));
        if cpu != 0 && pick in was && was[pick].phase.Quiet? && was[pick].place.Shared?
        then tasks == was[pick := was[pick].(place := Local(was[pick].place.slice))]
        else tasks == was
      ensures var k1 := AfterDispatch(cfg, old(View()), cpu);
        View() == if EnabledK(cfg, k1, Move(cpu, pick)) then ApplyK(cfg, k1, Move(cpu, pick)) else k1
    {
      TakeReplies(cpu);
      if cpu == 0 {
        return;
      }
      if pick in tasks && tasks[pick].phase.Quiet? && tasks[pick].place.Shared? {
        tasks := tasks[pick := tasks[pick].(place := Local(tasks[pick].place.slice))];
      }
    }

    method UpdateIdle(idle: bool)
      modifies this`needed
      ensures View() == if idle then ApplyK(cfg, old(View()), AskProtocol.UpdateIdle) else old(View())
      ensures needed <==> old(needed) || (idle && (nrQueued != 0 || nrScheduled != 0))
    {
      if !idle {
        return;
      }
      if nrQueued != 0 || nrScheduled != 0 {
        SetUserschedNeeded();
      }
    }
  }
}

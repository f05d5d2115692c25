/**
 No lost wake-up: a request in the queue always keeps some link of the wake chain alive while the daemon is not
 draining.
 */
module AskWakeup {
  import opened AskProtocol

  predicate AnyPushDone(k: Kernel) {
    exists p | p in k.tasks :: k.tasks[p].phase.PushDone?
  }

  predicate AnyWoken(k: Kernel) {
    exists c | c in k.cpus :: k.cpus[c].Woken?
  }

  /** The daemon has seen the queue empty and has not started its next drain. */
  predicate SeenEmpty(d: Daemon) {
    d.pc.Batch? || d.pc.Check? || d.pc.Wait?
  }

  /** The chain from a push to the daemon: push done, flag set, flag cleared by a CPU, message in the ring. */
  predicate ChainAlive(k: Kernel) {
    k.needed || k.ring > 0 || AnyPushDone(k) || AnyWoken(k)
  }

  ghost predicate WakeInv(s: State) {
    && (SeenEmpty(s.d) && s.k.enqueued != [] ==> ChainAlive(s.k))
    && (s.d.pc.Wait? ==> s.d.list == [] && s.k.nrScheduled == 0)
    && (s.d.pc.Check? ==> s.k.nrScheduled == s.d.nrCurr)
    && s.k.nrQueued == 0
    && s.d.nrCurr == |s.d.list|
    && s.d.nrIn == s.d.nrOut + s.d.nrCurr
  }

  lemma ChainKept(cfg: Config, k: Kernel, a: Action)
    requires !IsDaemonStep(a) && EnabledK(cfg, k, a) && ChainAlive(k)
    ensures ChainAlive(ApplyK(cfg, k, a))
  {
    var k' := ApplyK(cfg, k, a);
    if AnyPushDone(k) {
      var p :| p in k.tasks && k.tasks[p].phase.PushDone?;
      assert k'.needed || (p in k'.tasks && k'.tasks[p].phase.PushDone?);
    } else if AnyWoken(k) {
      var c :| c in k.cpus && k.cpus[c].Woken?;
      assert k'.ring > 0 || (c in k'.cpus && k'.cpus[c].Woken?);
    } else if a.TestAndClear? && k.needed {
      assert a.cpu in k'.cpus && k'.cpus[a.cpu].Woken?;
    }
  }

  lemma StepKeepsWakeInv(cfg: Config, s: State, a: Action)
    requires WakeInv(s) && Enabled(cfg, s, a)
    ensures WakeInv(Apply(cfg, s, a))
  {
    if !IsDaemonStep(a) {
      var k' := ApplyK(cfg, s.k, a);
      if ChainAlive(s.k) {
        ChainKept(cfg, s.k, a);
      } else if a.Push? && |s.k.enqueued| < cfg.capacity {
        assert a.p in k'.tasks && k'.tasks[a.p].phase.PushDone?;
      }
    }
  }

  lemma {:induction false} RunKeepsWakeInv(cfg: Config, s: State, run: seq<Action>)
    requires WakeInv(s) && Legal(cfg, s, run)
    ensures WakeInv(Exec(cfg, s, run))
    decreases |run|
  {
    if run != [] {
      StepKeepsWakeInv(cfg, s, run[0]);
      RunKeepsWakeInv(cfg, Apply(cfg, s, run[0]), run[1..]);
    }
  }

  /**
   No lost wake-up, over every run: whenever the daemon has seen the queue empty and has not started its next drain,
   a queued request finds the flag set, a message unread, a pusher about to set the flag or a CPU about to submit;
   a waiting daemon has nothing listed and says so; nr_userspace_queued is never anything but zero.
   */
  lemma NoLostWakeup(cfg: Config, run: seq<Action>)
    requires Legal(cfg, START, run)
    ensures var s := Exec(cfg, START, run);
      && (SeenEmpty(s.d) && s.k.enqueued != [] ==>
            || s.k.needed
            || s.k.ring > 0
            || (exists p | p in s.k.tasks :: s.k.tasks[p].phase.PushDone?)
            || (exists c | c in s.k.cpus :: s.k.cpus[c].Woken?))
      && (s.d.pc.Wait? ==> s.d.list == [] && s.k.nrScheduled == 0)
      && s.k.nrQueued == 0
      && s.d.nrIn == s.d.nrOut + |s.d.list|
  {
    RunKeepsWakeInv(cfg, START, run);
  }

  /** Links between a waiting daemon and its wake-up. */
  function WakeRank(k: Kernel): nat {
    if k.ring > 0 then 1 else if AnyWoken(k) then 2 else if k.needed then 3 else 4
  }

  /** Only the daemon empties the ring, only a clear takes the flag, and a submit leaves a message. */
  lemma LinksKept(cfg: Config, k: Kernel, a: Action)
    requires !IsDaemonStep(a) && EnabledK(cfg, k, a)
    ensures var k' := ApplyK(cfg, k, a);
      && k'.ring >= k.ring && (a.Submit? ==> k'.ring > 0)
      && (k.needed && !a.TestAndClear? ==> k'.needed)
  {
  }

  lemma WokenKept(cfg: Config, k: Kernel, a: Action)
    requires !IsDaemonStep(a) && EnabledK(cfg, k, a)
    ensures AnyWoken(k) && !a.Submit? ==> AnyWoken(ApplyK(cfg, k, a))
    ensures k.needed && a.TestAndClear? ==> AnyWoken(ApplyK(cfg, k, a))
  {
    var k' := ApplyK(cfg, k, a);
    if AnyWoken(k) && !a.Submit? {
      var c :| c in k.cpus && k.cpus[c].Woken?;
      assert c in k'.cpus && k'.cpus[c].Woken?;
    }
    if k.needed && a.TestAndClear? {
      assert a.cpu in k'.cpus && k'.cpus[a.cpu].Woken?;
    }
  }

  /** While the daemon waits, no step of anybody lengthens the chain. */
  lemma RankNeverGrows(cfg: Config, s: State, a: Action)
    requires WakeInv(s) && Enabled(cfg, s, a) && s.d.pc.Wait? && !a.DaemonWake?
    ensures Apply(cfg, s, a).d.pc.Wait? && WakeRank(Apply(cfg, s, a).k) <= WakeRank(s.k)
  {
    LinksKept(cfg, s.k, a);
    WokenKept(cfg, s.k, a);
  }

  function WakeBy(c: Cpu): seq<Action> {
    [Submit(c)] + ([DaemonWake] + [])
  }

  lemma WokenByClear(cfg: Config, s: State, c: Cpu)
    requires s.d.pc.Wait? && s.k.needed && PcOf(s.k, c).Idle?
    ensures var s1 := Apply(cfg, s, TestAndClear(c));
      Legal(cfg, s1, WakeBy(c)) && Exec(cfg, s1, WakeBy(c)).d.pc.Drain?
  {
    var s1 := Apply(cfg, s, TestAndClear(c));
    var s2 := Apply(cfg, s1, Submit(c));
    ExecCons(cfg, s2, DaemonWake, []);
    ExecCons(cfg, s1, Submit(c), [DaemonWake] + []);
  }

  /**
   A waiting daemon with a request queued is woken by at most four steps, given one CPU that is not in its callback.
   */
  lemma CanBeWoken(cfg: Config, s: State, c: Cpu) returns (run: seq<Action>)
    requires WakeInv(s) && s.d.pc.Wait? && s.k.enqueued != [] && PcOf(s.k, c).Idle?
    ensures |run| <= WakeRank(s.k) && Legal(cfg, s, run) && Exec(cfg, s, run).d.pc.Drain?
    decreases WakeRank(s.k)
  {
    var a: Action;
    if s.k.ring > 0 {
      a := DaemonWake;
      ExecCons(cfg, s, a, []);
      return [a] + [];
    } else if AnyWoken(s.k) {
      var w :| w in s.k.cpus && s.k.cpus[w].Woken?;
      a := Submit(w);
    } else if s.k.needed {
      a := TestAndClear(c);
      WokenByClear(cfg, s, c);
      ExecCons(cfg, s, a, WakeBy(c));
      return [a] + WakeBy(c);
    } else {
      var p :| p in s.k.tasks && s.k.tasks[p].phase.PushDone?;
      a := SetFlag(p);
    }
    StepKeepsWakeInv(cfg, s, a);
    var rest := CanBeWoken(cfg, Apply(cfg, s, a), c);
    ExecCons(cfg, s, a, rest);
    run := [a] + rest;
  }

  /** The counter the daemon would auto-correct never drifts. */
  lemma AutoCorrectNeverFires(cfg: Config, run: seq<Action>)
    requires Legal(cfg, START, run)
    requires Exec(cfg, START, run).d.pc.Check? && Exec(cfg, START, run).d.list == []
    ensures Exec(cfg, START, run).d.nrCurr == 0
  {
    RunKeepsWakeInv(cfg, START, run);
  }
}

/**
 The release of a withheld task.  From every reachable state in which a task is held, and its request fitted the
 queue, the CPUs' dispatch callbacks and the daemon alone can bring it onto the shared queue; a task whose request
 did not fit is never brought there.
 */
module AskRelease {
  import opened AskProtocol
  import opened AskStrand
  import opened AskWakeup
  import opened AskConservation
  import opened AskOverflow

  /** The CPUs that may take steps, and the tasks that may end their enable. */
  datatype Crew = Crew(cpus: set<Cpu>, pushers: set<Pid>)

  predicate OfCpu(a: Action) {
    a.TestAndClear? || a.Submit? || a.PopReply? || a.WriteSlice? || a.WriteFlag? || a.Insert? || a.DrainDone?
  }

  /** Steps of the daemon, of these CPUs' dispatch callbacks, and the flag of these tasks' enables. */
  predicate Helps(crew: Crew, a: Action) {
    IsDaemonStep(a) || (OfCpu(a) && a.cpu in crew.cpus) || (a.SetFlag? && a.p in crew.pushers)
  }

  predicate HelpsOnly(crew: Crew, run: seq<Action>) {
    forall i | 0 <= i < |run| :: Helps(crew, run[i])
  }

  /** Whoever is inside its callback is of the crew. */
  ghost predicate AllAboard(crew: Crew, k: Kernel) {
    && (forall c | c in k.cpus && !k.cpus[c].Idle? :: c in crew.cpus)
    && (forall q | q in k.tasks && k.tasks[q].phase.PushDone? :: q in crew.pushers)
  }

  /**
   One CPU of choice, the CPUs inside their callbacks, and the tasks between the push and the flag of their enable.
   */
  function CrewOf(k: Kernel, c: Cpu): Crew {
    Crew({c} + set w | w in k.cpus && !k.cpus[w].Idle?, set q | q in k.tasks && k.tasks[q].phase.PushDone?)
  }

  predicate OnShared(s: State, p: Pid) {
    p in s.k.tasks && s.k.tasks[p].place.Shared?
  }

  /** `p` is held, or already released. */
  predicate HeldOrShared(k: Kernel, p: Pid) {
    p in k.tasks && k.tasks[p].phase.Quiet? && (k.tasks[p].place.Held? || k.tasks[p].place.Shared?)
  }

  /** The invariants a releasing run relies on. */
  ghost predicate Ready(cfg: Config, crew: Crew, s: State, p: Pid) {
    && cfg.flagFirst && cfg.capacity >= 1 && cfg.batch >= 1
    && WakeInv(s) && NoEarlyInsert(s.k) && AllAboard(crew, s.k)
    && HeldOrShared(s.k, p)
  }

  /** A helping step changes the program counter of its own CPU only. */
  lemma CpuAboard(cfg: Config, crew: Crew, k: Kernel, a: Action, c: Cpu)
    requires cfg.flagFirst && !IsDaemonStep(a) && EnabledK(cfg, k, a) && Helps(crew, a) && c in ApplyK(cfg, k, a).cpus
    ensures c in crew.cpus || (c in k.cpus && ApplyK(cfg, k, a).cpus[c] == k.cpus[c])
    ensures ApplyK(cfg, k, a).cpus[c].Inserted? ==> c in k.cpus && k.cpus[c].Inserted?
  {
  }

  /** A helping step makes no task a pusher, and leaves a held or released task so. */
  lemma TaskAboard(cfg: Config, crew: Crew, k: Kernel, a: Action, q: Pid)
    requires !IsDaemonStep(a) && EnabledK(cfg, k, a) && Helps(crew, a)
    ensures q in ApplyK(cfg, k, a).tasks <==> q in k.tasks
    ensures q in k.tasks ==>
      var t, t' := k.tasks[q], ApplyK(cfg, k, a).tasks[q];
      && (t'.phase == t.phase || t'.phase.Quiet?)
      && (t'.place == t.place || t'.place.Shared?)
  {
  }

  lemma DaemonKeepsTasks(cfg: Config, s: State, a: Action)
    requires IsDaemonStep(a) && EnabledD(cfg, s, a)
    ensures ApplyD(cfg, s, a).k.tasks == s.k.tasks && ApplyD(cfg, s, a).k.cpus == s.k.cpus
  {
  }

  lemma StepKeepsAboard(cfg: Config, crew: Crew, s: State, a: Action)
    requires cfg.flagFirst && NoEarlyInsert(s.k) && AllAboard(crew, s.k) && Enabled(cfg, s, a) && Helps(crew, a)
    ensures NoEarlyInsert(Apply(cfg, s, a).k) && AllAboard(crew, Apply(cfg, s, a).k)
  {
    if IsDaemonStep(a) {
      DaemonKeepsTasks(cfg, s, a);
    } else {
      var k' := ApplyK(cfg, s.k, a);
      forall c | c in k'.cpus ensures !k'.cpus[c].Inserted? && (!k'.cpus[c].Idle? ==> c in crew.cpus) {
        CpuAboard(cfg, crew, s.k, a, c);
      }
      forall q | q in k'.tasks && k'.tasks[q].phase.PushDone? ensures q in crew.pushers {
        TaskAboard(cfg, crew, s.k, a, q);
      }
    }
  }

  lemma StepKeepsHeld(cfg: Config, crew: Crew, s: State, a: Action, p: Pid)
    requires Enabled(cfg, s, a) && Helps(crew, a) && HeldOrShared(s.k, p)
    ensures HeldOrShared(Apply(cfg, s, a).k, p)
    ensures OnShared(s, p) ==> OnShared(Apply(cfg, s, a), p)
  {
    if IsDaemonStep(a) {
      DaemonKeepsTasks(cfg, s, a);
    } else {
      TaskAboard(cfg, crew, s.k, a, p);
    }
  }

  lemma StepKeepsReady(cfg: Config, crew: Crew, s: State, a: Action, p: Pid)
    requires Ready(cfg, crew, s, p) && Enabled(cfg, s, a) && Helps(crew, a)
    ensures Ready(cfg, crew, Apply(cfg, s, a), p)
    ensures OnShared(s, p) ==> OnShared(Apply(cfg, s, a), p)
  {
    StepKeepsWakeInv(cfg, s, a);
    StepKeepsAboard(cfg, crew, s, a);
    StepKeepsHeld(cfg, crew, s, a, p);
  }

  /** One step in front of a run that releases `p`. */
  lemma StepFirst(cfg: Config, crew: Crew, s: State, a: Action, rest: seq<Action>, p: Pid) returns (run: seq<Action>)
    requires Enabled(cfg, s, a) && Helps(crew, a)
    requires Legal(cfg, Apply(cfg, s, a), rest) && HelpsOnly(crew, rest)
             && OnShared(Exec(cfg, Apply(cfg, s, a), rest), p)
    ensures Legal(cfg, s, run) && HelpsOnly(crew, run) && OnShared(Exec(cfg, s, run), p)
  {
    ExecCons(cfg, s, a, rest);
    run := [a] + rest;
  }

  // ---------- a CPU's dispatch callback ----------

  /** The next step of a CPU inside its callback that is not about to pop; an idle one enters it. */
  function NextOfCpu(k: Kernel, c: Cpu): Action {
    match PcOf(k, c)
    case Idle => TestAndClear(c)
    case Woken => Submit(c)
    case Draining(_) => DrainDone(c)
    case Reply(_, _) => WriteSlice(c)
    case SliceSet(_, _) => WriteFlag(c)
    case _ => Insert(c)
  }

  /** Steps until the CPU is about to pop. */
  function PopRank(k: Kernel, c: Cpu): nat {
    match PcOf(k, c)
    case Draining(left) => if left > 0 then 0 else 3
    case Woken => 1
    case Idle => 2
    case FlagSet(_, _) => 4
    case SliceSet(_, _) => 5
    case _ => 6
  }

  lemma CpuStep(cfg: Config, s: State, c: Cpu)
    requires cfg.flagFirst && cfg.capacity >= 1 && NoEarlyInsert(s.k) && PopRank(s.k, c) > 0
    ensures Enabled(cfg, s, NextOfCpu(s.k, c)) && OfCpu(NextOfCpu(s.k, c)) && NextOfCpu(s.k, c).cpu == c
    ensures var s' := Apply(cfg, s, NextOfCpu(s.k, c));
      && s'.d == s.d && s'.k.enqueued == s.k.enqueued && s'.k.dispatched == s.k.dispatched
      && PopRank(s'.k, c) < PopRank(s.k, c)
  {
  }

  /** A reply to `p` is in hand. */
  lemma {:induction false} FromReply(cfg: Config, crew: Crew, s: State, c: Cpu, p: Pid) returns (run: seq<Action>)
    requires Ready(cfg, crew, s, p) && c in crew.cpus && Answers(PcOf(s.k, c), p)
    ensures Legal(cfg, s, run) && HelpsOnly(crew, run) && OnShared(Exec(cfg, s, run), p)
    decreases PopRank(s.k, c)
  {
    var a := NextOfCpu(s.k, c);
    var s' := Apply(cfg, s, a);
    CpuStep(cfg, s, c);
    StepKeepsReady(cfg, crew, s, a, p);
    var rest := [];
    if !OnShared(s', p) {
      rest := FromReply(cfg, crew, s', c, p);
    }
    run := StepFirst(cfg, crew, s, a, rest, p);
  }

  /** The reply to `p` is queued for the kernel: any CPU can be driven to take it. */
  lemma {:induction false} FromDispatched(cfg: Config, crew: Crew, s: State, c: Cpu, i: nat, p: Pid)
    returns (run: seq<Action>)
    requires Ready(cfg, crew, s, p) && c in crew.cpus && i < |s.k.dispatched| && s.k.dispatched[i].pid == p
    ensures Legal(cfg, s, run) && HelpsOnly(crew, run) && OnShared(Exec(cfg, s, run), p)
    decreases i, PopRank(s.k, c)
  {
    var a := if PopRank(s.k, c) == 0 then PopReply(c) else NextOfCpu(s.k, c);
    if PopRank(s.k, c) > 0 {
      CpuStep(cfg, s, c);
    }
    var s' := Apply(cfg, s, a);
    StepKeepsReady(cfg, crew, s, a, p);
    var rest;
    if PopRank(s.k, c) > 0 {
      rest := FromDispatched(cfg, crew, s', c, i, p);
    } else if i == 0 {
      rest := FromReply(cfg, crew, s', c, p);
    } else {
      rest := FromDispatched(cfg, crew, s', c, i - 1, p);
    }
    run := StepFirst(cfg, crew, s, a, rest, p);
  }

  // ---------- the daemon ----------

  /** The next step of the daemon, were it not waiting. */
  function NextOfDaemon(cfg: Config, d: Daemon): Action {
    match d.pc
    case Drain => DaemonPop
    case Hand(_) => DaemonList
    case Batch(i) => if i < cfg.batch && d.list != [] then DaemonPush else DaemonEndBatch
    case Check => DaemonCheck
    case Wait => DaemonWake
  }

  /** Steps until a daemon with something listed is about to push. */
  function PushRank(cfg: Config, s: State): nat {
    match s.d.pc
    case Batch(i) => if i < cfg.batch then 0 else 3 + 2 * |s.k.enqueued|
    case Drain => 1 + 2 * |s.k.enqueued|
    case _ => 2 + 2 * |s.k.enqueued|
  }

  lemma DaemonNearsPush(cfg: Config, s: State)
    requires cfg.batch >= 1 && s.d.list != [] && !s.d.pc.Wait? && PushRank(cfg, s) > 0
    ensures Enabled(cfg, s, NextOfDaemon(cfg, s.d)) && IsDaemonStep(NextOfDaemon(cfg, s.d))
    ensures var s' := Apply(cfg, s, NextOfDaemon(cfg, s.d));
      s.d.list <= s'.d.list && PushRank(cfg, s') < PushRank(cfg, s)
  {
  }

  /** What makes room: a CPU on its way to a pop, or the pop. */
  function RoomStep(k: Kernel, c: Cpu): Action {
    if PopRank(k, c) == 0 then PopReply(c) else NextOfCpu(k, c)
  }

  lemma RoomNears(cfg: Config, s: State, c: Cpu)
    requires cfg.flagFirst && cfg.capacity >= 1 && NoEarlyInsert(s.k) && s.k.dispatched != []
    ensures Enabled(cfg, s, RoomStep(s.k, c)) && OfCpu(RoomStep(s.k, c)) && RoomStep(s.k, c).cpu == c
    ensures var s' := Apply(cfg, s, RoomStep(s.k, c));
      && s'.d == s.d && s'.k.enqueued == s.k.enqueued
      && (|s'.k.dispatched| < |s.k.dispatched|
          || (s'.k.dispatched == s.k.dispatched && PopRank(s'.k, c) < PopRank(s.k, c)))
  {
    if PopRank(s.k, c) > 0 {
      CpuStep(cfg, s, c);
    }
  }

  /** `p` is listed: the daemon gets to push it, once the CPU has made room. */
  lemma {:induction false} FromList(cfg: Config, crew: Crew, s: State, c: Cpu, j: nat, p: Pid)
    returns (run: seq<Action>)
    requires Ready(cfg, crew, s, p) && c in crew.cpus && j < |s.d.list| && s.d.list[j].pid == p
    ensures Legal(cfg, s, run) && HelpsOnly(crew, run) && OnShared(Exec(cfg, s, run), p)
    decreases j, PushRank(cfg, s), |s.k.dispatched|, PopRank(s.k, c)
  {
    var a, rest;
    if PushRank(cfg, s) > 0 {
      a := NextOfDaemon(cfg, s.d);
      DaemonNearsPush(cfg, s);
      StepKeepsReady(cfg, crew, s, a, p);
      rest := FromList(cfg, crew, Apply(cfg, s, a), c, j, p);
    } else if |s.k.dispatched| >= cfg.capacity {
      a := RoomStep(s.k, c);
      RoomNears(cfg, s, c);
      StepKeepsReady(cfg, crew, s, a, p);
      rest := FromList(cfg, crew, Apply(cfg, s, a), c, j, p);
    } else {
      a := DaemonPush;
      StepKeepsReady(cfg, crew, s, a, p);
      if j == 0 {
        rest := FromDispatched(cfg, crew, Apply(cfg, s, a), c, |s.k.dispatched|, p);
      } else {
        rest := FromList(cfg, crew, Apply(cfg, s, a), c, j - 1, p);
      }
    }
    run := StepFirst(cfg, crew, s, a, rest, p);
  }

  lemma FromHand(cfg: Config, crew: Crew, s: State, c: Cpu, p: Pid) returns (run: seq<Action>)
    requires Ready(cfg, crew, s, p) && c in crew.cpus && s.d.pc == Hand(p)
    ensures Legal(cfg, s, run) && HelpsOnly(crew, run) && OnShared(Exec(cfg, s, run), p)
  {
    var s' := Apply(cfg, s, DaemonList);
    StepKeepsReady(cfg, crew, s, DaemonList, p);
    assert s'.d.list[|s'.d.list| - 1].pid == p || Lists(s'.d.list, p);
    var j :| 0 <= j < |s'.d.list| && s'.d.list[j].pid == p;
    var rest := FromList(cfg, crew, s', c, j, p);
    run := StepFirst(cfg, crew, s, DaemonList, rest, p);
  }

  // ---------- the wake-up ----------

  /** Steps until the daemon is about to pop, as far as the daemon counts them. */
  function DrainRank(d: Daemon): nat {
    match d.pc
    case Drain => 0
    case Hand(_) => 1
    case Wait => 2
    case Check => 3
    case Batch(_) => 4
  }

  function DrainSteps(cfg: Config, s: State): nat {
    match s.d.pc
    case Batch(i) => if i < cfg.batch then cfg.batch - i else 0
    case Wait => WakeRank(s.k)
    case _ => 0
  }

  lemma DaemonNearsDrain(cfg: Config, s: State)
    requires cfg.batch >= 1 && !s.d.pc.Wait? && !s.d.pc.Drain?
    ensures Enabled(cfg, s, NextOfDaemon(cfg, s.d)) && IsDaemonStep(NextOfDaemon(cfg, s.d))
    ensures var s' := Apply(cfg, s, NextOfDaemon(cfg, s.d));
      && s'.k.enqueued == s.k.enqueued
      && (DrainRank(s'.d) < DrainRank(s.d)
          || (DrainRank(s'.d) == DrainRank(s.d) && DrainSteps(cfg, s') < DrainSteps(cfg, s)))
  {
  }

  /** Steps until the CPU is idle again, were nothing dispatched. */
  function IdleRank(k: Kernel, c: Cpu): nat {
    match PcOf(k, c)
    case Idle => 0
    case Draining(_) => 1
    case FlagSet(_, _) => 2
    case SliceSet(_, _) => 3
    case Reply(_, _) => 4
    case _ => 5
  }

  /** A CPU in its callback leaves it, or takes a reply. */
  function LeaveStep(k: Kernel, c: Cpu): Action {
    if PcOf(k, c).Draining? && PcOf(k, c).left > 0 && k.dispatched != [] then PopReply(c) else NextOfCpu(k, c)
  }

  lemma CpuNearsIdle(cfg: Config, s: State, c: Cpu)
    requires cfg.flagFirst && NoEarlyInsert(s.k) && !PcOf(s.k, c).Idle? && !PcOf(s.k, c).Woken?
    ensures Enabled(cfg, s, LeaveStep(s.k, c)) && OfCpu(LeaveStep(s.k, c)) && LeaveStep(s.k, c).cpu == c
    ensures var s' := Apply(cfg, s, LeaveStep(s.k, c));
      && s'.d == s.d && s'.k.enqueued == s.k.enqueued
      && (|s'.k.dispatched| < |s.k.dispatched|
          || (s'.k.dispatched == s.k.dispatched && IdleRank(s'.k, c) < IdleRank(s.k, c)))
  {
  }

  /** Any step nearer to a waiting daemon's wake-up, or a CPU nearer to its next callback. */
  lemma WakeStep(cfg: Config, crew: Crew, s: State, c: Cpu) returns (a: Action)
    requires cfg.flagFirst && WakeInv(s) && NoEarlyInsert(s.k) && s.d.pc.Wait? && s.k.enqueued != []
    requires AllAboard(crew, s.k) && c in crew.cpus
    ensures Enabled(cfg, s, a) && Helps(crew, a)
    ensures var s' := Apply(cfg, s, a);
      && s'.k.enqueued == s.k.enqueued
      && (DrainRank(s'.d) < DrainRank(s.d)
          || (s'.d == s.d
              && (WakeRank(s'.k) < WakeRank(s.k)
                  || (WakeRank(s'.k) == WakeRank(s.k)
                      && (|s'.k.dispatched| < |s.k.dispatched|
                          || (s'.k.dispatched == s.k.dispatched && IdleRank(s'.k, c) < IdleRank(s.k, c)))))))
  {
    if s.k.ring > 0 {
      a := DaemonWake;
    } else if AnyWoken(s.k) {
      var w :| w in s.k.cpus && s.k.cpus[w].Woken?;
      a := Submit(w);
    } else if !s.k.needed {
      var q :| q in s.k.tasks && s.k.tasks[q].phase.PushDone?;
      a := SetFlag(q);
    } else if PcOf(s.k, c).Idle? {
      a := TestAndClear(c);
      var k' := Apply(cfg, s, a).k;
      assert c in k'.cpus && k'.cpus[c].Woken?;
    } else {
      a := LeaveStep(s.k, c);
      CpuNearsIdle(cfg, s, c);
      RankNeverGrows(cfg, s, a);
    }
  }

  /** The request is still queued: the daemon is woken if it waits, and drains. */
  lemma {:induction false} FromEnqueued(cfg: Config, crew: Crew, s: State, c: Cpu, m: nat, p: Pid)
    returns (run: seq<Action>)
    requires Ready(cfg, crew, s, p) && c in crew.cpus && m < |s.k.enqueued| && s.k.enqueued[m] == p
    ensures Legal(cfg, s, run) && HelpsOnly(crew, run) && OnShared(Exec(cfg, s, run), p)
    decreases m, DrainRank(s.d), DrainSteps(cfg, s), |s.k.dispatched|, IdleRank(s.k, c)
  {
    var a, rest;
    if s.d.pc.Drain? {
      a := DaemonPop;
      StepKeepsReady(cfg, crew, s, a, p);
      if m == 0 {
        rest := FromHand(cfg, crew, Apply(cfg, s, a), c, p);
      } else {
        rest := FromEnqueued(cfg, crew, Apply(cfg, s, a), c, m - 1, p);
      }
    } else {
      if s.d.pc.Wait? {
        a := WakeStep(cfg, crew, s, c);
      } else {
        a := NextOfDaemon(cfg, s.d);
        DaemonNearsDrain(cfg, s);
      }
      StepKeepsReady(cfg, crew, s, a, p);
      rest := FromEnqueued(cfg, crew, Apply(cfg, s, a), c, m, p);
    }
    run := StepFirst(cfg, crew, s, a, rest, p);
  }

  // ---------- wherever the request is ----------

  lemma FromRequest(cfg: Config, crew: Crew, s: State, c: Cpu, p: Pid) returns (run: seq<Action>)
    requires Ready(cfg, crew, s, p) && c in crew.cpus && (Requested(s, p) || SomeReleases(s.k, p))
    ensures Legal(cfg, s, run) && HelpsOnly(crew, run) && OnShared(Exec(cfg, s, run), p)
  {
    if SomeReleases(s.k, p) {
      var w :| w in s.k.cpus && Releases(s.k.cpus[w], p);
      run := FromReply(cfg, crew, s, w, p);
    } else if SomePending(s.k, p) {
      var w :| w in s.k.cpus && Pending(s.k.cpus[w], p);
      run := FromReply(cfg, crew, s, w, p);
    } else if Lists(s.k.dispatched, p) {
      var i :| 0 <= i < |s.k.dispatched| && s.k.dispatched[i].pid == p;
      run := FromDispatched(cfg, crew, s, c, i, p);
    } else if Lists(s.d.list, p) {
      var j :| 0 <= j < |s.d.list| && s.d.list[j].pid == p;
      run := FromList(cfg, crew, s, c, j, p);
    } else if s.d.pc == Hand(p) {
      run := FromHand(cfg, crew, s, c, p);
    } else {
      var m :| 0 <= m < |s.k.enqueued| && s.k.enqueued[m] == p;
      run := FromEnqueued(cfg, crew, s, c, m, p);
    }
  }

  lemma {:induction false} RunKeepsNoEarlyInsert(cfg: Config, s: State, run: seq<Action>)
    requires cfg.flagFirst && NoEarlyInsert(s.k) && Legal(cfg, s, run)
    ensures NoEarlyInsert(Exec(cfg, s, run).k)
    decreases |run|
  {
    if run != [] {
      RunKeepsNoEarlyInsert(cfg, Apply(cfg, s, run[0]), run[1..]);
    }
  }

  /**
   Liveness: in every reachable state a held task whose request fitted the queue can be brought onto the shared queue,
   by steps of the daemon, of the dispatch callback of one CPU of choice and of those CPUs that are inside theirs, and
   by the flag that enables in progress still have to set; the tasks' own callbacks do nothing else.
   */
  lemma CanBeReleased(cfg: Config, run: seq<Action>, c: Cpu, p: Pid) returns (more: seq<Action>)
    requires cfg.flagFirst && cfg.capacity >= 1 && cfg.batch >= 1 && Legal(cfg, START, run)
    requires var s := Exec(cfg, START, run);
      p in s.k.tasks && s.k.tasks[p].place.Held? && !s.k.tasks[p].overflowed
    ensures var s := Exec(cfg, START, run);
      Legal(cfg, s, more) && HelpsOnly(CrewOf(s.k, c), more) && OnShared(Exec(cfg, s, more), p)
  {
    var s := Exec(cfg, START, run);
    RunKeepsStrandInv(cfg, START, run);
    RunKeepsWakeInv(cfg, START, run);
    RunKeepsNoEarlyInsert(cfg, START, run);
    NoStrandedTask(cfg, run, p);
    more := FromRequest(cfg, CrewOf(s.k, c), s, c, p);
  }

  lemma {:induction false} HelpIsFresh(cfg: Config, crew: Crew, s: State, run: seq<Action>)
    requires Legal(cfg, s, run) && HelpsOnly(crew, run)
    ensures FreshRun(cfg, s, run)
    decreases |run|
  {
    if run != [] {
      HelpIsFresh(cfg, crew, Apply(cfg, s, run[0]), run[1..]);
    }
  }

  /** Some continuation under the scheduler, with no pid enabled twice in a row, brings `p` onto the shared queue. */
  ghost predicate Releasable(cfg: Config, s: State, p: Pid) {
    exists more: seq<Action> ::
      Legal(cfg, s, more) && FreshRun(cfg, s, more) && Disable(p) !in more && OnShared(Exec(cfg, s, more), p)
  }

  /** A held task can be released if and only if its request fitted the queue. */
  lemma ReleasableIff(cfg: Config, run: seq<Action>, p: Pid)
    requires cfg.flagFirst && cfg.capacity >= 1 && cfg.batch >= 1
    requires Legal(cfg, START, run) && FreshRun(cfg, START, run)
    requires var k := Exec(cfg, START, run).k; p in k.tasks && k.tasks[p].place.Held?
    ensures Releasable(cfg, Exec(cfg, START, run), p) <==> !Exec(cfg, START, run).k.tasks[p].overflowed
  {
    var s := Exec(cfg, START, run);
    if s.k.tasks[p].overflowed {
      RunKeepsStrandInv(cfg, START, run);
      RunKeepsExactInv(cfg, START, run);
      forall more: seq<Action> | Legal(cfg, s, more) && FreshRun(cfg, s, more) && Disable(p) !in more
        ensures !OnShared(Exec(cfg, s, more), p)
      {
        OverflowedNeverRunsAgain(cfg, s, more, p);
      }
    } else {
      var more := CanBeReleased(cfg, run, 0, p);
      HelpIsFresh(cfg, CrewOf(s.k, 0), s, more);
    }
  }
}

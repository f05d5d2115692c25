/**
 What every run of the load generator keeps: each work item is in exactly one place, the lock is exclusive, and
 every child that is not waited for is recorded, about to be, or the child of a failing launch.
 */
module LoadGenSafety {
  import opened LoadGen

  // ---------- one place per work item ----------

  predicate HasItem(pc: LauncherPc) {
    pc.Got? || pc.Locked? || pc.Spawned? || pc.Forked?
  }

  predicate Holds(pc: LauncherPc, i: Index) {
    HasItem(pc) && pc.index == i
  }

  function NextOf(workload: seq<Work>, m: MainPc): nat {
    if m.Dispatching? then m.next else |workload|
  }

  /** The reaper has taken this item out of active_tasks and not filled its result. */
  predicate InReaper(r: ReaperPc, i: Index) {
    (r.Popped? || r.Broken?) && r.rec.index == i
  }

  /** The location of item i is the one place that has it. */
  ghost predicate Placed(workload: seq<Work>, s: State, i: Index)
    requires |s.at| == |s.results| == |workload| && i < |workload|
  {
    var at := s.at[i];
    && (at.Undispatched? <==> i >= NextOf(workload, s.main))
    && (at.Queued? <==> Job(i) in s.queue)
    && (at.AtLauncher? ==> at.l in s.launchers)
    && (forall l | l in s.launchers :: at == AtLauncher(l) <==> Holds(s.launchers[l], i))
    && (at.Active? ==> at.pid in s.active)
    && (forall p | p in s.active :: at == Active(p) <==> s.active[p].index == i)
    && (at.AtReaper? <==> InReaper(s.reaper, i))
    && (at.Done? <==> s.results[i].Filled?)
    && (s.results[i].Filled? ==> s.results[i].work == workload[i])
  }

  /** The queue names work items there are, none of them twice. */
  ghost predicate QueueShape(workload: seq<Work>, queue: seq<Item>) {
    && (forall k | 0 <= k < |queue| && queue[k].Job? :: queue[k].index < |workload|)
    && (forall j, k | 0 <= j < k < |queue| && queue[j].Job? :: queue[j] != queue[k])
  }

  ghost predicate LauncherShape(workload: seq<Work>, launchers: map<nat, LauncherPc>) {
    forall l | l in launchers && HasItem(launchers[l]) :: launchers[l].index < |workload|
  }

  /** Everything that names a work item names one there is, and carries its argument and request time. */
  ghost predicate Shape(workload: seq<Work>, s: State) {
    && |s.at| == |s.results| == |workload|
    && NextOf(workload, s.main) <= |workload|
    && LauncherShape(workload, s.launchers)
    && (forall p | p in s.active :: s.active[p].index < |workload| && s.active[p].work == workload[s.active[p].index])
    && (s.reaper.Popped? || s.reaper.Broken? ==>
          s.reaper.rec.index < |workload| && s.reaper.rec.work == workload[s.reaper.rec.index])
  }

  // ---------- the lock and the children ----------

  /** The launcher that holds the lock has started this child and not recorded it yet. */
  predicate Fresh(s: State, p: Pid) {
    s.lock.ByLauncher? && s.lock.l in s.launchers && s.launchers[s.lock.l].Spawned? && s.launchers[s.lock.l].pid == p
  }

  /** The launcher that holds the lock has forked this child, and will never record it. */
  predicate Doomed(s: State, p: Pid) {
    s.lock.ByLauncher? && s.lock.l in s.launchers && s.launchers[s.lock.l].Forked? && s.launchers[s.lock.l].pid == p
  }

  /** A child that the reaper has still to look up. */
  predicate Unreaped(s: State, p: Pid) {
    p in s.children || p in s.zombies || ReaperHolds(s, p)
  }

  ghost predicate LockInv(s: State) {
    && (forall l | l in s.launchers ::
          (s.launchers[l].Locked? || s.launchers[l].Spawned? || s.launchers[l].Forked?) <==> s.lock == ByLauncher(l))
    && (s.lock.ByLauncher? ==> s.lock.l in s.launchers)
    && (s.lock == ByReaper <==> s.reaper.Looking?)
  }

  /**
   A child is in one process state at a time.  One that is recorded or about to be is unreaped, and so is the child
   of a failing launch; no other is, but for one that the reaper has taken from under a failing launch.
   */
  ghost predicate ChildInv(s: State, p: Pid) {
    && (p in s.active || Fresh(s, p) || Doomed(s, p) ==> Unreaped(s, p))
    && (p in s.children || p in s.zombies ==> p in s.active || Fresh(s, p) || Doomed(s, p))
    && !(p in s.active && (Fresh(s, p) || Doomed(s, p)))
    && !(p in s.children && p in s.zombies)
    && (ReaperHolds(s, p) ==> p !in s.children && p !in s.zombies)
  }

  ghost predicate KnownInv(s: State) {
    LockInv(s) && forall p: Pid :: ChildInv(s, p)
  }

  ghost predicate Inv(workload: seq<Work>, s: State) {
    && Shape(workload, s) && QueueShape(workload, s.queue)
    && (forall i | 0 <= i < |workload| :: Placed(workload, s, i))
    && KnownInv(s)
  }

  // ---------- every step keeps them ----------

  predicate ByMain(a: Action) {
    a.Dispatch? || a.AllDispatched? || a.JoinReturns? || a.PutSentinel?
  }

  predicate ByLauncherThread(a: Action) {
    a.Get? || a.Timeout? || a.Acquire? || a.TaskDone?
    || a.Spawn? || a.Insert? || a.SpawnFails? || a.Fork? || a.ForkFails?
  }

  lemma SetKeepsShape(workload: seq<Work>, launchers: map<nat, LauncherPc>, l: nat, pc: LauncherPc)
    requires LauncherShape(workload, launchers) && (HasItem(pc) ==> pc.index < |workload|)
    ensures LauncherShape(workload, launchers[l := pc])
  {
  }

  lemma StepKeepsShape(workload: seq<Work>, s: State, a: Action)
    requires Shape(workload, s) && QueueShape(workload, s.queue) && Enabled(workload, s, a)
    ensures Shape(workload, Apply(workload, s, a))
  {
    if ByLauncherThread(a) {
      SetKeepsShape(workload, s.launchers, a.l, Apply(workload, s, a).launchers[a.l]);
    }
  }

  lemma PutKeepsQueue(workload: seq<Work>, queue: seq<Item>, x: Item)
    requires QueueShape(workload, queue) && (x.Job? ==> x.index < |workload| && x !in queue)
    ensures QueueShape(workload, queue + [x])
  {
  }

  lemma StepKeepsQueue(workload: seq<Work>, s: State, a: Action)
    requires Inv(workload, s) && Enabled(workload, s, a)
    ensures QueueShape(workload, Apply(workload, s, a).queue)
  {
    if a.Dispatch? {
      assert Placed(workload, s, s.main.next);
      PutKeepsQueue(workload, s.queue, Job(s.main.next));
    } else if a.PutSentinel? {
      PutKeepsQueue(workload, s.queue, Sentinel);
    } else if !a.Get? {
      assert Apply(workload, s, a).queue == s.queue;
    }
  }

  lemma QueueMembers(s: State, x: Item)
    requires s.queue != []
    requires forall j, k | 0 <= j < k < |s.queue| && s.queue[j].Job? :: s.queue[j] != s.queue[k]
    ensures x.Job? ==> (x in s.queue[1..] <==> x in s.queue && x != s.queue[0])
  {
    assert s.queue == [s.queue[0]] + s.queue[1..];
  }

  lemma MainKeepsPlaced(workload: seq<Work>, s: State, a: Action, i: Index)
    requires Inv(workload, s) && Enabled(workload, s, a) && ByMain(a) && i < |workload|
    ensures |Apply(workload, s, a).at| == |Apply(workload, s, a).results| == |workload|
    ensures Placed(workload, Apply(workload, s, a), i)
  {
    assert Placed(workload, s, i);
  }

  lemma InsertKeepsPlaced(workload: seq<Work>, s: State, l: nat, i: Index)
    requires Inv(workload, s) && Enabled(workload, s, Insert(l)) && i < |workload|
    ensures |Apply(workload, s, Insert(l)).at| == |Apply(workload, s, Insert(l)).results| == |workload|
    ensures Placed(workload, Apply(workload, s, Insert(l)), i)
  {
    assert Placed(workload, s, i);
    assert ChildInv(s, s.launchers[l].pid);
  }

  lemma GetKeepsPlaced(workload: seq<Work>, s: State, l: nat, i: Index)
    requires Inv(workload, s) && Enabled(workload, s, Get(l)) && i < |workload|
    ensures |Apply(workload, s, Get(l)).at| == |Apply(workload, s, Get(l)).results| == |workload|
    ensures Placed(workload, Apply(workload, s, Get(l)), i)
  {
    assert Placed(workload, s, i);
    QueueMembers(s, Job(i));
  }

  lemma LauncherKeepsPlaced(workload: seq<Work>, s: State, a: Action, i: Index)
    requires Inv(workload, s) && Enabled(workload, s, a) && ByLauncherThread(a) && !a.Insert? && !a.Get?
             && i < |workload|
    ensures |Apply(workload, s, a).at| == |Apply(workload, s, a).results| == |workload|
    ensures Placed(workload, Apply(workload, s, a), i)
  {
    assert Placed(workload, s, i);
  }

  lemma ReaperKeepsPlaced(workload: seq<Work>, s: State, a: Action, i: Index)
    requires Inv(workload, s) && Enabled(workload, s, a) && !ByMain(a) && !ByLauncherThread(a) && i < |workload|
    ensures |Apply(workload, s, a).at| == |Apply(workload, s, a).results| == |workload|
    ensures Placed(workload, Apply(workload, s, a), i)
  {
    assert Placed(workload, s, i);
  }

  lemma StepKeepsLock(workload: seq<Work>, s: State, a: Action)
    requires LockInv(s) && Enabled(workload, s, a)
    ensures LockInv(Apply(workload, s, a))
  {
  }

  lemma StepKeepsChild(workload: seq<Work>, s: State, a: Action, p: Pid)
    requires KnownInv(s) && Enabled(workload, s, a)
    ensures ChildInv(Apply(workload, s, a), p)
  {
    assert ChildInv(s, p);
  }

  lemma StepKeepsKnown(workload: seq<Work>, s: State, a: Action)
    requires KnownInv(s) && Enabled(workload, s, a)
    ensures KnownInv(Apply(workload, s, a))
  {
    StepKeepsLock(workload, s, a);
    forall p: Pid ensures ChildInv(Apply(workload, s, a), p) {
      StepKeepsChild(workload, s, a, p);
    }
  }

  lemma StepKeepsInv(workload: seq<Work>, s: State, a: Action)
    requires Inv(workload, s) && Enabled(workload, s, a)
    ensures Inv(workload, Apply(workload, s, a))
  {
    StepKeepsShape(workload, s, a);
    StepKeepsQueue(workload, s, a);
    StepKeepsKnown(workload, s, a);
    forall i | 0 <= i < |workload| ensures Placed(workload, Apply(workload, s, a), i) {
      if ByMain(a) {
        MainKeepsPlaced(workload, s, a, i);
      } else if a.Insert? {
        InsertKeepsPlaced(workload, s, a.l, i);
      } else if a.Get? {
        GetKeepsPlaced(workload, s, a.l, i);
      } else if ByLauncherThread(a) {
        LauncherKeepsPlaced(workload, s, a, i);
      } else {
        ReaperKeepsPlaced(workload, s, a, i);
      }
    }
  }

  lemma {:induction false} RunKeepsInv(workload: seq<Work>, s: State, run: seq<Action>)
    requires Inv(workload, s) && Legal(workload, s, run)
    ensures Inv(workload, Exec(workload, s, run))
    decreases |run|
  {
    if run != [] {
      StepKeepsInv(workload, s, run[0]);
      RunKeepsInv(workload, Apply(workload, s, run[0]), run[1..]);
    }
  }

  lemma StartIsInv(workload: seq<Work>, launchers: set<nat>)
    ensures Inv(workload, Start(workload, launchers))
  {
    var s := Start(workload, launchers);
    forall i | 0 <= i < |workload| ensures Placed(workload, s, i) {
    }
  }
}

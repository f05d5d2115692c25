/**
 The launcher's and the reaper's loop bodies as they are written, on the shared queue, the active_tasks dictionary
 and the results list.  Without interference one round of either is a run of the transition system.
 */
module LoadGenThreads {
  import Decimal
  import opened LoadGen
  import opened LoadGenSafety

  /**
   What Popen did: started a child, raised before it had one, or raised after waiting for one that could not execute.
   */
  datatype Popen = Child(pid: Pid) | Raised | ExecFailed(pid: Pid)

  predicate PidUnused(s: State, popen: Popen) {
    !popen.Raised? ==> Unused(s, popen.pid)
  }

  /** One round of launcher_worker: time out, take a sentinel, or take a job and launch it. */
  ghost function AfterRound(workload: seq<Work>, s: State, l: nat, popen: Popen): State
    requires At(s, l, Getting) && Inv(workload, s)
  {
    if s.queue == [] then SetLauncher(s, l, Returned)
    else if s.queue[0].Sentinel? then
      SetLauncher(s, l, Returned).(queue := s.queue[1..], unfinished := s.unfinished - 1)
    else
      var i := s.queue[0].index;
      match popen
      case Raised | ExecFailed(_) => s.(queue := s.queue[1..], unfinished := s.unfinished - 1, at := s.at[i := Lost])
      case Child(pid) =>
        s.(queue := s.queue[1..], unfinished := s.unfinished - 1, at := s.at[i := Active(pid)],
           children := s.children + {pid}, active := s.active[pid := Record(workload[i], i)])
  }

  /** The child of a failing launch comes and goes inside Popen. */
  lemma ReclaimIsRun(workload: seq<Work>, s: State, l: nat, i: Index, pid: Pid) returns (run: seq<Action>)
    requires At(s, l, Locked(i)) && i < |s.at| == |workload| && Unused(s, pid)
    ensures Legal(workload, s, run)
    ensures Exec(workload, s, run) ==
            SetLauncher(s, l, Getting).(lock := Free, unfinished := s.unfinished - 1, at := s.at[i := Lost])
  {
    var first := TwoSteps(workload, s, Fork(l, pid), Exit(pid));
    var s2 := Exec(workload, s, first);
    var last := TwoSteps(workload, s2, ForkFails(l), TaskDone(l));
    ExecAppend(workload, s, first, last);
    run := first + last;
    assert s.launchers[l := Forked(i, pid)][l := Finishing][l := Getting] == s.launchers[l := Getting];
    assert s.children + {pid} - {pid} == s.children && s.zombies + {pid} - {pid} == s.zombies;
  }

  lemma LaunchIsRun(workload: seq<Work>, s: State, l: nat, i: Index, popen: Popen) returns (run: seq<Action>)
    requires At(s, l, Locked(i)) && i < |s.at| == |workload|
    requires PidUnused(s, popen)
    ensures Legal(workload, s, run)
    ensures Exec(workload, s, run) ==
      match popen
      case Raised | ExecFailed(_) =>
        SetLauncher(s, l, Getting).(lock := Free, unfinished := s.unfinished - 1, at := s.at[i := Lost])
      case Child(pid) =>
        SetLauncher(s, l, Getting).(lock := Free, unfinished := s.unfinished - 1, at := s.at[i := Active(pid)],
                                    children := s.children + {pid}, active := s.active[pid := Record(workload[i], i)])
  {
    match popen
    case Raised =>
      var s1 := Apply(workload, s, SpawnFails(l));
      ExecCons(workload, s1, TaskDone(l), []);
      ExecCons(workload, s, SpawnFails(l), [TaskDone(l)] + []);
      run := [SpawnFails(l)] + ([TaskDone(l)] + []);
      assert s.launchers[l := Finishing][l := Getting] == s.launchers[l := Getting];
    case ExecFailed(pid) =>
      run := ReclaimIsRun(workload, s, l, i, pid);
    case Child(pid) =>
      var s1 := Apply(workload, s, Spawn(l, pid));
      var s2 := Apply(workload, s1, Insert(l));
      ExecCons(workload, s2, TaskDone(l), []);
      ExecCons(workload, s1, Insert(l), [TaskDone(l)] + []);
      ExecCons(workload, s, Spawn(l, pid), [Insert(l)] + ([TaskDone(l)] + []));
      run := [Spawn(l, pid)] + ([Insert(l)] + ([TaskDone(l)] + []));
      assert s.launchers[l := Spawned(i, pid)][l := Finishing][l := Getting] == s.launchers[l := Getting];
  }

  /** An uninterrupted round of a launcher is a run. */
  lemma RoundIsRun(workload: seq<Work>, s: State, l: nat, popen: Popen) returns (run: seq<Action>)
    requires At(s, l, Getting) && Inv(workload, s) && s.lock.Free?
    requires PidUnused(s, popen)
    ensures Legal(workload, s, run) && Exec(workload, s, run) == AfterRound(workload, s, l, popen)
  {
    if s.queue == [] {
      ExecCons(workload, s, Timeout(l), []);
      return [Timeout(l)] + [];
    }
    var s1 := Apply(workload, s, Get(l));
    if s.queue[0].Sentinel? {
      ExecCons(workload, s, Get(l), []);
      return [Get(l)] + [];
    }
    var i := s.queue[0].index;
    var s2 := Apply(workload, s1, Acquire(l));
    var rest := LaunchIsRun(workload, s2, l, i, popen);
    ExecCons(workload, s1, Acquire(l), rest);
    ExecCons(workload, s, Get(l), [Acquire(l)] + rest);
    run := [Get(l)] + ([Acquire(l)] + rest);
    assert s.launchers[l := Got(i)][l := Locked(i)][l := Getting] == s.launchers;
    var loc := if popen.Child? then Active(popen.pid) else Lost;
    assert s.at[i := AtLauncher(l)][i := loc] == s.at[i := loc];
  }

  /** One round of reaper_thread for a child that has exited and is recorded. */
  ghost function AfterReap(workload: seq<Work>, s: State, pid: Pid, stdout: Decimal.Bytes, returned: real): State
    requires Inv(workload, s) && pid in s.active
  {
    var rec := s.active[pid];
    s.(zombies := s.zombies - {pid}, active := s.active - {pid}, reaped := s.reaped + 1,
       results := s.results[rec.index := Filled(rec.work, pid, stdout, returned)], at := s.at[rec.index := Done])
  }

  /** Waiting for a recorded child and taking the lock. */
  lemma WaitAndAcquire(workload: seq<Work>, s: State, pid: Pid) returns (run: seq<Action>)
    requires s.lock.Free? && Enabled(workload, s, Wait(pid))
    ensures Legal(workload, s, run)
    ensures Exec(workload, s, run) == s.(reaper := Looking(pid), lock := ByReaper, zombies := s.zombies - {pid})
  {
    run := TwoSteps(workload, s, Wait(pid), ReaperAcquire);
  }

  /** Taking the record and filling the result. */
  lemma PopAndFill(workload: seq<Work>, s: State, pid: Pid, stdout: Decimal.Bytes, returned: real)
    returns (run: seq<Action>)
    requires s.reaper == Looking(pid) && pid in s.active && s.active[pid].index < |s.results| == |s.at|
    ensures Legal(workload, s, run)
    ensures var rec := s.active[pid];
      Exec(workload, s, run) ==
      s.(reaper := Waiting, lock := Free, active := s.active - {pid}, reaped := s.reaped + 1,
         results := s.results[rec.index := Filled(rec.work, pid, stdout, returned)], at := s.at[rec.index := Done])
  {
    run := TwoSteps(workload, s, Pop, Fill(stdout, returned));
    var i := s.active[pid].index;
    assert s.at[i := AtReaper][i := Done] == s.at[i := Done];
  }

  /** An uninterrupted round of the reaper is a run; the child it waited for is always recorded. */
  lemma ReapIsRun(workload: seq<Work>, s: State, pid: Pid, stdout: Decimal.Bytes, returned: real)
    returns (run: seq<Action>)
    requires Inv(workload, s) && s.lock.Free? && Enabled(workload, s, Wait(pid))
    ensures pid in s.active
    ensures Legal(workload, s, run) && Exec(workload, s, run) == AfterReap(workload, s, pid, stdout, returned)
  {
    assert ChildInv(s, pid);
    var first := WaitAndAcquire(workload, s, pid);
    var last := PopAndFill(workload, Exec(workload, s, first), pid, stdout, returned);
    ExecAppend(workload, s, first, last);
    run := first + last;
  }

  class Generator {
    const workload: seq<Work>
    var queue: seq<Item>
    var unfinished: int
    var activeTasks: map<Pid, Record>
    const results: array<Result>
    var reaped: nat
    ghost var s: State

    /** The fields the threads share are those of the protocol's state. */
    ghost predicate Mirrors()
      reads this, results
    {
      && s.queue == queue && s.unfinished == unfinished && s.active == activeTasks
      && s.results == results[..] && s.reaped == reaped
    }

    constructor (workload: seq<Work>, launchers: set<nat>)
      ensures this.workload == workload && Mirrors() && s == Start(workload, launchers) && fresh(results)
    {
      this.workload := workload;
      queue, unfinished, activeTasks, reaped := [], 0, map[], 0;
      results := new Result[|workload|](_ => Empty);
      s := Start(workload, launchers);
    }

    /** One round of launcher_worker; `stop` tells that the thread leaves its loop. */
    method LauncherRound(l: nat, popen: Popen) returns (stop: bool)
      requires Mirrors() && Inv(workload, s) && At(s, l, Getting) && s.lock.Free?
      requires PidUnused(s, popen)
      modifies this
      ensures Mirrors() && s == AfterRound(workload, old(s), l, popen) && Inv(workload, s)
      ensures stop <==> s.launchers[l].Returned?
    {
      ghost var run := RoundIsRun(workload, s, l, popen);
      RunKeepsInv(workload, s, run);
      s := AfterRound(workload, s, l, popen);
      if queue == [] {
        return true;
      }
      var item := queue[0];
      queue := queue[1..];
      if item.Sentinel? {
        unfinished := unfinished - 1;
        return true;
      }
      if popen.Child? {
        activeTasks := activeTasks[popen.pid := Record(workload[item.index], item.index)];
      }
      unfinished := unfinished - 1;
      return false;
    }

    /** One round of reaper_thread; uninterrupted, it finds the record of the child it waited for. */
    method ReaperRound(pid: Pid, stdout: Decimal.Bytes, returned: real) returns (warned: bool)
      requires Mirrors() && Inv(workload, s) && s.lock.Free? && Enabled(workload, s, Wait(pid))
      modifies this, results
      ensures !warned && pid in old(s).active
      ensures Mirrors() && s == AfterReap(workload, old(s), pid, stdout, returned) && Inv(workload, s)
    {
      ghost var run := ReapIsRun(workload, s, pid, stdout, returned);
      RunKeepsInv(workload, s, run);
      s := AfterReap(workload, s, pid, stdout, returned);
      warned := pid !in activeTasks;
      if !warned {
        var rec := activeTasks[pid];
        activeTasks := activeTasks - {pid};
        results[rec.index] := Filled(rec.work, pid, stdout, returned);
        reaped := reaped + 1;
      }
    }
  }
}

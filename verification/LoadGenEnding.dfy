/**
 When the dispatcher can get past its join: exactly while some launcher has not returned, or nothing is left to
 launch.  A gap in the workload is enough to send every launcher home.
 */
module LoadGenEnding {
  import opened LoadGen
  import opened LoadGenSafety
  import opened LoadGenResults

  // ---------- the way to the join's return ----------

  predicate BeforeEnd(s: State) {
    s.main.Dispatching? || s.main.Joining?
  }

  ghost predicate CanReachEnding(workload: seq<Work>, s: State) {
    exists run: seq<Action> :: Legal(workload, s, run) && Exec(workload, s, run).main.Ending?
  }

  function GotOnes(launchers: map<nat, LauncherPc>): set<nat> {
    set l | l in launchers && launchers[l].Got?
  }

  /** Steps until the lock is free, were nobody else to run. */
  function LockRank(s: State): nat {
    match s.lock
    case Free => 0
    case ByReaper => 1
    case ByLauncher(l) =>
      if l !in s.launchers || s.launchers[l].Locked? then 3
      else if s.launchers[l].Forked? && s.launchers[l].pid !in s.children then 1
      else 2
  }

  function ToDispatch(workload: seq<Work>, s: State): int {
    |workload| - NextOf(workload, s.main)
  }

  /**
   Fewer items to dispatch, else fewer queued, else fewer busy launchers, else fewer at the lock, else closer to its
   release.
   */
  predicate Closer(workload: seq<Work>, s': State, s: State) {
    || ToDispatch(workload, s') < ToDispatch(workload, s)
    || (ToDispatch(workload, s') == ToDispatch(workload, s) &&
        (|| |s'.queue| < |s.queue|
         || (|s'.queue| == |s.queue| &&
             (|| |BusyOnes(s'.launchers)| < |BusyOnes(s.launchers)|
              || (|BusyOnes(s'.launchers)| == |BusyOnes(s.launchers)| &&
                  (|| |GotOnes(s'.launchers)| < |GotOnes(s.launchers)|
                   || (|GotOnes(s'.launchers)| == |GotOnes(s.launchers)| && LockRank(s') < LockRank(s))))))))
  }

  lemma {:induction false} Above(pids: set<Pid>) returns (top: Pid)
    ensures forall p | p in pids :: p < top
  {
    if pids == {} {
      top := 0;
    } else {
      var p :| p in pids;
      var rest := Above(pids - {p});
      assert pids == pids - {p} + {p};
      top := if rest > p then rest else p + 1;
    }
  }

  lemma UnusedPid(s: State) returns (pid: Pid)
    ensures Unused(s, pid)
  {
    var held := if s.reaper.Reaped? || s.reaper.Looking? then {s.reaper.pid} else {};
    pid := Above(s.children + s.zombies + s.active.Keys + held);
  }

  lemma GotUpdate(launchers: map<nat, LauncherPc>, l: nat, pc: LauncherPc)
    requires l in launchers
    ensures |GotOnes(launchers[l := pc])| ==
            |GotOnes(launchers)| + (if pc.Got? then 1 else 0) - (if launchers[l].Got? then 1 else 0)
  {
    var rest := GotOnes(launchers) - {l};
    assert GotOnes(launchers[l := pc]) == if pc.Got? then rest + {l} else rest;
    assert GotOnes(launchers) == if launchers[l].Got? then rest + {l} else rest;
  }

  /** Nobody has gone home. */
  ghost predicate AllStay(s: State, s': State) {
    forall l | l in s.launchers && !s.launchers[l].Returned? :: l in s'.launchers && !s'.launchers[l].Returned?
  }

  /** No launch is made to fail, and the reaper keeps going. */
  predicate Harmless(s: State, a: Action) {
    !a.SpawnFails? && !a.Fork? && !a.ReaperFails? && (a.ForkFails? ==> a.l in s.launchers && s.launchers[a.l].Forked?)
  }

  /** Whoever has the lock can go on. */
  lemma LockStep(workload: seq<Work>, s: State) returns (a: Action)
    requires JoinInv(workload, s) && BeforeEnd(s) && !s.lock.Free?
    ensures Enabled(workload, s, a) && Harmless(s, a) && AllStay(s, Apply(workload, s, a))
    ensures BeforeEnd(Apply(workload, s, a)) && Closer(workload, Apply(workload, s, a), s)
  {
    if s.lock.ByReaper? {
      a := Pop;
    } else {
      var l := s.lock.l;
      var pc := s.launchers[l];
      if pc.Locked? {
        var pid := UnusedPid(s);
        a := Spawn(l, pid);
      } else if pc.Spawned? {
        a := Insert(l);
      } else if pc.pid in s.children {
        a := Exit(pc.pid);
      } else {
        a := ForkFails(l);
      }
      if !a.Exit? {
        BusyUpdate(s.launchers, l, Apply(workload, s, a).launchers[l]);
        GotUpdate(s.launchers, l, Apply(workload, s, a).launchers[l]);
      }
    }
  }

  /** With the lock free, a busy launcher can go on. */
  lemma BusyStep(workload: seq<Work>, s: State, l: nat) returns (a: Action)
    requires JoinInv(workload, s) && BeforeEnd(s) && s.lock.Free? && l in BusyOnes(s.launchers)
    ensures Enabled(workload, s, a) && Harmless(s, a) && AllStay(s, Apply(workload, s, a))
    ensures BeforeEnd(Apply(workload, s, a)) && Closer(workload, Apply(workload, s, a), s)
  {
    a := if s.launchers[l].Finishing? then TaskDone(l) else Acquire(l);
    BusyUpdate(s.launchers, l, Apply(workload, s, a).launchers[l]);
    GotUpdate(s.launchers, l, Apply(workload, s, a).launchers[l]);
  }

  /** With nobody busy, a launcher takes the next job or the dispatcher puts one. */
  lemma JobStep(workload: seq<Work>, s: State, l: nat) returns (a: Action)
    requires JoinInv(workload, s) && BeforeEnd(s) && BusyOnes(s.launchers) == {}
    requires l in s.launchers && !s.launchers[l].Returned? && (s.queue != [] || ToDispatch(workload, s) > 0)
    ensures Enabled(workload, s, a) && Harmless(s, a) && AllStay(s, Apply(workload, s, a))
    ensures BeforeEnd(Apply(workload, s, a)) && Closer(workload, Apply(workload, s, a), s)
  {
    assert l !in BusyOnes(s.launchers);
    if s.queue != [] {
      assert s.queue[0] != Sentinel;
      a := Get(l);
    } else {
      a := Dispatch;
    }
  }

  /** Some step leads closer to the end and sends no launcher home. */
  lemma NextStep(workload: seq<Work>, s: State, l: nat) returns (a: Action)
    requires JoinInv(workload, s) && BeforeEnd(s) && l in s.launchers && !s.launchers[l].Returned?
    requires BusyOnes(s.launchers) != {} || s.queue != [] || ToDispatch(workload, s) > 0
    ensures Enabled(workload, s, a) && BeforeEnd(Apply(workload, s, a)) && Closer(workload, Apply(workload, s, a), s)
    ensures Harmless(s, a) && AllStay(s, Apply(workload, s, a))
  {
    if BusyOnes(s.launchers) == {} {
      a := JobStep(workload, s, l);
    } else {
      var b :| b in BusyOnes(s.launchers);
      if s.lock.Free? {
        a := BusyStep(workload, s, b);
      } else {
        a := LockStep(workload, s);
      }
    }
  }

  /** Nothing queued, nobody busy, everything dispatched: the join returns. */
  lemma JoinNow(workload: seq<Work>, s: State) returns (run: seq<Action>)
    requires JoinInv(workload, s) && BeforeEnd(s)
    requires BusyOnes(s.launchers) == {} && s.queue == [] && ToDispatch(workload, s) == 0
    ensures Legal(workload, s, run) && Exec(workload, s, run).main.Ending?
  {
    if s.main.Joining? {
      ExecCons(workload, s, JoinReturns, []);
      run := [JoinReturns] + [];
    } else {
      var s1 := Apply(workload, s, AllDispatched);
      ExecCons(workload, s1, JoinReturns, []);
      ExecCons(workload, s, AllDispatched, [JoinReturns] + []);
      run := [AllDispatched] + ([JoinReturns] + []);
    }
  }

  lemma {:induction false} LauncherEndsIt(workload: seq<Work>, s: State, l: nat) returns (run: seq<Action>)
    requires JoinInv(workload, s) && BeforeEnd(s) && l in s.launchers && !s.launchers[l].Returned?
    ensures Legal(workload, s, run) && Exec(workload, s, run).main.Ending?
    decreases ToDispatch(workload, s), |s.queue|, |BusyOnes(s.launchers)|, |GotOnes(s.launchers)|, LockRank(s)
  {
    if BusyOnes(s.launchers) == {} && s.queue == [] && ToDispatch(workload, s) == 0 {
      run := JoinNow(workload, s);
    } else {
      var a := NextStep(workload, s, l);
      StepKeepsJoin(workload, s, a);
      var rest := LauncherEndsIt(workload, Apply(workload, s, a), l);
      ExecCons(workload, s, a, rest);
      run := [a] + rest;
    }
  }

  /** What is queued or still to be dispatched is so in the history too. */
  lemma LeftToLaunch(workload: seq<Work>, s: State) returns (i: Index)
    requires JoinInv(workload, s) && BeforeEnd(s) && (s.queue != [] || ToDispatch(workload, s) > 0)
    ensures i < |workload| && (s.at[i].Undispatched? || s.at[i].Queued?)
  {
    if s.queue != [] {
      assert s.queue[0] != Sentinel;
      i := s.queue[0].index;
    } else {
      i := s.main.next;
    }
    assert Placed(workload, s, i);
  }

  /**
   Before its join has returned, the dispatcher can still get past it if and only if some launcher has not returned or
   every item has left the queue.
   */
  lemma EndingReachableIff(workload: seq<Work>, s: State)
    requires JoinInv(workload, s) && BeforeEnd(s)
    ensures CanReachEnding(workload, s) <==>
            || (exists l :: l in s.launchers && !s.launchers[l].Returned?)
            || (forall i | 0 <= i < |workload| :: !s.at[i].Undispatched? && !s.at[i].Queued?)
  {
    if exists l :: l in s.launchers && !s.launchers[l].Returned? {
      var l :| l in s.launchers && !s.launchers[l].Returned?;
      var run := LauncherEndsIt(workload, s, l);
      assert CanReachEnding(workload, s);
    } else if s.queue != [] || ToDispatch(workload, s) > 0 {
      var i := LeftToLaunch(workload, s);
      forall run: seq<Action> | Legal(workload, s, run) ensures !Exec(workload, s, run).main.Ending? {
        GapHangsDispatcher(workload, s, run, i);
      }
    } else {
      assert BusyOnes(s.launchers) == {};
      var run := JoinNow(workload, s);
      forall i | 0 <= i < |workload| ensures !s.at[i].Undispatched? && !s.at[i].Queued? {
        assert Placed(workload, s, i);
      }
    }
  }

  // ---------- the gap ----------

  function WaitingOnes(launchers: map<nat, LauncherPc>): set<nat> {
    set l | l in launchers && launchers[l].Getting?
  }

  lemma {:induction false} AllTimeOut(workload: seq<Work>, s: State) returns (run: seq<Action>)
    requires s.queue == [] && forall l | l in s.launchers :: s.launchers[l].Getting? || s.launchers[l].Returned?
    ensures Legal(workload, s, run)
    ensures Exec(workload, s, run) == s.(launchers := map l | l in s.launchers :: Returned)
    decreases WaitingOnes(s.launchers)
  {
    if WaitingOnes(s.launchers) == {} {
      assert forall l | l in s.launchers :: l !in WaitingOnes(s.launchers);
      assert s.launchers == map l | l in s.launchers :: Returned;
      run := [];
    } else {
      var l :| l in WaitingOnes(s.launchers);
      var s1 := Apply(workload, s, Timeout(l));
      assert WaitingOnes(s1.launchers) == WaitingOnes(s.launchers) - {l};
      assert s1.launchers.Keys == s.launchers.Keys;
      var rest := AllTimeOut(workload, s1);
      ExecCons(workload, s, Timeout(l), rest);
      run := [Timeout(l)] + rest;
    }
  }

  lemma StartJoins(workload: seq<Work>, launchers: set<nat>)
    ensures JoinInv(workload, Start(workload, launchers))
  {
    StartIsInv(workload, launchers);
    assert BusyOnes(Start(workload, launchers).launchers) == {};
  }

  /** For every workload and every number of launchers: a gap before the first item is enough to hang the dispatcher. */
  lemma GapHangs(workload: seq<Work>, launchers: set<nat>) returns (run: seq<Action>)
    requires workload != []
    ensures Legal(workload, Start(workload, launchers), run)
    ensures !CanReachEnding(workload, Exec(workload, Start(workload, launchers), run))
  {
    var s := Start(workload, launchers);
    StartJoins(workload, launchers);
    run := AllTimeOut(workload, s);
    var s1 := Exec(workload, s, run);
    RunKeepsJoin(workload, s, run);
    assert s1.at[0].Undispatched?;
    EndingReachableIff(workload, s1);
  }
}

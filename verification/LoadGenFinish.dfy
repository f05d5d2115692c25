/**
 When the load generator can still finish.  From every state, some continuation ends the reaper's loop by its
 condition if and only if no launch has failed or is failing, the reaper has not left its loop by an exception, and
 what is left to launch has a launcher.
 */
module LoadGenFinish {
  import opened LoadGen
  import opened LoadGenSafety
  import opened LoadGenResults
  import opened LoadGenEnding

  ghost predicate CanFinish(workload: seq<Work>, s: State) {
    exists run: seq<Action> :: Legal(workload, s, run) && Exec(workload, s, run).reaper.Finished?
  }

  /** No launch has failed or is inside a failing Popen, and the reaper is in its loop or has ended it in order. */
  ghost predicate Healthy(s: State) {
    && (forall i | 0 <= i < |s.at| :: !s.at[i].Lost?)
    && (forall l | l in s.launchers :: !s.launchers[l].Forked?)
    && !s.reaper.Broken?
  }

  /** Some launcher is left, or nothing to launch. */
  ghost predicate Served(workload: seq<Work>, s: State)
    requires |s.at| == |workload|
  {
    || (exists l :: l in s.launchers && !s.launchers[l].Returned?)
    || (forall i | 0 <= i < |workload| :: !s.at[i].Undispatched? && !s.at[i].Queued?)
  }

  ghost predicate Sound(workload: seq<Work>, s: State) {
    JoinInv(workload, s) && CountInv(workload, s)
  }

  lemma StepKeepsSound(workload: seq<Work>, s: State, a: Action)
    requires Sound(workload, s) && Enabled(workload, s, a)
    ensures Sound(workload, Apply(workload, s, a))
  {
    StepKeepsJoin(workload, s, a);
    StepKeepsCount(workload, s, a);
  }

  lemma StepKeepsHealthy(workload: seq<Work>, s: State, a: Action)
    requires Inv(workload, s) && Enabled(workload, s, a) && Healthy(s) && Harmless(s, a)
    ensures Healthy(Apply(workload, s, a))
  {
  }

  // ---------- launching what is left ----------

  /** Nothing is left to launch. */
  ghost predicate Launched(s: State) {
    forall i | 0 <= i < |s.at| :: !s.at[i].Undispatched? && !s.at[i].Queued? && !s.at[i].AtLauncher?
  }

  lemma NothingLeftIsLaunched(workload: seq<Work>, s: State)
    requires Inv(workload, s) && BusyOnes(s.launchers) == {} && s.queue == [] && ToDispatch(workload, s) == 0
    ensures Launched(s)
  {
    assert forall l | l in s.launchers && Busy(s.launchers[l]) :: l in BusyOnes(s.launchers);
    forall i | 0 <= i < |s.at| ensures !s.at[i].Undispatched? && !s.at[i].Queued? && !s.at[i].AtLauncher? {
      assert Placed(workload, s, i);
    }
  }

  lemma {:induction false} LaunchAll(workload: seq<Work>, s: State, l: nat) returns (run: seq<Action>)
    requires Sound(workload, s) && Healthy(s) && BeforeEnd(s) && l in s.launchers && !s.launchers[l].Returned?
    ensures Legal(workload, s, run)
    ensures var t := Exec(workload, s, run); Sound(workload, t) && Healthy(t) && Launched(t)
    decreases ToDispatch(workload, s), |s.queue|, |BusyOnes(s.launchers)|, |GotOnes(s.launchers)|, LockRank(s)
  {
    if BusyOnes(s.launchers) == {} && s.queue == [] && ToDispatch(workload, s) == 0 {
      NothingLeftIsLaunched(workload, s);
      run := [];
    } else {
      var a := NextStep(workload, s, l);
      StepKeepsSound(workload, s, a);
      StepKeepsHealthy(workload, s, a);
      var rest := LaunchAll(workload, Apply(workload, s, a), l);
      ExecCons(workload, s, a, rest);
      run := [a] + rest;
    }
  }

  // ---------- reaping what runs ----------

  /** Steps of the reaper until it waits again. */
  function ReaperRank(r: ReaperPc): nat {
    match r
    case Reaped(_) => 3
    case Looking(_) => 2
    case Popped(_, _) => 1
    case Unknown(_) => 1
    case _ => 0
  }

  /** An item that is launched and has no result yet runs, or has exited and is not waited for. */
  lemma Running(workload: seq<Work>, s: State) returns (p: Pid)
    requires Sound(workload, s) && Healthy(s) && Launched(s) && s.reaper.Waiting? && s.reaped < |workload|
    ensures p in s.children || p in s.zombies
  {
    FullCountIff(s.results);
    var i :| 0 <= i < |workload| && !s.results[i].Filled?;
    assert Placed(workload, s, i);
    p := s.at[i].pid;
    assert ChildInv(s, p);
  }

  /** A launcher that holds the lock has an item. */
  lemma LockHolderHasItem(workload: seq<Work>, s: State)
    requires Inv(workload, s)
    ensures s.lock.ByLauncher? ==>
              exists i :: 0 <= i < |s.at| && s.at[i] == AtLauncher(s.lock.l)
  {
    if s.lock.ByLauncher? {
      var i := s.launchers[s.lock.l].index;
      assert Placed(workload, s, i);
    }
  }

  /** The reaper's next step, or the exit of the child it waits for. */
  lemma ReapStep(workload: seq<Work>, s: State) returns (a: Action)
    requires Sound(workload, s) && Healthy(s) && Launched(s) && !s.reaper.Finished?
    requires !(s.reaper.Waiting? && s.reaped >= |workload|)
    ensures Enabled(workload, s, a) && Harmless(s, a) && Launched(Apply(workload, s, a))
    ensures var t := Apply(workload, s, a);
      || |workload| - t.reaped < |workload| - s.reaped
      || (t.reaped == s.reaped && |t.children| < |s.children|)
      || (t.reaped == s.reaped && t.children == s.children && |t.zombies| < |s.zombies|)
      || (t.reaped == s.reaped && t.children == s.children && t.zombies == s.zombies
          && ReaperRank(t.reaper) < ReaperRank(s.reaper))
  {
    LockHolderHasItem(workload, s);
    match s.reaper
    case Waiting =>
      var p := Running(workload, s);
      a := if p in s.children then Exit(p) else Wait(p);
    case Reaped(_) => a := ReaperAcquire;
    case Looking(_) => a := Pop;
    case Popped(_, _) => a := Fill([], 0.0);
    case Unknown(_) => a := Warn;
  }

  lemma {:induction false} ReapAll(workload: seq<Work>, s: State) returns (run: seq<Action>)
    requires Sound(workload, s) && Healthy(s) && Launched(s)
    ensures Legal(workload, s, run) && Exec(workload, s, run).reaper.Finished?
    decreases |workload| - s.reaped, |s.children|, |s.zombies|, ReaperRank(s.reaper)
  {
    if s.reaper.Finished? {
      run := [];
    } else if s.reaper.Waiting? && s.reaped >= |workload| {
      ExecCons(workload, s, ReaperEnds, []);
      run := [ReaperEnds] + [];
    } else {
      var a := ReapStep(workload, s);
      StepKeepsSound(workload, s, a);
      StepKeepsHealthy(workload, s, a);
      FullCountIff(s.results);
      var rest := ReapAll(workload, Apply(workload, s, a));
      ExecCons(workload, s, a, rest);
      run := [a] + rest;
    }
  }

  /** A healthy, served state can finish. */
  lemma Finishes(workload: seq<Work>, s: State) returns (run: seq<Action>)
    requires Sound(workload, s) && Healthy(s) && Served(workload, s)
    ensures Legal(workload, s, run) && Exec(workload, s, run).reaper.Finished?
  {
    if BeforeEnd(s) && exists l :: l in s.launchers && !s.launchers[l].Returned? {
      var l :| l in s.launchers && !s.launchers[l].Returned?;
      var first := LaunchAll(workload, s, l);
      var last := ReapAll(workload, Exec(workload, s, first));
      ExecAppend(workload, s, first, last);
      run := first + last;
    } else {
      if BeforeEnd(s) {
        forall i | 0 <= i < |s.at| ensures !s.at[i].AtLauncher? {
          assert Placed(workload, s, i);
        }
      }
      run := ReapAll(workload, s);
    }
  }

  // ---------- what cannot finish ----------

  lemma UnfilledIsUnfinished(workload: seq<Work>, s: State, i: Index)
    requires CountInv(workload, s) && i < |workload| && !s.at[i].Done?
    ensures !s.reaper.Finished?
  {
    assert Placed(workload, s, i);
    FullCountIff(s.results);
  }

  lemma {:induction false} DoomedHangs(workload: seq<Work>, s: State, run: seq<Action>, l: nat)
    requires CountInv(workload, s) && Legal(workload, s, run) && l in s.launchers && s.launchers[l].Forked?
    ensures !Exec(workload, s, run).reaper.Finished?
    decreases |run|
  {
    var i := s.launchers[l].index;
    assert Placed(workload, s, i);
    if run == [] {
      UnfilledIsUnfinished(workload, s, i);
    } else {
      StepKeepsCount(workload, s, run[0]);
      if run[0] == ForkFails(l) {
        LostHangs(workload, Apply(workload, s, run[0]), run[1..], i);
      } else {
        DoomedHangs(workload, Apply(workload, s, run[0]), run[1..], l);
      }
    }
  }

  lemma {:induction false} BrokenStays(workload: seq<Work>, s: State, run: seq<Action>)
    requires s.reaper.Broken? && Legal(workload, s, run)
    ensures Exec(workload, s, run).reaper.Broken?
    decreases |run|
  {
    if run != [] {
      BrokenStays(workload, Apply(workload, s, run[0]), run[1..]);
    }
  }

  lemma {:induction false} GapHangsReaper(workload: seq<Work>, s: State, run: seq<Action>, i: Index)
    requires CountInv(workload, s) && Legal(workload, s, run) && i < |workload|
    requires s.at[i].Undispatched? || s.at[i].Queued?
    requires forall l | l in s.launchers :: s.launchers[l].Returned?
    ensures !Exec(workload, s, run).reaper.Finished?
    decreases |run|
  {
    assert Placed(workload, s, i);
    if run == [] {
      UnfilledIsUnfinished(workload, s, i);
    } else {
      StepKeepsCount(workload, s, run[0]);
      GapHangsReaper(workload, Apply(workload, s, run[0]), run[1..], i);
    }
  }

  lemma SickHangs(workload: seq<Work>, s: State, run: seq<Action>)
    requires Sound(workload, s) && Legal(workload, s, run) && !(Healthy(s) && Served(workload, s))
    ensures !Exec(workload, s, run).reaper.Finished?
  {
    if s.reaper.Broken? {
      BrokenStays(workload, s, run);
    } else if exists i :: 0 <= i < |s.at| && s.at[i].Lost? {
      var i :| 0 <= i < |s.at| && s.at[i].Lost?;
      LostHangs(workload, s, run, i);
    } else if exists l :: l in s.launchers && s.launchers[l].Forked? {
      var l :| l in s.launchers && s.launchers[l].Forked?;
      DoomedHangs(workload, s, run, l);
    } else {
      var i :| 0 <= i < |workload| && (s.at[i].Undispatched? || s.at[i].Queued?);
      GapHangsReaper(workload, s, run, i);
    }
  }

  /** In every reachable state: exactly when some continuation ends the reaper's loop with every result filled. */
  lemma FinishReachableIff(workload: seq<Work>, launchers: set<nat>, run: seq<Action>)
    requires Legal(workload, Start(workload, launchers), run)
    ensures var s := Exec(workload, Start(workload, launchers), run);
      |s.at| == |workload| && (CanFinish(workload, s) <==> Healthy(s) && Served(workload, s))
  {
    var s := Exec(workload, Start(workload, launchers), run);
    StartJoins(workload, launchers);
    StartCounts(workload, launchers);
    RunKeepsJoin(workload, Start(workload, launchers), run);
    RunKeepsCount(workload, Start(workload, launchers), run);
    if Healthy(s) && Served(workload, s) {
      var more := Finishes(workload, s);
      assert CanFinish(workload, s);
    } else {
      forall more: seq<Action> | Legal(workload, s, more) ensures !Exec(workload, s, more).reaper.Finished? {
        SickHangs(workload, s, more);
      }
    }
  }
}

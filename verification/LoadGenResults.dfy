/**
 What the load generator delivers: the reaper ends only with every result filled, each once and with its own
 argument; it ends at all exactly when no launch failed; and the dispatcher's join returns only when every work item
 has been launched.
 */
module LoadGenResults {
  import opened LoadGen
  import opened LoadGenSafety
  import Decimal

  function FilledCount(results: seq<Result>): nat {
    if results == [] then 0 else (if results[0].Filled? then 1 else 0) + FilledCount(results[1..])
  }

  lemma {:induction false} FillCounts(results: seq<Result>, i: nat, r: Result)
    requires i < |results| && results[i].Empty? && r.Filled?
    ensures FilledCount(results[i := r]) == FilledCount(results) + 1
  {
    if i == 0 {
      assert results[0 := r][1..] == results[1..];
    } else {
      assert results[i := r][1..] == results[1..][i - 1 := r];
      FillCounts(results[1..], i - 1, r);
    }
  }

  lemma {:induction false} FullCountIff(results: seq<Result>)
    ensures FilledCount(results) <= |results|
    ensures FilledCount(results) == |results| <==> forall i | 0 <= i < |results| :: results[i].Filled?
  {
    if results != [] {
      FullCountIff(results[1..]);
      assert results == [results[0]] + results[1..];
    }
  }

  lemma {:induction false} EmptyCount(results: seq<Result>)
    requires forall i | 0 <= i < |results| :: results[i].Empty?
    ensures FilledCount(results) == 0
  {
    if results != [] {
      EmptyCount(results[1..]);
    }
  }

  /** The reaper's count is the number of filled results, and it ends only when the count is the number of items. */
  ghost predicate CountInv(workload: seq<Work>, s: State) {
    && Inv(workload, s)
    && s.reaped == FilledCount(s.results)
    && (s.reaper.Finished? ==> s.reaped >= |workload|)
  }

  /** A result is only ever written where none was. */
  lemma FillFindsEmpty(workload: seq<Work>, s: State, stdout: Decimal.Bytes, returned: real)
    requires Inv(workload, s) && Enabled(workload, s, Fill(stdout, returned))
    ensures s.results[s.reaper.rec.index].Empty?
    ensures Apply(workload, s, Fill(stdout, returned)).results ==
            s.results[s.reaper.rec.index := Filled(workload[s.reaper.rec.index], s.reaper.pid, stdout, returned)]
  {
    assert Placed(workload, s, s.reaper.rec.index);
  }

  lemma StepKeepsCount(workload: seq<Work>, s: State, a: Action)
    requires CountInv(workload, s) && Enabled(workload, s, a)
    ensures CountInv(workload, Apply(workload, s, a))
  {
    StepKeepsInv(workload, s, a);
    if a.Fill? {
      FillFindsEmpty(workload, s, a.stdout, a.returned);
      FillCounts(s.results, s.reaper.rec.index,
          Filled(workload[s.reaper.rec.index], s.reaper.pid, a.stdout, a.returned));
    }
  }

  lemma {:induction false} RunKeepsCount(workload: seq<Work>, s: State, run: seq<Action>)
    requires CountInv(workload, s) && Legal(workload, s, run)
    ensures CountInv(workload, Exec(workload, s, run))
    decreases |run|
  {
    if run != [] {
      StepKeepsCount(workload, s, run[0]);
      RunKeepsCount(workload, Apply(workload, s, run[0]), run[1..]);
    }
  }

  lemma StartCounts(workload: seq<Work>, launchers: set<nat>)
    ensures CountInv(workload, Start(workload, launchers))
  {
    StartIsInv(workload, launchers);
    EmptyCount(Start(workload, launchers).results);
  }

  /** In every run, every work item is in exactly one of its seven places, and the one the history names. */
  lemma OnePlaceEach(workload: seq<Work>, launchers: set<nat>, run: seq<Action>, i: Index)
    requires Legal(workload, Start(workload, launchers), run) && i < |workload|
    ensures var s := Exec(workload, Start(workload, launchers), run);
            |s.at| == |s.results| == |workload| && Placed(workload, s, i)
  {
    StartIsInv(workload, launchers);
    RunKeepsInv(workload, Start(workload, launchers), run);
  }

  /** Where the history puts the items that the queue, the recorded children and the launchers have. */
  lemma WhereItemsAre(workload: seq<Work>, s: State)
    requires Inv(workload, s)
    ensures forall k | 0 <= k < |s.queue| && s.queue[k].Job? :: s.at[s.queue[k].index].Queued?
    ensures forall p | p in s.active :: s.at[s.active[p].index] == Active(p)
    ensures forall p | Fresh(s, p) || Doomed(s, p) :: s.at[s.launchers[s.lock.l].index] == AtLauncher(s.lock.l)
    ensures forall p | p in s.active :: Unreaped(s, p)
    ensures forall p | p in s.children || p in s.zombies :: p in s.active || Fresh(s, p) || Doomed(s, p)
  {
    forall k | 0 <= k < |s.queue| && s.queue[k].Job? ensures s.at[s.queue[k].index].Queued? {
      assert Placed(workload, s, s.queue[k].index);
    }
    forall p | p in s.active ensures s.at[s.active[p].index] == Active(p) {
      assert Placed(workload, s, s.active[p].index);
    }
    forall p | Fresh(s, p) || Doomed(s, p) ensures s.at[s.launchers[s.lock.l].index] == AtLauncher(s.lock.l) {
      assert Placed(workload, s, s.launchers[s.lock.l].index);
    }
    forall p | p in s.active ensures Unreaped(s, p) {
      assert ChildInv(s, p);
    }
    forall p | p in s.children || p in s.zombies ensures p in s.active || Fresh(s, p) || Doomed(s, p) {
      assert ChildInv(s, p);
    }
  }

  /** With every item done, nothing is queued, recorded or running. */
  lemma AllDoneIsEmpty(workload: seq<Work>, s: State)
    requires Inv(workload, s)
    requires forall i | 0 <= i < |workload| :: s.at[i].Done?
    ensures forall k | 0 <= k < |s.queue| :: s.queue[k].Sentinel?
    ensures s.active == map[] && s.children == {} && s.zombies == {}
  {
    WhereItemsAre(workload, s);
    forall p: Pid ensures p !in s.active && p !in s.children && p !in s.zombies {
      assert p !in s.active && !Fresh(s, p) && !Doomed(s, p);
    }
  }

  /** A reaper that leaves its loop by the loop's condition leaves every result filled with its own work item. */
  lemma ReaperEndsComplete(workload: seq<Work>, launchers: set<nat>, run: seq<Action>)
    requires Legal(workload, Start(workload, launchers), run)
    requires Exec(workload, Start(workload, launchers), run).reaper.Finished?
    ensures var s := Exec(workload, Start(workload, launchers), run);
            && s.reaped == |workload| == |s.results|
            && (forall i | 0 <= i < |workload| :: s.results[i].Filled? && s.results[i].work == workload[i])
            && (forall k | 0 <= k < |s.queue| :: s.queue[k].Sentinel?)
            && s.active == map[] && s.children == {} && s.zombies == {}
  {
    var s := Exec(workload, Start(workload, launchers), run);
    StartCounts(workload, launchers);
    RunKeepsCount(workload, Start(workload, launchers), run);
    FullCountIff(s.results);
    forall i | 0 <= i < |workload| ensures s.at[i].Done? && s.results[i].work == workload[i] {
      assert Placed(workload, s, i);
    }
    AllDoneIsEmpty(workload, s);
  }

  // ---------- when the reaper ends ----------

  /** All launching and all children are over, and the reaper is between two rounds. */
  ghost predicate Quiet(workload: seq<Work>, s: State) {
    && !s.main.Dispatching?
    && (forall k | 0 <= k < |s.queue| :: s.queue[k].Sentinel?)
    && (forall l | l in s.launchers :: s.launchers[l].Getting? || s.launchers[l].Finishing? || s.launchers[l].Returned?)
    && s.children == {} && s.zombies == {}
    && s.reaper.Waiting?
  }

  /** Once all is over the reaper ends if and only if no launch failed; otherwise it waits for a child for ever. */
  lemma ReaperEndsIff(workload: seq<Work>, launchers: set<nat>, run: seq<Action>)
    requires Legal(workload, Start(workload, launchers), run)
    requires Quiet(workload, Exec(workload, Start(workload, launchers), run))
    ensures var s := Exec(workload, Start(workload, launchers), run);
            Enabled(workload, s, ReaperEnds) <==> forall i | 0 <= i < |s.at| :: !s.at[i].Lost?
  {
    var s := Exec(workload, Start(workload, launchers), run);
    StartCounts(workload, launchers);
    RunKeepsCount(workload, Start(workload, launchers), run);
    FullCountIff(s.results);
    WhereItemsAre(workload, s);
    forall i | 0 <= i < |workload| ensures s.results[i].Filled? <==> !s.at[i].Lost? {
      assert Placed(workload, s, i);
    }
  }

  lemma LostStays(workload: seq<Work>, s: State, a: Action, i: Index)
    requires Inv(workload, s) && Enabled(workload, s, a) && i < |workload| && s.at[i].Lost?
    ensures Apply(workload, s, a).at[i].Lost?
  {
    assert Placed(workload, s, i);
  }

  /** After one failed launch the reaper never leaves its loop by the loop's condition, in any continuation. */
  lemma {:induction false} LostHangs(workload: seq<Work>, s: State, run: seq<Action>, i: Index)
    requires CountInv(workload, s) && Legal(workload, s, run) && i < |workload| && s.at[i].Lost?
    ensures !Exec(workload, s, run).reaper.Finished? && Exec(workload, s, run).reaped < |workload|
    decreases |run|
  {
    if run == [] {
      assert Placed(workload, s, i);
      FullCountIff(s.results);
    } else {
      LostStays(workload, s, run[0], i);
      StepKeepsCount(workload, s, run[0]);
      LostHangs(workload, Apply(workload, s, run[0]), run[1..], i);
    }
  }

  /** For every workload and any launcher: the first launch fails. */
  lemma LaunchFails(workload: seq<Work>, launchers: set<nat>, l: nat) returns (run: seq<Action>)
    requires workload != [] && l in launchers
    ensures Legal(workload, Start(workload, launchers), run)
    ensures var s := Exec(workload, Start(workload, launchers), run); |s.at| == |workload| && s.at[0].Lost?
  {
    var s := Start(workload, launchers);
    var s1 := Apply(workload, s, Dispatch);
    var s2 := Apply(workload, s1, Get(l));
    var s3 := Apply(workload, s2, Acquire(l));
    run := [];
    ExecCons(workload, s3, SpawnFails(l), run);
    run := [SpawnFails(l)] + run;
    ExecCons(workload, s2, Acquire(l), run);
    run := [Acquire(l)] + run;
    ExecCons(workload, s1, Get(l), run);
    run := [Get(l)] + run;
    ExecCons(workload, s, Dispatch, run);
    run := [Dispatch] + run;
  }

  /** That run hangs the reaper: no continuation of it ends the reaper's loop by its condition. */
  lemma FailedLaunchHangs(workload: seq<Work>, launchers: set<nat>, l: nat) returns (run: seq<Action>)
    requires workload != [] && l in launchers
    ensures Legal(workload, Start(workload, launchers), run)
    ensures var s := Exec(workload, Start(workload, launchers), run);
      forall more: seq<Action> | Legal(workload, s, more) :: !Exec(workload, s, more).reaper.Finished?
  {
    run := LaunchFails(workload, launchers, l);
    var s := Exec(workload, Start(workload, launchers), run);
    StartCounts(workload, launchers);
    RunKeepsCount(workload, Start(workload, launchers), run);
    forall more: seq<Action> | Legal(workload, s, more) ensures !Exec(workload, s, more).reaper.Finished? {
      LostHangs(workload, s, more, 0);
    }
  }

  // ---------- when the dispatcher's join returns ----------

  predicate Busy(pc: LauncherPc) {
    HasItem(pc) || pc.Finishing?
  }

  function BusyOnes(launchers: map<nat, LauncherPc>): set<nat> {
    set l | l in launchers && Busy(launchers[l])
  }

  lemma BusyUpdate(launchers: map<nat, LauncherPc>, l: nat, pc: LauncherPc)
    requires l in launchers
    ensures |BusyOnes(launchers[l := pc])| ==
            |BusyOnes(launchers)| + (if Busy(pc) then 1 else 0) - (if Busy(launchers[l]) then 1 else 0)
  {
    var rest := BusyOnes(launchers) - {l};
    assert BusyOnes(launchers[l := pc]) == if Busy(pc) then rest + {l} else rest;
    assert BusyOnes(launchers) == if Busy(launchers[l]) then rest + {l} else rest;
  }

  /**
   The queue's count of unfinished items is exact; before the join returns no sentinel is queued, and past it nothing
   is left to launch.
   */
  ghost predicate JoinInv(workload: seq<Work>, s: State) {
    && Inv(workload, s)
    && (s.main.Dispatching? || s.main.Joining? ==> Sentinel !in s.queue)
    && s.unfinished == |s.queue| + |BusyOnes(s.launchers)|
    && (s.main.Ending? || s.main.Over? ==>
          forall i | 0 <= i < |workload| :: !s.at[i].Undispatched? && !s.at[i].Queued? && !s.at[i].AtLauncher?)
  }

  lemma StepKeepsUnfinished(workload: seq<Work>, s: State, a: Action)
    requires s.unfinished == |s.queue| + |BusyOnes(s.launchers)| && Enabled(workload, s, a)
    ensures Apply(workload, s, a).unfinished ==
            |Apply(workload, s, a).queue| + |BusyOnes(Apply(workload, s, a).launchers)|
  {
    if ByLauncherThread(a) {
      BusyUpdate(s.launchers, a.l, Apply(workload, s, a).launchers[a.l]);
    }
  }

  lemma JoinedMeansLaunched(workload: seq<Work>, s: State, i: Index)
    requires Inv(workload, s) && s.unfinished == |s.queue| + |BusyOnes(s.launchers)|
    requires s.main.Joining? && s.unfinished == 0 && i < |workload|
    ensures !s.at[i].Undispatched? && !s.at[i].Queued? && !s.at[i].AtLauncher?
  {
    assert Placed(workload, s, i);
    assert forall l | l in s.launchers && Busy(s.launchers[l]) :: l in BusyOnes(s.launchers);
  }

  lemma StepKeepsJoin(workload: seq<Work>, s: State, a: Action)
    requires JoinInv(workload, s) && Enabled(workload, s, a)
    ensures JoinInv(workload, Apply(workload, s, a))
  {
    var s' := Apply(workload, s, a);
    StepKeepsInv(workload, s, a);
    StepKeepsUnfinished(workload, s, a);
    if s'.main.Ending? || s'.main.Over? {
      forall i | 0 <= i < |workload|
        ensures !s'.at[i].Undispatched? && !s'.at[i].Queued? && !s'.at[i].AtLauncher?
      {
        assert Placed(workload, s, i);
        if s.main.Joining? {
          JoinedMeansLaunched(workload, s, i);
        }
      }
    }
  }

  lemma {:induction false} RunKeepsJoin(workload: seq<Work>, s: State, run: seq<Action>)
    requires JoinInv(workload, s) && Legal(workload, s, run)
    ensures JoinInv(workload, Exec(workload, s, run))
    decreases |run|
  {
    if run != [] {
      StepKeepsJoin(workload, s, run[0]);
      RunKeepsJoin(workload, Apply(workload, s, run[0]), run[1..]);
    }
  }

  /** When the dispatcher's join has returned, every work item has been launched or its launch has failed. */
  lemma JoinWaitsForLaunches(workload: seq<Work>, launchers: set<nat>, run: seq<Action>, i: Index)
    requires Legal(workload, Start(workload, launchers), run) && i < |workload|
    requires var m := Exec(workload, Start(workload, launchers), run).main; m.Ending? || m.Over?
    ensures var s := Exec(workload, Start(workload, launchers), run);
            |s.at| == |workload| && (s.at[i].Active? || s.at[i].AtReaper? || s.at[i].Done? || s.at[i].Lost?)
  {
    var s := Start(workload, launchers);
    StartIsInv(workload, launchers);
    assert BusyOnes(s.launchers) == {};
    RunKeepsJoin(workload, s, run);
  }

  /** If every launcher has timed out while an item is still to be launched, the dispatcher never gets past its join. */
  lemma {:induction false} GapHangsDispatcher(workload: seq<Work>, s: State, run: seq<Action>, i: Index)
    requires JoinInv(workload, s) && Legal(workload, s, run) && i < |workload|
    requires s.at[i].Undispatched? || s.at[i].Queued?
    requires forall l | l in s.launchers :: s.launchers[l].Returned?
    ensures Exec(workload, s, run).main.Dispatching? || Exec(workload, s, run).main.Joining?
    decreases |run|
  {
    assert Placed(workload, s, i);
    if run != [] {
      assert s.at[i].Queued? ==> s.queue != [];
      StepKeepsJoin(workload, s, run[0]);
      GapHangsDispatcher(workload, Apply(workload, s, run[0]), run[1..], i);
    }
  }
}

/**
 When the reaper warns about an unknown pid.  Popen waits for a child that could not execute its command, but the
 reaper waits for any child: it may get there first, and then finds no record.
 */
module LoadGenUnknown {
  import opened LoadGen
  import opened LoadGenSafety

  /** The child the reaper has in hand will never be recorded. */
  predicate Stray(s: State, p: Pid) {
    ReaperHolds(s, p) && p !in s.active && !Fresh(s, p)
  }

  lemma HeldStaysStray(workload: seq<Work>, s: State, a: Action, p: Pid)
    requires KnownInv(s) && Enabled(workload, s, a) && ReaperHolds(s, p) && !a.Pop?
    ensures ReaperHolds(Apply(workload, s, a), p)
    ensures Stray(Apply(workload, s, a), p) <==> Stray(s, p)
  {
    assert ChildInv(s, p);
  }

  predicate NoPop(run: seq<Action>) {
    forall i | 0 <= i < |run| :: !run[i].Pop?
  }

  lemma {:induction false} HeldRunStaysStray(workload: seq<Work>, s: State, run: seq<Action>, p: Pid)
    requires KnownInv(s) && Legal(workload, s, run) && ReaperHolds(s, p) && NoPop(run)
    ensures KnownInv(Exec(workload, s, run)) && ReaperHolds(Exec(workload, s, run), p)
    ensures Stray(Exec(workload, s, run), p) <==> Stray(s, p)
    decreases |run|
  {
    if run != [] {
      HeldStaysStray(workload, s, run[0], p);
      StepKeepsKnown(workload, s, run[0]);
      HeldRunStaysStray(workload, Apply(workload, s, run[0]), run[1..], p);
    }
  }

  /**
   The reaper finds no record of a child if and only if, when it waited for the child, a launcher was still inside the
   Popen that had forked it and could not execute the command.
   */
  lemma UnknownIff(workload: seq<Work>, s: State, p: Pid, mid: seq<Action>)
    requires KnownInv(s) && Enabled(workload, s, Wait(p))
    requires Legal(workload, Apply(workload, s, Wait(p)), mid) && NoPop(mid)
    requires Enabled(workload, Exec(workload, Apply(workload, s, Wait(p)), mid), Pop)
    ensures Apply(workload, Exec(workload, Apply(workload, s, Wait(p)), mid), Pop).reaper.Unknown? <==> Doomed(s, p)
  {
    var s1 := Apply(workload, s, Wait(p));
    assert ChildInv(s, p);
    StepKeepsKnown(workload, s, Wait(p));
    HeldRunStaysStray(workload, s1, mid, p);
    assert Stray(s1, p) <==> Doomed(s, p);
  }

  predicate NoFork(run: seq<Action>) {
    forall i | 0 <= i < |run| :: !run[i].Fork?
  }

  /** No launcher is inside a failing Popen, and nothing in the reaper's hand is unrecorded. */
  ghost predicate AllKnown(s: State) {
    && KnownInv(s) && !s.reaper.Unknown?
    && (forall l | l in s.launchers :: !s.launchers[l].Forked?)
    && forall p: Pid :: !Stray(s, p)
  }

  lemma StepKeepsAllKnown(workload: seq<Work>, s: State, a: Action)
    requires AllKnown(s) && Enabled(workload, s, a) && !a.Fork?
    ensures AllKnown(Apply(workload, s, a))
  {
    var s' := Apply(workload, s, a);
    StepKeepsKnown(workload, s, a);
    forall p: Pid ensures !Stray(s', p) {
      assert ChildInv(s, p) && !Stray(s, p);
    }
    if a.Pop? {
      assert !Stray(s, s.reaper.pid);
    }
  }

  lemma {:induction false} RunKeepsAllKnown(workload: seq<Work>, s: State, run: seq<Action>)
    requires AllKnown(s) && Legal(workload, s, run) && NoFork(run)
    ensures AllKnown(Exec(workload, s, run))
    decreases |run|
  {
    if run != [] {
      StepKeepsAllKnown(workload, s, run[0]);
      RunKeepsAllKnown(workload, Apply(workload, s, run[0]), run[1..]);
    }
  }

  /** If every command can be executed, the reaper never warns: every child it waits for is recorded when it looks. */
  lemma NeverUnknown(workload: seq<Work>, launchers: set<nat>, run: seq<Action>)
    requires Legal(workload, Start(workload, launchers), run) && NoFork(run)
    ensures !Exec(workload, Start(workload, launchers), run).reaper.Unknown?
  {
    StartIsInv(workload, launchers);
    RunKeepsAllKnown(workload, Start(workload, launchers), run);
  }

  /** Up to the fork of a child that cannot execute its command. */
  lemma FirstForks(workload: seq<Work>, launchers: set<nat>, l: nat, p: Pid) returns (run: seq<Action>)
    requires workload != [] && l in launchers
    ensures Legal(workload, Start(workload, launchers), run)
    ensures var s := Exec(workload, Start(workload, launchers), run);
      && s.lock == ByLauncher(l) && At(s, l, Forked(0, p)) && |s.at| == |workload|
      && s.children == {p} && s.zombies == {} && s.active == map[] && s.reaper.Waiting? && s.reaped == 0
  {
    var s := Start(workload, launchers);
    var s1 := Apply(workload, s, Dispatch);
    var s2 := Apply(workload, s1, Get(l));
    var s3 := Apply(workload, s2, Acquire(l));
    run := [];
    ExecCons(workload, s3, Fork(l, p), run);
    run := [Fork(l, p)] + run;
    ExecCons(workload, s2, Acquire(l), run);
    run := [Acquire(l)] + run;
    ExecCons(workload, s1, Get(l), run);
    run := [Get(l)] + run;
    ExecCons(workload, s, Dispatch, run);
    run := [Dispatch] + run;
  }

  /** The child exits, the reaper waits for it before Popen does, Popen raises, the reaper looks the pid up. */
  lemma ReaperWinsRace(workload: seq<Work>, s: State, l: nat, p: Pid) returns (run: seq<Action>)
    requires s.lock == ByLauncher(l) && At(s, l, Forked(0, p)) && |s.at| == |workload| > 0
    requires s.children == {p} && s.zombies == {} && s.active == map[] && s.reaper.Waiting? && s.reaped == 0
    ensures Legal(workload, s, run) && Exec(workload, s, run).reaper == Unknown(p)
  {
    var s1 := Apply(workload, s, Exit(p));
    var s2 := Apply(workload, s1, Wait(p));
    var s3 := Apply(workload, s2, ForkFails(l));
    var s4 := Apply(workload, s3, ReaperAcquire);
    run := [];
    ExecCons(workload, s4, Pop, run);
    run := [Pop] + run;
    ExecCons(workload, s3, ReaperAcquire, run);
    run := [ReaperAcquire] + run;
    ExecCons(workload, s2, ForkFails(l), run);
    run := [ForkFails(l)] + run;
    ExecCons(workload, s1, Wait(p), run);
    run := [Wait(p)] + run;
    ExecCons(workload, s, Exit(p), run);
    run := [Exit(p)] + run;
  }

  /**
   For every workload, any number of launchers and any pid, the branch is reached when one command cannot be executed.
   */
  lemma UnknownReached(workload: seq<Work>, launchers: set<nat>, l: nat, p: Pid) returns (run: seq<Action>)
    requires workload != [] && l in launchers
    ensures Legal(workload, Start(workload, launchers), run)
    ensures Exec(workload, Start(workload, launchers), run).reaper == Unknown(p)
  {
    var first := FirstForks(workload, launchers, l, p);
    var last := ReaperWinsRace(workload, Exec(workload, Start(workload, launchers), first), l, p);
    ExecAppend(workload, Start(workload, launchers), first, last);
    run := first + last;
  }
}

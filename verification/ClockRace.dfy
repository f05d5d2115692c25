/**
 The global virtual clock under concurrency.  Any number of CPUs walk the shared
 queue at once; each looks at a task's vtime, loads the clock, and advances it
 with one compare-and-swap that is never retried.  The userspace-assigned
 variant also has a plain check-then-store when a task starts running.
 */
module ClockRace {
  import opened U64

  datatype Pc =
    | Outside
    | Examined(vtime: nat)
    | Loaded(vtime: nat, seen: nat)
    | Passed(vtime: nat)

  datatype State = State(clock: nat, cpus: map<nat, Pc>, examined: seq<nat>)

  datatype Step =
    | Examine(cpu: nat, vtime: nat)  // the walk reads the task's vtime
    | Load(cpu: nat)                 // then the clock
    | Swap(cpu: nat)                 // then swaps, if the vtime is ahead of the clock it read
    | RunCheck(cpu: nat, vtime: nat) // running(): the comparison
    | RunStore(cpu: nat)             // running(): the plain store

  const START := State(0, map[], [])

  function PcOf(s: State, cpu: nat): Pc {
    if cpu in s.cpus then s.cpus[cpu] else Outside
  }

  predicate Enabled(s: State, step: Step) {
    match step
    case Examine(cpu, _) => PcOf(s, cpu).Outside?
    case Load(cpu) => PcOf(s, cpu).Examined?
    case Swap(cpu) => PcOf(s, cpu).Loaded?
    case RunCheck(cpu, _) => PcOf(s, cpu).Outside?
    case RunStore(cpu) => PcOf(s, cpu).Passed?
  }

  function Apply(s: State, step: Step): State
    requires Enabled(s, step)
  {
    match step
    case Examine(cpu, v) => State(s.clock, s.cpus[cpu := Examined(v)], s.examined + [v])
    case Load(cpu) => s.(cpus := s.cpus[cpu := Loaded(PcOf(s, cpu).vtime, s.clock)])
    case Swap(cpu) =>
      var pc := PcOf(s, cpu);
      State(if pc.vtime > pc.seen && s.clock == pc.seen then pc.vtime else s.clock, s.cpus[cpu := Outside], s.examined)
    case RunCheck(cpu, v) => State(s.clock, s.cpus[cpu := if s.clock < v then Passed(v) else Outside], s.examined + [v])
    case RunStore(cpu) => s.(clock := PcOf(s, cpu).vtime, cpus := s.cpus[cpu := Outside])
  }

  predicate Legal(s: State, run: seq<Step>)
    decreases |run|
  {
    run == [] || (Enabled(s, run[0]) && Legal(Apply(s, run[0]), run[1..]))
  }

  function Exec(s: State, run: seq<Step>): State
    requires Legal(s, run)
    decreases |run|
  {
    if run == [] then s else Exec(Apply(s, run[0]), run[1..])
  }

  /** Runs of the kernel-assigned variant, which has no running() callback. */
  predicate SwapsOnly(run: seq<Step>) {
    forall i | 0 <= i < |run| :: !run[i].RunCheck? && !run[i].RunStore?
  }

  /** The clock and every pending vtime come from an examined task. */
  ghost predicate Known(s: State) {
    && (s.clock == 0 || s.clock in s.examined)
    && (forall c | c in s.cpus && !s.cpus[c].Outside? :: s.cpus[c].vtime in s.examined)
  }

  /** Without running(): also, no CPU has loaded more than the clock shows. */
  ghost predicate Inv(s: State) {
    && Known(s)
    && (forall c | c in s.cpus :: s.cpus[c].Loaded? ==> s.cpus[c].seen <= s.clock)
    && (forall c | c in s.cpus :: !s.cpus[c].Passed?)
  }

  /** In either variant the clock only ever shows 0 or a vtime that was examined. */
  lemma {:induction false} ClockIsKnown(s: State, run: seq<Step>)
    requires Known(s) && Legal(s, run)
    ensures Known(Exec(s, run))
    decreases |run|
  {
    if run != [] {
      ClockIsKnown(Apply(s, run[0]), run[1..]);
    }
  }

  /**
   Over every interleaving of every number of CPUs the clock never goes back, and only ever shows 0 or an examined
   vtime.
   */
  lemma {:induction false} ClockOnlyAdvances(s: State, run: seq<Step>)
    requires Inv(s) && Legal(s, run) && SwapsOnly(run)
    ensures Exec(s, run).clock >= s.clock
    ensures Inv(Exec(s, run))
    decreases |run|
  {
    if run != [] {
      ClockOnlyAdvances(Apply(s, run[0]), run[1..]);
    }
  }

  /** The one swap is lost exactly when another CPU moved the clock in between and left it short of this vtime. */
  lemma SwapLostIff(s: State, cpu: nat)
    requires Inv(s) && Enabled(s, Swap(cpu))
    ensures var pc := PcOf(s, cpu);
      Apply(s, Swap(cpu)).clock < pc.vtime <==> pc.seen < s.clock < pc.vtime
  {
    assert cpu in s.cpus;
  }

  /** The swap this CPU is about to make is lost. */
  predicate Lost(s: State, cpu: nat) {
    PcOf(s, cpu).Loaded? && PcOf(s, cpu).seen < s.clock < PcOf(s, cpu).vtime
  }

  /** Some visit to a task with vtime `m` makes a swap that is not lost. */
  predicate KeepsUp(s: State, run: seq<Step>, m: nat)
    requires Legal(s, run)
    decreases |run|
  {
    run != [] &&
    ((run[0].Swap? && PcOf(s, run[0].cpu).vtime == m && !Lost(s, run[0].cpu)) || KeepsUp(Apply(s, run[0]), run[1..], m))
  }

  lemma {:induction false} ExaminedGrows(s: State, run: seq<Step>)
    requires Legal(s, run)
    ensures forall v | v in s.examined :: v in Exec(s, run).examined
    decreases |run|
  {
    if run != [] {
      ExaminedGrows(Apply(s, run[0]), run[1..]);
    }
  }

  lemma {:induction false} KeptUpIff(s: State, run: seq<Step>, m: nat)
    requires Inv(s) && Legal(s, run) && SwapsOnly(run) && s.clock < m
    requires forall v | v in Exec(s, run).examined :: v <= m
    ensures Exec(s, run).clock == m <==> KeepsUp(s, run, m)
    ensures Exec(s, run).clock <= m
    decreases |run|
  {
    if run != [] {
      var s' := Apply(s, run[0]);
      ClockOnlyAdvances(s', run[1..]);
      ExaminedGrows(s', run[1..]);
      if run[0].Swap? {
        SwapLostIff(s, run[0].cpu);
        assert run[0].cpu in s.cpus;
      }
      if s'.clock < m {
        KeptUpIff(s', run[1..], m);
      }
    }
  }

  function MaxIn(vs: seq<nat>): (m: nat)
    ensures forall v | v in vs :: v <= m
    ensures vs != [] ==> m in vs
  {
    if vs == [] then 0
    else
      assert vs == [vs[0]] + vs[1..];
      Max(vs[0], MaxIn(vs[1..]))
  }

  /**
   At any point of any run the clock is the largest vtime examined if and only if that is 0, or some visit to a
   task that had it made a swap that was not lost.
   */
  lemma ClockIsMaxIff(run: seq<Step>)
    requires Legal(START, run) && SwapsOnly(run)
    ensures var m := MaxIn(Exec(START, run).examined);
      Exec(START, run).clock == m <==> m == 0 || KeepsUp(START, run, m)
  {
    var m := MaxIn(Exec(START, run).examined);
    ClockIsKnown(START, run);
    if m > 0 {
      KeptUpIff(START, run, m);
    }
  }

  /** One CPU's uninterrupted visit to a task. */
  function Visit(cpu: nat, vtime: nat): seq<Step> {
    [Examine(cpu, vtime), Load(cpu), Swap(cpu)]
  }

  function SerialRun(visits: seq<(nat, nat)>): seq<Step> {
    if visits == [] then [] else Visit(visits[0].0, visits[0].1) + SerialRun(visits[1..])
  }

  function MaxOf(visits: seq<(nat, nat)>): nat {
    if visits == [] then 0 else Max(visits[0].1, MaxOf(visits[1..]))
  }

  lemma ExecCons(s: State, step: Step, rest: seq<Step>)
    requires Enabled(s, step) && Legal(Apply(s, step), rest)
    ensures Legal(s, [step] + rest) && Exec(s, [step] + rest) == Exec(Apply(s, step), rest)
  {
    assert ([step] + rest)[1..] == rest;
  }

  lemma VisitTakesMax(s: State, cpu: nat, vtime: nat)
    requires PcOf(s, cpu).Outside?
    ensures Legal(s, Visit(cpu, vtime))
    ensures var t := Exec(s, Visit(cpu, vtime));
      t.clock == Max(s.clock, vtime) && forall c :: PcOf(t, c) == PcOf(s, c)
  {
    var s1 := Apply(s, Examine(cpu, vtime));
    var s2 := Apply(s1, Load(cpu));
    ExecCons(s2, Swap(cpu), []);
    ExecCons(s1, Load(cpu), [Swap(cpu)] + []);
    ExecCons(s, Examine(cpu, vtime), [Load(cpu)] + ([Swap(cpu)] + []));
    assert [Examine(cpu, vtime)] + ([Load(cpu)] + ([Swap(cpu)] + [])) == Visit(cpu, vtime);
  }

  lemma {:induction false} ExecAppend(s: State, a: seq<Step>, b: seq<Step>)
    requires Legal(s, a) && Legal(Exec(s, a), b)
    ensures Legal(s, a + b) && Exec(s, a + b) == Exec(Exec(s, a), b)
    decreases |a|
  {
    if a == [] {
      assert a + b == b;
    } else {
      assert (a + b)[0] == a[0] && (a + b)[1..] == a[1..] + b;
      ExecAppend(Apply(s, a[0]), a[1..], b);
    }
  }

  /** With one CPU at a time the clock is the largest vtime ever examined. */
  lemma {:induction false} SerialClockIsMax(s: State, visits: seq<(nat, nat)>)
    requires forall c :: PcOf(s, c).Outside?
    ensures Legal(s, SerialRun(visits))
    ensures Exec(s, SerialRun(visits)).clock == Max(s.clock, MaxOf(visits))
    decreases |visits|
  {
    if visits != [] {
      var first := Visit(visits[0].0, visits[0].1);
      VisitTakesMax(s, visits[0].0, visits[0].1);
      SerialClockIsMax(Exec(s, first), visits[1..]);
      ExecAppend(s, first, SerialRun(visits[1..]));
    }
  }

  /** Two CPUs at a time can leave the clock short of the largest examined vtime. */
  lemma ConcurrentClockCanTrail(low: nat, high: nat)
    requires 0 < low < high
    ensures var run := [Examine(0, low), Examine(1, high), Load(0), Load(1), Swap(0), Swap(1)];
      Legal(START, run) && Exec(START, run).clock == low && high in Exec(START, run).examined
  {
    var s1 := Apply(START, Examine(0, low));
    var s2 := Apply(s1, Examine(1, high));
    var s3 := Apply(s2, Load(0));
    var s4 := Apply(s3, Load(1));
    var s5 := Apply(s4, Swap(0));
    ExecCons(s5, Swap(1), []);
    ExecCons(s4, Swap(0), [Swap(1)] + []);
    ExecCons(s3, Load(1), [Swap(0)] + ([Swap(1)] + []));
    ExecCons(s2, Load(0), [Load(1)] + ([Swap(0)] + ([Swap(1)] + [])));
    ExecCons(s1, Examine(1, high), [Load(0)] + ([Load(1)] + ([Swap(0)] + ([Swap(1)] + []))));
    var rest := [Examine(1, high)] + ([Load(0)] + ([Load(1)] + ([Swap(0)] + ([Swap(1)] + []))));
    ExecCons(START, Examine(0, low), rest);
    assert [Examine(0, low)] + rest == [Examine(0, low), Examine(1, high), Load(0), Load(1), Swap(0), Swap(1)];
  }

  /** With the plain store of the userspace-assigned variant the clock can go back. */
  lemma PlainStoreCanGoBack(low: nat, high: nat)
    requires 0 < low < high
    ensures var run := [RunCheck(0, low), RunCheck(1, high), RunStore(1)];
      Legal(START, run) && Enabled(Exec(START, run), RunStore(0))
      && Exec(START, run).clock == high && Apply(Exec(START, run), RunStore(0)).clock == low
  {
    var s1 := Apply(START, RunCheck(0, low));
    var s2 := Apply(s1, RunCheck(1, high));
    ExecCons(s2, RunStore(1), []);
    ExecCons(s1, RunCheck(1, high), [RunStore(1)] + []);
    ExecCons(START, RunCheck(0, low), [RunCheck(1, high)] + ([RunStore(1)] + []));
    assert [RunCheck(0, low)] + ([RunCheck(1, high)] + ([RunStore(1)] + []))
        == [RunCheck(0, low), RunCheck(1, high), RunStore(1)];
  }

  // ---------- when the plain store sets the clock back ----------

  predicate Avoids(run: seq<Step>, cpu: nat) {
    forall i | 0 <= i < |run| :: run[i].cpu != cpu
  }

  /** Some store in `run` writes `v` or less. */
  predicate StoresUpTo(s: State, run: seq<Step>, v: nat)
    requires Legal(s, run)
    decreases |run|
  {
    run != [] &&
    ((run[0].RunStore? && PcOf(s, run[0].cpu).vtime <= v) || StoresUpTo(Apply(s, run[0]), run[1..], v))
  }

  /** Some step of `run` leaves the clock above `v`, and no store behind it writes `v` or less. */
  predicate Overtaken(s: State, run: seq<Step>, v: nat)
    requires Legal(s, run)
    decreases |run|
  {
    run != [] &&
    var s' := Apply(s, run[0]);
    (s'.clock > v && !StoresUpTo(s', run[1..], v)) || Overtaken(s', run[1..], v)
  }

  /** Only a store ever lowers the clock. */
  lemma StepsBelow(s: State, step: Step)
    requires Enabled(s, step)
    ensures Apply(s, step).clock < s.clock <==> step.RunStore? && PcOf(s, step.cpu).vtime < s.clock
  {
  }

  lemma {:induction false} AboveIff(s: State, run: seq<Step>, v: nat)
    requires Legal(s, run)
    ensures s.clock <= v ==> (Exec(s, run).clock > v <==> Overtaken(s, run, v))
    ensures s.clock > v ==> (Exec(s, run).clock > v <==> !StoresUpTo(s, run, v) || Overtaken(s, run, v))
    decreases |run|
  {
    if run != [] {
      StepsBelow(s, run[0]);
      AboveIff(Apply(s, run[0]), run[1..], v);
    }
  }

  lemma {:induction false} OthersKeepPc(s: State, run: seq<Step>, cpu: nat)
    requires Legal(s, run) && Avoids(run, cpu)
    ensures PcOf(Exec(s, run), cpu) == PcOf(s, cpu)
    decreases |run|
  {
    if run != [] {
      OthersKeepPc(Apply(s, run[0]), run[1..], cpu);
    }
  }

  /**
   The store of a running() callback sets the clock back if and only if, since its check, a step of another CPU left
   the clock above the vtime it is about to write, and no store behind that step has already written as little.
   */
  lemma StoreLowersIff(s: State, cpu: nat, v: nat, mid: seq<Step>)
    requires PcOf(s, cpu).Outside? && s.clock < v
    requires Legal(Apply(s, RunCheck(cpu, v)), mid) && Avoids(mid, cpu)
    ensures var s1 := Apply(s, RunCheck(cpu, v)); var s2 := Exec(s1, mid);
      Enabled(s2, RunStore(cpu)) && (Apply(s2, RunStore(cpu)).clock < s2.clock <==> Overtaken(s1, mid, v))
  {
    var s1 := Apply(s, RunCheck(cpu, v));
    OthersKeepPc(s1, mid, cpu);
    AboveIff(s1, mid, v);
  }

  /** Some step of `run` leaves the clock above `v`. */
  predicate Passes(s: State, run: seq<Step>, v: nat)
    requires Legal(s, run)
    decreases |run|
  {
    run != [] && (Apply(s, run[0]).clock > v || Passes(Apply(s, run[0]), run[1..], v))
  }

  lemma {:induction false} SwapsOvertakeIff(s: State, mid: seq<Step>, v: nat)
    requires Legal(s, mid) && SwapsOnly(mid)
    ensures Overtaken(s, mid, v) <==> Passes(s, mid, v)
    ensures !StoresUpTo(s, mid, v)
    decreases |mid|
  {
    if mid != [] {
      SwapsOvertakeIff(Apply(s, mid[0]), mid[1..], v);
    }
  }

  /** With only swaps in between: if and only if one of them left the clock above `v`. */
  lemma StoreLowersAmongSwapsIff(s: State, cpu: nat, v: nat, mid: seq<Step>)
    requires PcOf(s, cpu).Outside? && s.clock < v && SwapsOnly(mid)
    requires Legal(Apply(s, RunCheck(cpu, v)), mid) && Avoids(mid, cpu)
    ensures var s1 := Apply(s, RunCheck(cpu, v)); var s2 := Exec(s1, mid);
      Enabled(s2, RunStore(cpu)) && (Apply(s2, RunStore(cpu)).clock < s2.clock <==> Passes(s1, mid, v))
  {
    StoreLowersIff(s, cpu, v, mid);
    SwapsOvertakeIff(Apply(s, RunCheck(cpu, v)), mid, v);
  }

  // ---------- whole runs of either variant ----------

  /** No step of the run lowers the clock. */
  predicate NeverBack(s: State, run: seq<Step>)
    requires Legal(s, run)
    decreases |run|
  {
    run == [] || (Apply(s, run[0]).clock >= s.clock && NeverBack(Apply(s, run[0]), run[1..]))
  }

  lemma {:induction false} LegalSplit(s: State, run: seq<Step>, i: nat)
    requires Legal(s, run) && i <= |run|
    ensures Legal(s, run[..i]) && Legal(Exec(s, run[..i]), run[i..])
    ensures Exec(s, run) == Exec(Exec(s, run[..i]), run[i..])
    decreases |run|
  {
    if i == 0 {
      assert run[..0] == [] && run[0..] == run;
    } else {
      LegalSplit(Apply(s, run[0]), run[1..], i - 1);
      assert run[..i][0] == run[0] && run[..i][1..] == run[1..][..i - 1] && run[1..][i - 1..] == run[i..];
    }
  }

  /** The store at `k` answers the check at `i`, and between the two another CPU has overtaken it. */
  ghost predicate OvertakenAt(s: State, run: seq<Step>, i: nat, k: nat)
    requires Legal(s, run)
  {
    && i < k < |run| && run[i].RunCheck? && run[k] == RunStore(run[i].cpu) && Avoids(run[i + 1..k], run[i].cpu)
    && Legal(s, run[..i + 1]) && Legal(Exec(s, run[..i + 1]), run[i + 1..k])
    && Overtaken(Exec(s, run[..i + 1]), run[i + 1..k], run[i].vtime)
  }

  lemma AtStep(s: State, run: seq<Step>, k: nat)
    requires Legal(s, run) && k < |run|
    ensures Legal(s, run[..k]) && Enabled(Exec(s, run[..k]), run[k])
    ensures Legal(s, run[..k + 1]) && Exec(s, run[..k + 1]) == Apply(Exec(s, run[..k]), run[k])
  {
    LegalSplit(s, run, k + 1);
    LegalSplit(s, run[..k + 1], k);
    assert run[..k + 1][..k] == run[..k] && run[..k + 1][k..] == [run[k]];
    assert [run[k]][1..] == [];
  }

  /** Step k of the run lowers the clock. */
  ghost predicate Drops(s: State, run: seq<Step>, k: nat) {
    k < |run| && Legal(s, run[..k]) && Legal(s, run[..k + 1]) && Exec(s, run[..k + 1]).clock < Exec(s, run[..k]).clock
  }

  lemma DropsBehind(s: State, run: seq<Step>, k: nat)
    requires Legal(s, run) && 0 < k < |run|
    ensures Drops(s, run, k) <==> Drops(Apply(s, run[0]), run[1..], k - 1)
  {
    AtStep(s, run, k);
    AtStep(Apply(s, run[0]), run[1..], k - 1);
    assert run[..k + 1][1..] == run[1..][..k] && run[..k][1..] == run[1..][..k - 1];
  }

  lemma {:induction false} NoDrop(s: State, run: seq<Step>, k: nat)
    requires Legal(s, run) && NeverBack(s, run)
    ensures !Drops(s, run, k)
    decreases |run|
  {
    if k == 0 && run != [] {
      AtStep(s, run, 0);
      assert run[..0] == [];
    } else if k < |run| {
      DropsBehind(s, run, k);
      NoDrop(Apply(s, run[0]), run[1..], k - 1);
    }
  }

  lemma {:induction false} FindDrop(s: State, run: seq<Step>) returns (k: nat)
    requires Legal(s, run) && !NeverBack(s, run)
    ensures Drops(s, run, k)
    decreases |run|
  {
    if Apply(s, run[0]).clock < s.clock {
      AtStep(s, run, 0);
      assert run[..0] == [];
      k := 0;
    } else {
      var j := FindDrop(Apply(s, run[0]), run[1..]);
      k := j + 1;
      DropsBehind(s, run, k);
    }
  }

  /** The check that a pending store answers. */
  lemma {:induction false} FindCheck(s: State, run: seq<Step>, k: nat, cpu: nat) returns (i: nat)
    requires Legal(s, run) && k <= |run| && !PcOf(s, cpu).Passed?
    requires Legal(s, run[..k]) && PcOf(Exec(s, run[..k]), cpu).Passed?
    ensures i < k && run[i] == RunCheck(cpu, PcOf(Exec(s, run[..k]), cpu).vtime) && Avoids(run[i + 1..k], cpu)
    decreases k
  {
    AtStep(s, run, k - 1);
    if run[k - 1].cpu == cpu {
      i := k - 1;
    } else {
      i := FindCheck(s, run, k - 1, cpu);
      assert run[i + 1..k] == run[i + 1..k - 1] + [run[k - 1]];
    }
  }

  /** A check and its store inside a run, with the other CPUs' steps in between. */
  lemma Between(s: State, run: seq<Step>, i: nat, k: nat)
    requires Legal(s, run) && i < k < |run| && run[i].RunCheck? && run[k] == RunStore(run[i].cpu)
    requires Avoids(run[i + 1..k], run[i].cpu)
    ensures Drops(s, run, k) <==> OvertakenAt(s, run, i, k)
  {
    var cpu, v := run[i].cpu, run[i].vtime;
    AtStep(s, run, i);
    AtStep(s, run, k);
    LegalSplit(s, run[..k], i + 1);
    assert run[..k][..i + 1] == run[..i + 1] && run[..k][i + 1..] == run[i + 1..k];
    var s0, s1 := Exec(s, run[..i]), Exec(s, run[..i + 1]);
    OthersKeepPc(s1, run[i + 1..k], cpu);
    StoreLowersIff(s0, cpu, v, run[i + 1..k]);
  }

  lemma CheckOfDrop(s: State, run: seq<Step>, k: nat) returns (i: nat)
    requires Legal(s, run) && Drops(s, run, k) && forall c :: !PcOf(s, c).Passed?
    ensures OvertakenAt(s, run, i, k)
  {
    AtStep(s, run, k);
    StepsBelow(Exec(s, run[..k]), run[k]);
    i := FindCheck(s, run, k, run[k].cpu);
    Between(s, run, i, k);
  }

  /** Over every run of either variant the clock goes back if and only if some store is overtaken. */
  lemma ClockAdvancesIff(s: State, run: seq<Step>)
    requires Legal(s, run) && forall c :: !PcOf(s, c).Passed?
    ensures NeverBack(s, run) <==> !exists i, k :: OvertakenAt(s, run, i, k)
  {
    forall i, k | OvertakenAt(s, run, i, k) ensures !NeverBack(s, run) {
      Between(s, run, i, k);
      if NeverBack(s, run) {
        NoDrop(s, run, k);
      }
    }
    if !NeverBack(s, run) {
      var k := FindDrop(s, run);
      var i := CheckOfDrop(s, run, k);
      assert OvertakenAt(s, run, i, k);
    }
  }
}

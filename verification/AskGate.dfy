/**
 Gate and slice.  A task other than the daemon is on a dispatch queue only after userspace has decided, and then
 with exactly the slice decoded from the code computed for its pid; the code is carried unchanged all the way.
 */
module AskGate {
  import opened U64
  import opened Slices
  import opened AskProtocol
  import opened AskStrand
  import opened UserParser
  import opened ParserAgreement
  import opened ParserLaws
  import KernelParser

  ghost predicate EntriesOk(cfg: Config, es: seq<Entry>) {
    forall i | 0 <= i < |es| :: es[i].code == cfg.codes(es[i].pid)
  }

  /** The slice userspace decided for `p`. */
  function Decided(cfg: Config, p: Pid): u64 {
    Decode(cfg.codes(p))
  }

  /**
   A place with this slice is legitimate for the task: decided by userspace, or the one default slice of an overflow.
   */
  predicate SliceOk(cfg: Config, p: Pid, t: Task, slice: u64) {
    (t.hasSlice && slice == Decided(cfg, p)) || (t.overflowed && slice == SCX_SLICE_DFL)
  }

  ghost predicate GateOk(cfg: Config, k: Kernel, p: Pid)
    requires p in k.tasks
  {
    var t := k.tasks[p];
    && (t.hasSlice || t.phase.SawSlice? ==> t.slice == Decided(cfg, p) && t.hasSlice)
    && (t.slice == Decided(cfg, p) || t.slice == SCX_SLICE_DFL)
    && (t.place.Shared? || t.place.Local? ==> SliceOk(cfg, p, t, t.place.slice))
    && !t.place.Global?
  }

  ghost predicate CpuOk(cfg: Config, k: Kernel, c: Cpu)
    requires c in k.cpus
  {
    var pc := k.cpus[c];
    && (pc.Reply? ==> pc.entry.code == cfg.codes(pc.entry.pid))
    && (pc.SliceSet? && pc.pid in k.tasks ==> k.tasks[pc.pid].slice == Decided(cfg, pc.pid))
    && (pc.FlagSet? && pc.pid in k.tasks ==> k.tasks[pc.pid].hasSlice)
    && !pc.Inserted?
  }

  ghost predicate GateInv(cfg: Config, s: State) {
    && EntriesOk(cfg, s.d.list)
    && EntriesOk(cfg, s.k.dispatched)
    && (forall p | p in s.k.tasks && p != cfg.daemon :: GateOk(cfg, s.k, p))
    && (forall c | c in s.k.cpus :: CpuOk(cfg, s.k, c))
  }

  lemma StepKeepsEntries(cfg: Config, s: State, a: Action)
    requires GateInv(cfg, s) && Enabled(cfg, s, a)
    ensures EntriesOk(cfg, Apply(cfg, s, a).d.list) && EntriesOk(cfg, Apply(cfg, s, a).k.dispatched)
  {}

  lemma StepKeepsGateOk(cfg: Config, k: Kernel, a: Action, p: Pid)
    requires cfg.flagFirst && !IsDaemonStep(a) && EnabledK(cfg, k, a) && p != cfg.daemon
    requires p in k.tasks ==> GateOk(cfg, k, p)
    requires forall c | c in k.cpus :: CpuOk(cfg, k, c)
    ensures p in ApplyK(cfg, k, a).tasks ==> GateOk(cfg, ApplyK(cfg, k, a), p)
  {
    if p != Target(k, a) {
      OthersKept(cfg, k, a, p);
    }
  }

  /** The CPU a step is taken on, if any. */
  predicate OnCpu(a: Action, c: Cpu) {
    match a
    case TestAndClear(cpu) => cpu == c
    case Submit(cpu) => cpu == c
    case PopReply(cpu) => cpu == c
    case WriteSlice(cpu) => cpu == c
    case WriteFlag(cpu) => cpu == c
    case Insert(cpu) => cpu == c
    case DrainDone(cpu) => cpu == c
    case _ => false
  }

  /** What a step does to a task that some other CPU is answering. */
  lemma AnsweredTaskKept(cfg: Config, k: Kernel, a: Action, p: Pid)
    requires cfg.flagFirst && !IsDaemonStep(a) && EnabledK(cfg, k, a) && !(a.Enable? && a.p == p)
    requires a.WriteSlice? && PcOf(k, a.cpu).entry.pid == p ==> PcOf(k, a.cpu).entry.code == cfg.codes(p)
    ensures var k' := ApplyK(cfg, k, a);
      p in k'.tasks ==>
        && p in k.tasks
        && (k.tasks[p].slice == Decided(cfg, p) ==> k'.tasks[p].slice == Decided(cfg, p))
        && (k.tasks[p].hasSlice ==> k'.tasks[p].hasSlice)
  {}

  lemma OtherCpuKept(cfg: Config, k: Kernel, a: Action, c: Cpu)
    requires cfg.flagFirst && !IsDaemonStep(a) && EnabledK(cfg, k, a) && !OnCpu(a, c)
    requires c in ApplyK(cfg, k, a).cpus && forall c' | c' in k.cpus :: CpuOk(cfg, k, c')
    ensures c in k.cpus && CpuOk(cfg, ApplyK(cfg, k, a), c)
  {
    assert c in k.cpus && ApplyK(cfg, k, a).cpus[c] == k.cpus[c] && CpuOk(cfg, k, c);
    var pc := k.cpus[c];
    if pc.SliceSet? || pc.FlagSet? {
      assert Answers(pc, pc.pid);
      AnsweredTaskKept(cfg, k, a, pc.pid);
    }
  }

  lemma StepKeepsCpuOk(cfg: Config, s: State, a: Action, c: Cpu)
    requires cfg.flagFirst && GateInv(cfg, s) && !IsDaemonStep(a) && EnabledK(cfg, s.k, a)
    requires c in ApplyK(cfg, s.k, a).cpus
    ensures CpuOk(cfg, ApplyK(cfg, s.k, a), c)
  {
    assert c in s.k.cpus ==> CpuOk(cfg, s.k, c);
    if OnCpu(a, c) {
      if a.PopReply? {
        assert s.k.dispatched[0].code == cfg.codes(s.k.dispatched[0].pid);
      }
    } else {
      OtherCpuKept(cfg, s.k, a, c);
    }
  }

  lemma {:induction false} RunKeepsGateInv(cfg: Config, s: State, run: seq<Action>)
    requires cfg.flagFirst && GateInv(cfg, s) && Legal(cfg, s, run)
    ensures GateInv(cfg, Exec(cfg, s, run))
    decreases |run|
  {
    if run != [] {
      var a := run[0];
      var s' := Apply(cfg, s, a);
      StepKeepsEntries(cfg, s, a);
      if !IsDaemonStep(a) {
        forall p | p in s'.k.tasks && p != cfg.daemon ensures GateOk(cfg, s'.k, p) {
          StepKeepsGateOk(cfg, s.k, a, p);
        }
        forall c | c in s'.k.cpus ensures CpuOk(cfg, s'.k, c) {
          StepKeepsCpuOk(cfg, s, a, c);
        }
      }
      RunKeepsGateInv(cfg, s', run[1..]);
    }
  }

  /**
   Gate and slice, over every run: what is on a dispatch queue was decided by userspace, with exactly its slice, unless
   it overflowed.
   */
  lemma GateAndSlice(cfg: Config, run: seq<Action>, p: Pid)
    requires cfg.flagFirst && Legal(cfg, START, run) && p != cfg.daemon
    requires var k := Exec(cfg, START, run).k;
      p in k.tasks && !k.tasks[p].overflowed && !k.tasks[p].place.Off? && !k.tasks[p].place.Held?
    ensures var t := Exec(cfg, START, run).k.tasks[p];
      t.hasSlice && t.slice == Decode(cfg.codes(p)) && (t.place == Shared(t.slice) || t.place == Local(t.slice))
  {
    RunKeepsGateInv(cfg, START, run);
    assert GateOk(cfg, Exec(cfg, START, run).k, p);
  }

  /**
   End to end: a task whose command line is a path, NUL, the printed n and NUL runs with the infinite slice if n is
   between 24 and 35 and with the default slice otherwise; on a digit-free path that is also what the
   kernel-assigned variant gives it.
   */
  lemma SliceFromCommandLine(cfg: Config, files: Pid -> File, run: seq<Action>, p: Pid, path: seq<Decimal.byte>, n: nat)
    requires cfg.flagFirst && Legal(cfg, START, run) && p != cfg.daemon
    requires cfg.codes(p) == CodeFor(files(p)) && files(p) == Readable(Command(path, n))
    requires |Command(path, n)| < CMDLINE_BUF && n <= INT_MAX
    requires var k := Exec(cfg, START, run).k;
      p in k.tasks && !k.tasks[p].overflowed && !k.tasks[p].place.Off? && !k.tasks[p].place.Held?
    ensures var t := Exec(cfg, START, run).k.tasks[p];
      && t.slice == (if Short(n) then SCX_SLICE_INF else SCX_SLICE_DFL)
      && (Decimal.DigitFree(path) ==> t.slice == KernelParser.AssignedSlice(Command(path, n)))
  {
    GateAndSlice(cfg, run, p);
    DaemonReadsArgument(path, n);
    TablesAgree(n);
    if Decimal.DigitFree(path) {
      VariantsAgree(path, n);
    }
  }

  /**
   Every command line: on a dispatch queue a task has the infinite slice if and only if its file can be read, is not
   empty, and its last argument in sight converts to 24 up to 35; otherwise, and so when it has gone, the default.
   */
  lemma SliceOfEveryFile(cfg: Config, files: Pid -> File, run: seq<Action>, p: Pid)
    requires cfg.flagFirst && Legal(cfg, START, run) && p != cfg.daemon && cfg.codes(p) == CodeFor(files(p))
    requires var k := Exec(cfg, START, run).k;
      p in k.tasks && !k.tasks[p].overflowed && !k.tasks[p].place.Off? && !k.tasks[p].place.Held?
    ensures var place := Exec(cfg, START, run).k.tasks[p].place;
      && (place.Shared? || place.Local?)
      && place.slice ==
         if files(p).Readable? && files(p).bytes != [] && exists i: nat :: EndsShort(files(p).bytes, i)
         then SCX_SLICE_INF else SCX_SLICE_DFL
  {
    GateAndSlice(cfg, run, p);
    CodeIff(files(p));
  }
}

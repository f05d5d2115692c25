/**
 The ask-userspace protocol as one transition system.  A task enabled in the kernel is withheld from every
 dispatch queue until the daemon has decided its slice.  Its request travels through the bounded queue
 `enqueued`, the daemon's list and the bounded queue `dispatched`; a flag and a ring buffer wake the daemon.
 Callbacks of one task never overlap (its run-queue lock), so each task has one program counter; each CPU has
 one for its dispatch callback, and the daemon has one.  Queue operations, flag operations, field writes and
 the ring submit are single steps; everything else may interleave.
 */
module AskProtocol {
  import opened U64
  import opened Slices

  type Pid = nat
  type Cpu = nat

  /** A pid with the slice code computed for it. */
  datatype Entry = Entry(pid: Pid, code: u64)

  /** Where the callback of a task stands. */
  datatype Phase =
    | Quiet
    | CtxMade   // enable: context created, request not pushed
    | PushDone  // enable: request pushed, flag not set
    | Queueing  // enqueue: not yet looked at has_slice
    | SawSlice  // enqueue: has_slice was set
    | SawNone   // enqueue: has_slice was not set

  datatype Place = Off | Held | Shared(slice: u64) | Local(slice: u64) | Global(slice: u64)

  datatype Task = Task(slice: u64, hasSlice: bool, overflowed: bool, phase: Phase, place: Place)

  /** Where a CPU's dispatch callback stands; `left` counts the remaining rounds of the drain loop. */
  datatype CpuPc =
    | Idle
    | Woken                            // flag cleared, ring message not submitted
    | Draining(left: nat)
    | Reply(entry: Entry, left: nat)   // popped
    | SliceSet(pid: Pid, left: nat)    // slice written
    | FlagSet(pid: Pid, left: nat)     // has_slice written, insert to come
    | Inserted(pid: Pid, left: nat)    // only when the insert comes first

  datatype Kernel = Kernel(
    tasks: map<Pid, Task>, cpus: map<Cpu, CpuPc>,
    enqueued: seq<Pid>, dispatched: seq<Entry>,
    needed: bool, ring: nat, nrQueued: int, nrScheduled: int)

  datatype DaemonPc =
    | Drain           // about to pop `enqueued`
    | Hand(pid: Pid)  // popped, not yet listed
    | Batch(i: nat)   // dispatch_batch, round i
    | Check           // after the batch
    | Wait            // blocked on the ring buffer

  datatype Daemon = Daemon(pc: DaemonPc, list: seq<Entry>, nrCurr: int, nrIn: int, nrOut: int, nrFailed: int)

  /** History: every pid ever pushed, every pid whose reply the kernel took. */
  datatype State = State(k: Kernel, d: Daemon, pushed: seq<Pid>, consumed: seq<Pid>)

  /**
   `codes` is what userspace computes from a pid's command line; `flagFirst` is the order of the last two writes of a
   reply.
   */
  datatype Config = Config(capacity: nat, batch: nat, daemon: Pid, codes: Pid -> u64, flagFirst: bool)

  datatype Action =
    | Enable(p: Pid) | Push(p: Pid, took: bool) | SetFlag(p: Pid) | Disable(p: Pid)
    | SelectDirect(p: Pid) | EnqBegin(p: Pid) | EnqRead(p: Pid) | EnqEnd(p: Pid) | Leave(p: Pid)
    | Move(cpu: Cpu, p: Pid)
    | TestAndClear(cpu: Cpu) | Submit(cpu: Cpu)
    | PopReply(cpu: Cpu) | WriteSlice(cpu: Cpu) | WriteFlag(cpu: Cpu) | Insert(cpu: Cpu) | DrainDone(cpu: Cpu)
    | UpdateIdle
    | DaemonPop | DaemonList | DaemonPush | DaemonEndBatch | DaemonCheck | DaemonWake

  const START := State(Kernel(map[], map[], [], [], false, 0, 0, 0), Daemon(Drain, [], 0, 0, 0, 0), [], [])

  predicate IsDaemonStep(a: Action) {
    a.DaemonPop? || a.DaemonList? || a.DaemonPush? || a.DaemonEndBatch? || a.DaemonCheck? || a.DaemonWake?
  }

  function PcOf(k: Kernel, c: Cpu): CpuPc {
    if c in k.cpus then k.cpus[c] else Idle
  }

  /** This CPU holds the task struct of `p` in the middle of a reply. */
  predicate Answers(pc: CpuPc, p: Pid) {
    match pc
    case Reply(e, _) => e.pid == p
    case SliceSet(q, _) => q == p
    case FlagSet(q, _) => q == p
    case Inserted(q, _) => q == p
    case _ => false
  }

  predicate InPhase(k: Kernel, p: Pid, phase: Phase) {
    p in k.tasks && k.tasks[p].phase == phase
  }

  predicate Lists(es: seq<Entry>, p: Pid) {
    exists i | 0 <= i < |es| :: es[i].pid == p
  }

  // ----- kernel steps

  predicate EnabledK(cfg: Config, k: Kernel, a: Action)
    requires !IsDaemonStep(a)
  {
    match a
    case Enable(p) => p !in k.tasks && forall c | c in k.cpus :: !Answers(k.cpus[c], p)
    case Push(p, _) => InPhase(k, p, CtxMade)
    case SetFlag(p) => InPhase(k, p, PushDone)
    case Disable(p) => InPhase(k, p, Quiet) && k.tasks[p].place == Off
    case SelectDirect(p) => InPhase(k, p, Quiet) && k.tasks[p].place == Off && k.tasks[p].hasSlice
    case EnqBegin(p) => InPhase(k, p, Quiet) && k.tasks[p].place == Off
    case EnqRead(p) => InPhase(k, p, Queueing)
    case EnqEnd(p) => InPhase(k, p, SawSlice) || InPhase(k, p, SawNone)
    case Leave(p) => InPhase(k, p, Quiet) && k.tasks[p].place != Off
    case Move(cpu, p) => cpu != 0 && PcOf(k, cpu).Idle? && InPhase(k, p, Quiet) && k.tasks[p].place.Shared?
    case TestAndClear(cpu) => PcOf(k, cpu).Idle?
    case Submit(cpu) => PcOf(k, cpu).Woken?
    case PopReply(cpu) => PcOf(k, cpu).Draining? && PcOf(k, cpu).left > 0 && k.dispatched != []
    case WriteSlice(cpu) => PcOf(k, cpu).Reply?
    case WriteFlag(cpu) => if cfg.flagFirst then PcOf(k, cpu).SliceSet? else PcOf(k, cpu).Inserted?
    case Insert(cpu) => if cfg.flagFirst then PcOf(k, cpu).FlagSet? else PcOf(k, cpu).SliceSet?
    case DrainDone(cpu) => PcOf(k, cpu).Draining? && (PcOf(k, cpu).left == 0 || k.dispatched == [])
    case UpdateIdle => true
  }

  function SetTask(k: Kernel, p: Pid, t: Task): Kernel {
    k.(tasks := k.tasks[p := t])
  }

  function SetCpu(k: Kernel, c: Cpu, pc: CpuPc): Kernel {
    k.(cpus := k.cpus[c := pc])
  }

  /** enable up to the context: the daemon itself never asks. */
  function NewTask(cfg: Config, p: Pid): Task {
    Task(SCX_SLICE_DFL, false, false, if p == cfg.daemon then Quiet else CtxMade, Off)
  }

  /** enqueue_task_in_userspace: when the queue is full the task gets one default slice instead of a request. */
  function DoPush(cfg: Config, k: Kernel, p: Pid, took: bool): Kernel
    requires p in k.tasks
  {
    var t := k.tasks[p];
    if |k.enqueued| < cfg.capacity then
      SetTask(k, p, t.(phase := PushDone)).(enqueued := k.enqueued + [p])
    else
      SetTask(k, p, t.(phase := Quiet, overflowed := true, place := if took then Shared(SCX_SLICE_DFL) else t.place))
  }

  /** The end of enqueue: insert or hold, unless a reply has put the task on the queue in between. */
  function Settled(t: Task): Task {
    var place := if !t.place.Off? then t.place else if t.phase == SawSlice then Shared(t.slice) else Held;
    t.(phase := Quiet, place := place)
  }

  /** An insert takes effect on a task that is held or in the middle of its enqueue, and on no other. */
  function Released(t: Task): Task {
    if t.place.Held? || (t.place.Off? && (t.phase.Queueing? || t.phase.SawSlice? || t.phase.SawNone?))
    then t.(place := Shared(t.slice)) else t
  }

  /** Write the slice of a popped reply; without a live context nothing is written and the insert has no effect. */
  function DoWriteSlice(k: Kernel, cpu: Cpu): Kernel
    requires PcOf(k, cpu).Reply?
  {
    var pc := PcOf(k, cpu);
    var p := pc.entry.pid;
    if p in k.tasks then
      SetCpu(SetTask(k, p, k.tasks[p].(slice := Decode(pc.entry.code))), cpu, SliceSet(p, pc.left))
    else SetCpu(k, cpu, Draining(pc.left))
  }

  function DoWriteFlag(cfg: Config, k: Kernel, cpu: Cpu): Kernel
    requires EnabledK(cfg, k, WriteFlag(cpu))
  {
    var pc := PcOf(k, cpu);
    var k1 := if pc.pid in k.tasks then SetTask(k, pc.pid, k.tasks[pc.pid].(hasSlice := true)) else k;
    SetCpu(k1, cpu, if cfg.flagFirst then FlagSet(pc.pid, pc.left) else Draining(pc.left))
  }

  function DoInsert(cfg: Config, k: Kernel, cpu: Cpu): Kernel
    requires EnabledK(cfg, k, Insert(cpu))
  {
    var pc := PcOf(k, cpu);
    var k1 := if pc.pid in k.tasks then SetTask(k, pc.pid, Released(k.tasks[pc.pid])) else k;
    SetCpu(k1, cpu, if cfg.flagFirst then Draining(pc.left) else Inserted(pc.pid, pc.left))
  }

  function ApplyK(cfg: Config, k: Kernel, a: Action): Kernel
    requires !IsDaemonStep(a) && EnabledK(cfg, k, a)
  {
    match a
    case Enable(p) => SetTask(k, p, NewTask(cfg, p))
    case Push(p, took) => DoPush(cfg, k, p, took)
    case SetFlag(p) => SetTask(k, p, k.tasks[p].(phase := Quiet)).(needed := true)
    case Disable(p) => k.(tasks := k.tasks - {p})
    case SelectDirect(p) => SetTask(k, p, k.tasks[p].(place := Local(k.tasks[p].slice)))
    case EnqBegin(p) =>
      var t := k.tasks[p];
      SetTask(k, p, if p == cfg.daemon then t.(place := Global(SCX_SLICE_INF)) else t.(phase := Queueing))
    case EnqRead(p) => SetTask(k, p, k.tasks[p].(phase := if k.tasks[p].hasSlice then SawSlice else SawNone))
    case EnqEnd(p) => SetTask(k, p, Settled(k.tasks[p]))
    case Leave(p) => SetTask(k, p, k.tasks[p].(place := Off))
    case Move(_, p) => SetTask(k, p, k.tasks[p].(place := Local(k.tasks[p].place.slice)))
    case TestAndClear(cpu) => SetCpu(k, cpu, if k.needed then Woken else Draining(cfg.capacity)).(needed := false)
    case Submit(cpu) => SetCpu(k, cpu, Draining(cfg.capacity)).(ring := k.ring + 1)
    case PopReply(cpu) =>
      SetCpu(k, cpu, Reply(k.dispatched[0], PcOf(k, cpu).left - 1)).(dispatched := k.dispatched[1..])
    case WriteSlice(cpu) => DoWriteSlice(k, cpu)
    case WriteFlag(cpu) => DoWriteFlag(cfg, k, cpu)
    case Insert(cpu) => DoInsert(cfg, k, cpu)
    case DrainDone(cpu) => SetCpu(k, cpu, Idle)
    case UpdateIdle => k.(needed := k.needed || k.nrQueued != 0 || k.nrScheduled != 0)
  }

  // ----- daemon steps

  predicate EnabledD(cfg: Config, s: State, a: Action)
    requires IsDaemonStep(a)
  {
    match a
    case DaemonPop => s.d.pc == Drain
    case DaemonList => s.d.pc.Hand?
    case DaemonPush => s.d.pc.Batch? && s.d.pc.i < cfg.batch && s.d.list != []
    case DaemonEndBatch => s.d.pc.Batch? && (s.d.pc.i >= cfg.batch || s.d.list == [])
    case DaemonCheck => s.d.pc == Check
    case DaemonWake => s.d.pc == Wait && s.k.ring > 0
  }

  function DoPop(s: State): State {
    if s.k.enqueued == [] then
      s.(k := s.k.(nrQueued := 0, nrScheduled := s.d.nrCurr), d := s.d.(pc := Batch(0)))
    else
      s.(k := s.k.(enqueued := s.k.enqueued[1..]), d := s.d.(pc := Hand(s.k.enqueued[0])))
  }

  /** local_enqueue_task: a pid that is still listed is dropped. */
  function DoList(cfg: Config, d: Daemon): Daemon
    requires d.pc.Hand?
  {
    if Lists(d.list, d.pc.pid) then d.(pc := Drain)
    else
      d.(pc := Drain, list := d.list + [Entry(d.pc.pid, cfg.codes(d.pc.pid))],
         nrCurr := d.nrCurr + 1, nrIn := d.nrIn + 1)
  }

  /** One round of dispatch_batch: a full queue ends the batch and keeps the head. */
  function DoDaemonPush(cfg: Config, s: State): State
    requires s.d.pc.Batch? && s.d.list != []
  {
    if |s.k.dispatched| < cfg.capacity then
      s.(k := s.k.(dispatched := s.k.dispatched + [s.d.list[0]]),
         d := s.d.(pc := Batch(s.d.pc.i + 1), list := s.d.list[1..], nrCurr := s.d.nrCurr - 1, nrOut := s.d.nrOut + 1))
    else s.(d := s.d.(pc := Batch(cfg.batch), nrFailed := s.d.nrFailed + 1))
  }

  function ApplyD(cfg: Config, s: State, a: Action): State
    requires IsDaemonStep(a) && EnabledD(cfg, s, a)
  {
    match a
    case DaemonPop => DoPop(s)
    case DaemonList => s.(d := DoList(cfg, s.d))
    case DaemonPush => DoDaemonPush(cfg, s)
    case DaemonEndBatch => s.(k := s.k.(nrScheduled := s.d.nrCurr), d := s.d.(pc := Check))
    case DaemonCheck =>
      if s.d.list == [] then s.(d := s.d.(pc := Wait, nrCurr := 0)) else s.(d := s.d.(pc := Drain))
    case DaemonWake => s.(k := s.k.(ring := 0), d := s.d.(pc := Drain))
  }

  // ----- runs

  predicate Enabled(cfg: Config, s: State, a: Action) {
    if IsDaemonStep(a) then EnabledD(cfg, s, a) else EnabledK(cfg, s.k, a)
  }

  function Apply(cfg: Config, s: State, a: Action): State
    requires Enabled(cfg, s, a)
  {
    if IsDaemonStep(a) then ApplyD(cfg, s, a)
    else State(ApplyK(cfg, s.k, a), s.d,
               if a.Push? && |s.k.enqueued| < cfg.capacity then s.pushed + [a.p] else s.pushed,
               if a.PopReply? then s.consumed + [s.k.dispatched[0].pid] else s.consumed)
  }

  predicate Legal(cfg: Config, s: State, run: seq<Action>)
    decreases |run|
  {
    run == [] || (Enabled(cfg, s, run[0]) && Legal(cfg, Apply(cfg, s, run[0]), run[1..]))
  }

  function Exec(cfg: Config, s: State, run: seq<Action>): State
    requires Legal(cfg, s, run)
    decreases |run|
  {
    if run == [] then s else Exec(cfg, Apply(cfg, s, run[0]), run[1..])
  }

  lemma ExecCons(cfg: Config, s: State, a: Action, rest: seq<Action>)
    requires Enabled(cfg, s, a) && Legal(cfg, Apply(cfg, s, a), rest)
    ensures Legal(cfg, s, [a] + rest) && Exec(cfg, s, [a] + rest) == Exec(cfg, Apply(cfg, s, a), rest)
  {
    assert ([a] + rest)[1..] == rest;
  }

  lemma ThreeSteps(cfg: Config, s: State, a: Action, b: Action, c: Action) returns (run: seq<Action>)
    requires Enabled(cfg, s, a) && Enabled(cfg, Apply(cfg, s, a), b)
    requires Enabled(cfg, Apply(cfg, Apply(cfg, s, a), b), c)
    ensures run == [a, b, c]
    ensures Legal(cfg, s, run) && Exec(cfg, s, run) == Apply(cfg, Apply(cfg, Apply(cfg, s, a), b), c)
  {
    var s1 := Apply(cfg, s, a);
    ExecCons(cfg, Apply(cfg, s1, b), c, []);
    ExecCons(cfg, s1, b, [c] + []);
    ExecCons(cfg, s, a, [b] + ([c] + []));
    run := [a] + ([b] + ([c] + []));
  }

  lemma {:induction false} ExecAppend(cfg: Config, s: State, run: seq<Action>, more: seq<Action>)
    requires Legal(cfg, s, run) && Legal(cfg, Exec(cfg, s, run), more)
    ensures Legal(cfg, s, run + more) && Exec(cfg, s, run + more) == Exec(cfg, Exec(cfg, s, run), more)
    decreases |run|
  {
    if run == [] {
      assert run + more == more;
    } else {
      assert (run + more)[0] == run[0] && (run + more)[1..] == run[1..] + more;
      ExecAppend(cfg, Apply(cfg, s, run[0]), run[1..], more);
    }
  }
}

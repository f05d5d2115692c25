/**
 The load generator's dispatcher, launchers and reaper as a transition system: any number of launcher threads, one
 reaper, one lock.  A child process exists from its spawn until somebody has waited for it; it may exit at any
 time, also before its launcher has recorded it.  A launch may fail, before or after it has forked a child, and the
 reaper may fail on a result.
 */
module LoadGen {
  import opened Decimal

  type Index = nat
  type Pid = nat

  datatype Item = Job(index: Index) | Sentinel

  /** A work item: its argument and the time it was requested for. */
  datatype Work = Work(arg: Bytes, request: real)

  /** What a launcher records for a child. */
  datatype Record = Record(work: Work, index: Index)

  datatype Result = Empty | Filled(work: Work, pid: Pid, stdout: Bytes, returned: real)

  datatype MainPc = Dispatching(next: nat) | Joining | Ending(sentinels: nat) | Over

  datatype LauncherPc =
    | Getting
    | Got(index: Index)
    | Locked(index: Index)
    | Spawned(index: Index, pid: Pid)
    | Forked(index: Index, pid: Pid)  // the child could not execute the command; Popen waits for it, then raises
    | Finishing                       // task_done to come
    | Returned

  datatype ReaperPc =
    | Waiting
    | Reaped(pid: Pid)                // os.wait returned
    | Looking(pid: Pid)               // holds the lock
    | Popped(pid: Pid, rec: Record)
    | Unknown(pid: Pid)
    | Finished                        // left the loop by its condition
    | Broken(rec: Record)             // left the loop by an exception

  datatype Lock = Free | ByLauncher(l: nat) | ByReaper

  /** History: where the work item with this index is. */
  datatype Location = Undispatched | Queued | AtLauncher(l: nat) | Active(pid: Pid) | AtReaper | Done | Lost

  datatype State = State(
    main: MainPc, queue: seq<Item>, unfinished: int,
    launchers: map<nat, LauncherPc>, lock: Lock,
    children: set<Pid>, zombies: set<Pid>, active: map<Pid, Record>,
    reaper: ReaperPc, reaped: nat, results: seq<Result>, at: seq<Location>)

  datatype Action =
    | Dispatch | AllDispatched | JoinReturns | PutSentinel
    | Get(l: nat) | Timeout(l: nat) | Acquire(l: nat) | TaskDone(l: nat)
    | Spawn(l: nat, pid: Pid) | Insert(l: nat) | SpawnFails(l: nat) | Fork(l: nat, pid: Pid) | ForkFails(l: nat)
    | Exit(pid: Pid)
    | Wait(pid: Pid) | ReaperAcquire | Pop | Fill(stdout: Bytes, returned: real) | ReaperFails | Warn | ReaperEnds

  function Start(workload: seq<Work>, launchers: set<nat>): State {
    State(Dispatching(0), [], 0, map l | l in launchers :: Getting, Free, {}, {}, map[], Waiting, 0,
          seq(|workload|, _ => Empty), seq(|workload|, _ => Undispatched))
  }

  predicate At(s: State, l: nat, pc: LauncherPc) {
    l in s.launchers && s.launchers[l] == pc
  }

  /** The pid the reaper has waited for and not yet looked up. */
  predicate ReaperHolds(s: State, pid: Pid) {
    (s.reaper.Reaped? || s.reaper.Looking?) && s.reaper.pid == pid
  }

  /** The kernel gives a new child a pid that no child, and nothing that is still to be looked up, has. */
  predicate Unused(s: State, pid: Pid) {
    pid !in s.children && pid !in s.zombies && pid !in s.active && !ReaperHolds(s, pid)
  }

  /**
   When a step can be taken; the bounds on indices hold in every reachable state and only make the steps well formed.
   */
  predicate Enabled(workload: seq<Work>, s: State, a: Action) {
    match a
    case Dispatch => s.main.Dispatching? && s.main.next < |workload| && |s.at| == |workload|
    case AllDispatched => s.main == Dispatching(|workload|)
    case JoinReturns => s.main.Joining? && s.unfinished == 0
    case PutSentinel => s.main.Ending?
    case Get(l) => At(s, l, Getting) && s.queue != [] && (s.queue[0].Job? ==> s.queue[0].index < |s.at|)
    case Timeout(l) => At(s, l, Getting) && s.queue == []
    case Acquire(l) => l in s.launchers && s.launchers[l].Got? && s.lock.Free?
    case Spawn(l, pid) => l in s.launchers && s.launchers[l].Locked? && Unused(s, pid)
    case Fork(l, pid) => l in s.launchers && s.launchers[l].Locked? && Unused(s, pid)
    case ForkFails(l) =>
      && l in s.launchers && s.launchers[l].Forked? && s.launchers[l].index < |s.at|
      && s.launchers[l].pid !in s.children
    case SpawnFails(l) => l in s.launchers && s.launchers[l].Locked? && s.launchers[l].index < |s.at|
    case Insert(l) => l in s.launchers && s.launchers[l].Spawned? && s.launchers[l].index < |s.at| == |workload|
    case TaskDone(l) => At(s, l, Finishing)
    case Exit(pid) => pid in s.children
    case Wait(pid) => s.reaper.Waiting? && s.reaped < |workload| && pid in s.zombies
    case ReaperAcquire => s.reaper.Reaped? && s.lock.Free?
    case Pop => s.reaper.Looking? && (s.reaper.pid in s.active ==> s.active[s.reaper.pid].index < |s.at|)
    case Fill(_, _) => s.reaper.Popped? && s.reaper.rec.index < |s.results| == |s.at|
    case ReaperFails => s.reaper.Popped?
    case Warn => s.reaper.Unknown?
    case ReaperEnds => s.reaper.Waiting? && s.reaped >= |workload|
  }

  function SetLauncher(s: State, l: nat, pc: LauncherPc): State {
    s.(launchers := s.launchers[l := pc])
  }

  function Apply(workload: seq<Work>, s: State, a: Action): State
    requires Enabled(workload, s, a)
  {
    match a
    case Dispatch =>
      var i := s.main.next;
      s.(main := Dispatching(i + 1), queue := s.queue + [Job(i)], unfinished := s.unfinished + 1,
         at := s.at[i := Queued])
    case AllDispatched => s.(main := Joining)
    case JoinReturns => s.(main := Ending(|s.launchers|))
    case PutSentinel =>
      if s.main.sentinels == 0 then s.(main := Over)
      else s.(main := Ending(s.main.sentinels - 1), queue := s.queue + [Sentinel], unfinished := s.unfinished + 1)
    case Get(l) =>
      if s.queue[0].Sentinel? then
        SetLauncher(s, l, Returned).(queue := s.queue[1..], unfinished := s.unfinished - 1)
      else
        SetLauncher(s, l, Got(s.queue[0].index)).(queue := s.queue[1..], at := s.at[s.queue[0].index := AtLauncher(l)])
    case Timeout(l) => SetLauncher(s, l, Returned)
    case Acquire(l) => SetLauncher(s, l, Locked(s.launchers[l].index)).(lock := ByLauncher(l))
    case Spawn(l, pid) => SetLauncher(s, l, Spawned(s.launchers[l].index, pid)).(children := s.children + {pid})
    case Fork(l, pid) => SetLauncher(s, l, Forked(s.launchers[l].index, pid)).(children := s.children + {pid})
    case ForkFails(l) =>
      var pc := s.launchers[l];
      SetLauncher(s, l, Finishing).(lock := Free, zombies := s.zombies - {pc.pid}, at := s.at[pc.index := Lost])
    case SpawnFails(l) => SetLauncher(s, l, Finishing).(lock := Free, at := s.at[s.launchers[l].index := Lost])
    case Insert(l) =>
      var pc := s.launchers[l];
      SetLauncher(s, l, Finishing).(lock := Free, active := s.active[pc.pid := Record(workload[pc.index], pc.index)],
                                    at := s.at[pc.index := Active(pc.pid)])
    case TaskDone(l) => SetLauncher(s, l, Getting).(unfinished := s.unfinished - 1)
    case Exit(pid) => s.(children := s.children - {pid}, zombies := s.zombies + {pid})
    case Wait(pid) => s.(reaper := Reaped(pid), zombies := s.zombies - {pid})
    case ReaperAcquire => s.(reaper := Looking(s.reaper.pid), lock := ByReaper)
    case Pop =>
      var pid := s.reaper.pid;
      if pid in s.active then
        s.(reaper := Popped(pid, s.active[pid]), lock := Free, active := s.active - {pid},
           at := s.at[s.active[pid].index := AtReaper])
      else s.(reaper := Unknown(pid), lock := Free)
    case Fill(stdout, returned) =>
      var rec := s.reaper.rec;
      s.(reaper := Waiting, reaped := s.reaped + 1,
         results := s.results[rec.index := Filled(rec.work, s.reaper.pid, stdout, returned)],
         at := s.at[rec.index := Done])
    case ReaperFails => s.(reaper := Broken(s.reaper.rec))
    case Warn => s.(reaper := Waiting)
    case ReaperEnds => s.(reaper := Finished)
  }

  predicate Legal(workload: seq<Work>, s: State, run: seq<Action>)
    decreases |run|
  {
    run == [] || (Enabled(workload, s, run[0]) && Legal(workload, Apply(workload, s, run[0]), run[1..]))
  }

  function Exec(workload: seq<Work>, s: State, run: seq<Action>): State
    requires Legal(workload, s, run)
    decreases |run|
  {
    if run == [] then s else Exec(workload, Apply(workload, s, run[0]), run[1..])
  }

  lemma ExecCons(workload: seq<Work>, s: State, a: Action, rest: seq<Action>)
    requires Enabled(workload, s, a) && Legal(workload, Apply(workload, s, a), rest)
    ensures Legal(workload, s, [a] + rest)
    ensures Exec(workload, s, [a] + rest) == Exec(workload, Apply(workload, s, a), rest)
  {
    assert ([a] + rest)[1..] == rest;
  }

  lemma {:induction false} ExecAppend(workload: seq<Work>, s: State, a: seq<Action>, b: seq<Action>)
    requires Legal(workload, s, a) && Legal(workload, Exec(workload, s, a), b)
    ensures Legal(workload, s, a + b) && Exec(workload, s, a + b) == Exec(workload, Exec(workload, s, a), b)
    decreases |a|
  {
    if a == [] {
      assert a + b == b;
    } else {
      assert (a + b)[0] == a[0] && (a + b)[1..] == a[1..] + b;
      ExecAppend(workload, Apply(workload, s, a[0]), a[1..], b);
    }
  }

  lemma TwoSteps(workload: seq<Work>, s: State, a: Action, b: Action) returns (run: seq<Action>)
    requires Enabled(workload, s, a) && Enabled(workload, Apply(workload, s, a), b)
    ensures Legal(workload, s, run) && Exec(workload, s, run) == Apply(workload, Apply(workload, s, a), b)
  {
    ExecCons(workload, Apply(workload, s, a), b, []);
    ExecCons(workload, s, a, [b] + []);
    run := [a] + ([b] + []);
  }
}

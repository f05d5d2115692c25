/**
 Bounds that hold on every run, however the steps interleave: how many links a waiting daemon's wake-up has, how many
 replies go out before a task's, and how many moves its request has left.
 */
module AskBounds {
  import opened AskProtocol
  import opened AskWakeup
  import opened AskConservation

  function Beyond(i: nat, x: nat): nat {
    if i + 1 > x then i + 1 - x else 0
  }

  // ---------- the wake-up ----------

  /**
   The step that is due: the wake at a message, the submit at a cleared flag, the clear at a set one, else the flag.
   */
  predicate Due(k: Kernel, a: Action) {
    match WakeRank(k)
    case 1 => a.DaemonWake?
    case 2 => a.Submit?
    case 3 => a.TestAndClear?
    case _ => a.SetFlag?
  }

  function DueSteps(cfg: Config, s: State, run: seq<Action>): nat
    requires Legal(cfg, s, run)
    decreases |run|
  {
    if run == [] then 0 else (if Due(s.k, run[0]) then 1 else 0) + DueSteps(cfg, Apply(cfg, s, run[0]), run[1..])
  }

  lemma DueStepAdvances(cfg: Config, s: State, a: Action)
    requires WakeInv(s) && Enabled(cfg, s, a) && s.d.pc.Wait? && !a.DaemonWake?
    ensures Apply(cfg, s, a).d.pc.Wait?
    ensures WakeRank(Apply(cfg, s, a).k) + (if Due(s.k, a) then 1 else 0) <= WakeRank(s.k)
  {
    RankNeverGrows(cfg, s, a);
    if a.TestAndClear? && WakeRank(s.k) == 3 {
      var k' := Apply(cfg, s, a).k;
      assert a.cpu in k'.cpus && k'.cpus[a.cpu].Woken?;
    }
  }

  /**
   On every run a daemon that is not woken has seen at most three due steps, of whatever CPU or task, among any other
   steps; with the message in the ring the next due step is its wake-up.
   */
  lemma {:induction false} WakeBound(cfg: Config, s: State, run: seq<Action>)
    requires WakeInv(s) && s.d.pc.Wait? && Legal(cfg, s, run) && DaemonWake !in run
    ensures Exec(cfg, s, run).d.pc.Wait?
    ensures DueSteps(cfg, s, run) + WakeRank(Exec(cfg, s, run).k) <= WakeRank(s.k) <= 4
    decreases |run|
  {
    if run != [] {
      DueStepAdvances(cfg, s, run[0]);
      StepKeepsWakeInv(cfg, s, run[0]);
      WakeBound(cfg, Apply(cfg, s, run[0]), run[1..]);
    }
  }

  // ---------- the request ----------

  function Pos(q: seq<Pid>, p: Pid): (i: nat)
    ensures i <= |q|
    ensures p in q ==> i < |q| && q[i] == p
  {
    if q == [] || q[0] == p then 0 else 1 + Pos(q[1..], p)
  }

  lemma {:induction false} PosOfPrefix(q: seq<Pid>, more: seq<Pid>, p: Pid)
    requires p in q
    ensures Pos(q + more, p) == Pos(q, p)
  {
    assert (q + more)[0] == q[0];
    if q[0] != p {
      assert (q + more)[1..] == q[1..] + more;
      PosOfPrefix(q[1..], more, p);
    }
  }

  /** Moves that `p` and all in front of it have left: out of each of the four places they are still in. */
  function WorkAt(i: nat, dispatched: nat, listed: nat, inHand: nat): nat {
    i + 1 + Beyond(i, dispatched) + Beyond(i, dispatched + listed) + Beyond(i, dispatched + listed + inHand)
  }

  function Work(s: State, p: Pid): nat {
    WorkAt(Pos(Line(s), p), |s.k.dispatched|, |s.d.list|, |InHand(s.d)|)
  }

  /** A move of `p` or of a request in front of it. */
  predicate Moves(cfg: Config, s: State, a: Action, p: Pid) {
    var i := Pos(Line(s), p);
    || a.PopReply?
    || (a.DaemonPush? && |s.k.dispatched| < cfg.capacity && i >= |s.k.dispatched|)
    || (a.DaemonList? && i >= |s.k.dispatched| + |s.d.list|)
    || (a.DaemonPop? && s.k.enqueued != [] && i >= |s.k.dispatched| + |s.d.list| + |InHand(s.d)|)
  }

  lemma LinePos(cfg: Config, s: State, a: Action, p: Pid)
    requires NoDup(Line(s)) && Enabled(cfg, s, a) && p in Line(s) && p in Line(Apply(cfg, s, a))
    ensures Pos(Line(Apply(cfg, s, a)), p) == Pos(Line(s), p) - if a.PopReply? then 1 else 0
  {
    LineStep(cfg, s, a);
    if a.Push? && |s.k.enqueued| < cfg.capacity {
      PosOfPrefix(Line(s), [a.p], p);
    } else if a.PopReply? {
      assert p != Line(s)[0];
    }
  }

  /** The lengths of the places after a step. */
  lemma PlacesStep(cfg: Config, s: State, a: Action)
    requires NoDup(Line(s)) && Enabled(cfg, s, a)
    ensures var s' := Apply(cfg, s, a);
      var push := a.DaemonPush? && |s.k.dispatched| < cfg.capacity;
      && |s'.k.dispatched| == |s.k.dispatched| + (if push then 1 else 0) - (if a.PopReply? then 1 else 0)
      && |s'.d.list| == |s.d.list| + (if a.DaemonList? then 1 else 0) - (if push then 1 else 0)
      && |InHand(s'.d)| == |InHand(s.d)| + (if a.DaemonPop? && s.k.enqueued != [] then 1 else 0)
                           - (if a.DaemonList? then 1 else 0)
  {
    if a.DaemonList? {
      NeverListedTwice(s);
    } else if !IsDaemonStep(a) && !a.Push? && !a.PopReply? {
      KernelKeepsQueues(cfg, s.k, a);
    }
  }

  /** A step takes one off the work of `p` if it moves `p` or a request in front of it, and else leaves it alone. */
  lemma WorkStep(cfg: Config, s: State, a: Action, p: Pid)
    requires NoDup(Line(s)) && Enabled(cfg, s, a) && p in Line(s) && p in Line(Apply(cfg, s, a))
    ensures Work(Apply(cfg, s, a), p) + (if Moves(cfg, s, a, p) then 1 else 0) == Work(s, p)
  {
    LinePos(cfg, s, a, p);
    PlacesStep(cfg, s, a);
    hide Apply;
    hide Line;
    hide NoDup;
  }

  /** `p` waits in the line throughout the run. */
  predicate InLine(cfg: Config, s: State, run: seq<Action>, p: Pid)
    requires Legal(cfg, s, run)
    decreases |run|
  {
    p in Line(s) && (run == [] || InLine(cfg, Apply(cfg, s, run[0]), run[1..], p))
  }

  function MovesIn(cfg: Config, s: State, run: seq<Action>, p: Pid): nat
    requires Legal(cfg, s, run)
    decreases |run|
  {
    if run == [] then 0
    else (if Moves(cfg, s, run[0], p) then 1 else 0) + MovesIn(cfg, Apply(cfg, s, run[0]), run[1..], p)
  }

  function RepliesIn(run: seq<Action>): nat {
    if run == [] then 0 else (if run[0].PopReply? then 1 else 0) + RepliesIn(run[1..])
  }

  /**
   No overtaking, on every run: while the request of `p` waits, the replies taken are exactly those in front of it, and
   the moves made exactly those it had left; so at most four moves per place in the line come before its reply.
   */
  lemma {:induction false} RequestBound(cfg: Config, s: State, run: seq<Action>, p: Pid)
    requires cfg.flagFirst && ExactInv(cfg, s) && NoEarlyInsert(s.k)
    requires Legal(cfg, s, run) && FreshRun(cfg, s, run) && InLine(cfg, s, run, p)
    ensures p in Line(Exec(cfg, s, run))
    ensures RepliesIn(run) + Pos(Line(Exec(cfg, s, run)), p) == Pos(Line(s), p)
    ensures MovesIn(cfg, s, run, p) + Work(Exec(cfg, s, run), p) == Work(s, p) <= 4 * (Pos(Line(s), p) + 1)
    decreases |run|
  {
    if run != [] {
      LinePos(cfg, s, run[0], p);
      WorkStep(cfg, s, run[0], p);
      StepKeepsExactInv(cfg, s, run[0]);
      RequestBound(cfg, Apply(cfg, s, run[0]), run[1..], p);
    }
  }

  /** The last move is the pop of its own reply: with one left, the request is the next reply. */
  lemma LastMove(s: State, p: Pid)
    requires p in Line(s)
    ensures Work(s, p) == 1 <==> s.k.dispatched != [] && s.k.dispatched[0].pid == p
  {
    if s.k.dispatched != [] {
      assert Line(s)[0] == s.k.dispatched[0].pid;
    }
  }
}

/**
 Exact conservation.  As long as no pid is enabled again while an old request of its is still travelling, the
 requests form one duplicate-free line through both queues and the daemon's list, first in, first out.
 */
module AskConservation {
  import opened AskProtocol
  import opened AskStrand

  function Pids(es: seq<Entry>): seq<Pid> {
    seq(|es|, i requires 0 <= i < |es| => es[i].pid)
  }

  function InHand(d: Daemon): seq<Pid> {
    if d.pc.Hand? then [d.pc.pid] else []
  }

  /** The line of requests, oldest first. */
  function Line(s: State): seq<Pid> {
    Pids(s.k.dispatched) + Pids(s.d.list) + InHand(s.d) + s.k.enqueued
  }

  ghost predicate NoDup(q: seq<Pid>) {
    forall i, j | 0 <= i < j < |q| :: q[i] != q[j]
  }

  /** A task is not enabled again while its pid is still in the line. */
  predicate Fresh(s: State, a: Action) {
    a.Enable? ==> a.p !in Line(s)
  }

  predicate FreshRun(cfg: Config, s: State, run: seq<Action>)
    requires Legal(cfg, s, run)
    decreases |run|
  {
    run == [] || (Fresh(s, run[0]) && FreshRun(cfg, Apply(cfg, s, run[0]), run[1..]))
  }

  ghost predicate Unanswered(k: Kernel, p: Pid) {
    forall c | c in k.cpus :: !Answers(k.cpus[c], p)
  }

  /** At most one CPU answers `p`, and then its request has left the line. */
  ghost predicate ReplyOk(s: State, p: Pid) {
    forall c | c in s.k.cpus && Answers(s.k.cpus[c], p) ::
      p !in Line(s) && forall c' | c' in s.k.cpus && c' != c :: !Answers(s.k.cpus[c'], p)
  }

  /** Before its push and after an overflow a task has no request; once it has its slice none is left. */
  ghost predicate RequestOk(cfg: Config, s: State, p: Pid) {
    p in s.k.tasks ==>
      var t := s.k.tasks[p];
      && (t.phase.CtxMade? || t.overflowed || p == cfg.daemon ==> p !in Line(s) && Unanswered(s.k, p) && !t.hasSlice)
      && (t.phase.CtxMade? ==> p != cfg.daemon && !t.overflowed)
      && (t.hasSlice ==> p !in Line(s) && !SomePending(s.k, p))
  }

  ghost predicate PidOk(cfg: Config, s: State, p: Pid) {
    ReplyOk(s, p) && RequestOk(cfg, s, p)
  }

  ghost predicate LineInv(s: State) {
    NoDup(Line(s)) && s.pushed == s.consumed + Line(s)
  }

  ghost predicate ExactInv(cfg: Config, s: State) {
    LineInv(s) && forall p :: PidOk(cfg, s, p)
  }

  lemma ListedIsInLine(s: State, p: Pid) returns (i: nat)
    requires Lists(s.d.list, p)
    ensures i < |s.k.dispatched| + |s.d.list| && i < |Line(s)| && Line(s)[i] == p
  {
    var j :| 0 <= j < |s.d.list| && s.d.list[j].pid == p;
    i := |s.k.dispatched| + j;
  }

  /** With a duplicate-free line the daemon never finds a popped pid still listed. */
  lemma NeverListedTwice(s: State)
    requires NoDup(Line(s)) && s.d.pc.Hand?
    ensures !Lists(s.d.list, s.d.pc.pid)
  {
    var j := |s.k.dispatched| + |s.d.list|;
    assert Line(s)[j] == s.d.pc.pid;
    if Lists(s.d.list, s.d.pc.pid) {
      var i := ListedIsInLine(s, s.d.pc.pid);
    }
  }

  lemma DaemonKeepsLine(cfg: Config, s: State, a: Action)
    requires NoDup(Line(s)) && IsDaemonStep(a) && EnabledD(cfg, s, a)
    ensures Line(ApplyD(cfg, s, a)) == Line(s)
  {
    var s' := ApplyD(cfg, s, a);
    match a
    case DaemonPop =>
      if s.k.enqueued != [] {
        assert s.k.enqueued == [s.k.enqueued[0]] + s'.k.enqueued;
      }
    case DaemonList =>
      NeverListedTwice(s);
      assert Pids(s'.d.list) == Pids(s.d.list) + [s.d.pc.pid];
    case DaemonPush =>
      if |s.k.dispatched| < cfg.capacity {
        assert Pids(s'.k.dispatched) == Pids(s.k.dispatched) + [s.d.list[0].pid];
        assert Pids(s.d.list) == [s.d.list[0].pid] + Pids(s'.d.list);
      }
    case _ =>
  }

  lemma KernelKeepsQueues(cfg: Config, k: Kernel, a: Action)
    requires !IsDaemonStep(a) && !a.Push? && !a.PopReply? && EnabledK(cfg, k, a)
    ensures ApplyK(cfg, k, a).enqueued == k.enqueued && ApplyK(cfg, k, a).dispatched == k.dispatched
  {
  }

  /** Every step leaves the line alone, but for a push at its end and a pop at its front. */
  lemma LineStep(cfg: Config, s: State, a: Action)
    requires NoDup(Line(s)) && Enabled(cfg, s, a)
    ensures a.PopReply? ==> Line(s) != [] && Line(s)[0] == s.k.dispatched[0].pid
    ensures Line(Apply(cfg, s, a)) ==
      if a.Push? && |s.k.enqueued| < cfg.capacity then Line(s) + [a.p]
      else if a.PopReply? then Line(s)[1..]
      else Line(s)
  {
    if IsDaemonStep(a) {
      DaemonKeepsLine(cfg, s, a);
    } else if a.PopReply? {
      assert Pids(s.k.dispatched) == [s.k.dispatched[0].pid] + Pids(Apply(cfg, s, a).k.dispatched);
    } else if !a.Push? {
      KernelKeepsQueues(cfg, s.k, a);
    }
  }

  lemma LineMembers(cfg: Config, s: State, a: Action, p: Pid)
    requires NoDup(Line(s)) && Enabled(cfg, s, a)
    ensures p in Line(Apply(cfg, s, a)) ==> p in Line(s) || (a.Push? && a.p == p && |s.k.enqueued| < cfg.capacity)
    ensures a.PopReply? && s.k.dispatched[0].pid == p ==> p in Line(s) && p !in Line(Apply(cfg, s, a))
  {
    LineStep(cfg, s, a);
  }

  lemma LineGrows(s: State, s': State, p: Pid)
    requires LineInv(s) && p !in Line(s)
    requires Line(s') == Line(s) + [p] && s'.pushed == s.pushed + [p] && s'.consumed == s.consumed
    ensures LineInv(s')
  {
    var q := Line(s);
    assert s.consumed + q + [p] == s.consumed + (q + [p]);
    assert NoDup(q + [p]);
  }

  lemma LineShrinks(s: State, s': State)
    requires LineInv(s) && Line(s) != []
    requires Line(s') == Line(s)[1..] && s'.pushed == s.pushed && s'.consumed == s.consumed + [Line(s)[0]]
    ensures LineInv(s')
  {
    var q := Line(s);
    assert s.consumed + [q[0]] + q[1..] == s.consumed + q;
    assert NoDup(q[1..]);
  }

  lemma StepKeepsLine(cfg: Config, s: State, a: Action)
    requires ExactInv(cfg, s) && Enabled(cfg, s, a)
    ensures LineInv(Apply(cfg, s, a))
  {
    LineStep(cfg, s, a);
    if a.Push? && |s.k.enqueued| < cfg.capacity {
      assert PidOk(cfg, s, a.p);
      LineGrows(s, Apply(cfg, s, a), a.p);
    } else if a.PopReply? {
      LineShrinks(s, Apply(cfg, s, a));
    }
  }

  /** No CPU is ever between an early insert and a late flag. */
  ghost predicate NoEarlyInsert(k: Kernel) {
    forall c | c in k.cpus :: !k.cpus[c].Inserted?
  }

  lemma AnswersStep(cfg: Config, k: Kernel, a: Action, c: Cpu, p: Pid)
    requires cfg.flagFirst && !IsDaemonStep(a) && EnabledK(cfg, k, a) && NoEarlyInsert(k)
    ensures var pc, pc' := PcOf(k, c), PcOf(ApplyK(cfg, k, a), c);
      && !pc'.Inserted?
      && (Answers(pc', p) ==> (c in k.cpus && Answers(pc, p)) || (a == PopReply(c) && k.dispatched[0].pid == p))
      && (Pending(pc', p) ==> (c in k.cpus && Pending(pc, p)) || (a == PopReply(c) && k.dispatched[0].pid == p))
  {}

  lemma StepKeepsReplyOk(cfg: Config, s: State, a: Action, p: Pid)
    requires cfg.flagFirst && LineInv(s) && PidOk(cfg, s, p) && NoEarlyInsert(s.k) && Enabled(cfg, s, a)
    ensures ReplyOk(Apply(cfg, s, a), p)
  {
    var s' := Apply(cfg, s, a);
    LineMembers(cfg, s, a, p);
    forall c, c' | c in s'.k.cpus && Answers(s'.k.cpus[c], p) && c' in s'.k.cpus && c' != c
      ensures !Answers(s'.k.cpus[c'], p)
    {
      if !IsDaemonStep(a) {
        AnswersStep(cfg, s.k, a, c, p);
        AnswersStep(cfg, s.k, a, c', p);
      }
    }
    forall c | c in s'.k.cpus && Answers(s'.k.cpus[c], p)
      ensures p !in Line(s')
    {
      if !IsDaemonStep(a) {
        AnswersStep(cfg, s.k, a, c, p);
      }
    }
  }

  lemma UnansweredKept(cfg: Config, s: State, a: Action, p: Pid)
    requires cfg.flagFirst && LineInv(s) && NoEarlyInsert(s.k) && !IsDaemonStep(a) && EnabledK(cfg, s.k, a)
             && p !in Line(s)
    ensures Unanswered(s.k, p) ==> Unanswered(ApplyK(cfg, s.k, a), p)
    ensures !SomePending(s.k, p) ==> !SomePending(ApplyK(cfg, s.k, a), p)
  {
    var k' := ApplyK(cfg, s.k, a);
    LineMembers(cfg, s, a, p);
    forall c | c in k'.cpus
      ensures Unanswered(s.k, p) ==> !Answers(k'.cpus[c], p)
      ensures !SomePending(s.k, p) ==> !Pending(k'.cpus[c], p)
    {
      AnswersStep(cfg, s.k, a, c, p);
    }
  }

  lemma ReplyKeepsRequestOk(cfg: Config, s: State, a: Action, p: Pid)
    requires cfg.flagFirst && LineInv(s) && PidOk(cfg, s, p) && NoEarlyInsert(s.k)
    requires (a.WriteSlice? || a.WriteFlag? || a.Insert?) && EnabledK(cfg, s.k, a) && p == Target(s.k, a)
    ensures RequestOk(cfg, Apply(cfg, s, a), p)
  {
    var s' := Apply(cfg, s, a);
    LineMembers(cfg, s, a, p);
    assert a.cpu in s.k.cpus && Answers(s.k.cpus[a.cpu], p);
    UnansweredKept(cfg, s, a, p);
    forall c | c in s'.k.cpus && a.WriteFlag? ensures !Pending(s'.k.cpus[c], p) {
      AnswersStep(cfg, s.k, a, c, p);
    }
  }

  /** The task's own steps never write has_slice, and only the push can overflow. */
  lemma OwnStepFields(cfg: Config, k: Kernel, a: Action, p: Pid)
    requires !IsDaemonStep(a) && EnabledK(cfg, k, a) && p == Target(k, a)
    requires !a.WriteSlice? && !a.WriteFlag? && !a.Insert? && !a.Enable?
    ensures p in k.tasks
    ensures var k' := ApplyK(cfg, k, a);
      p in k'.tasks ==>
        && k'.tasks[p].hasSlice == k.tasks[p].hasSlice
        && !k'.tasks[p].phase.CtxMade?
        && (k'.tasks[p].overflowed <==> k.tasks[p].overflowed || (a.Push? && |k.enqueued| >= cfg.capacity))
        && (a.Push? ==> k.tasks[p].phase.CtxMade?)
  {}

  lemma OwnKeepsRequestOk(cfg: Config, s: State, a: Action, p: Pid)
    requires cfg.flagFirst && LineInv(s) && PidOk(cfg, s, p) && NoEarlyInsert(s.k)
    requires !IsDaemonStep(a) && EnabledK(cfg, s.k, a) && Fresh(s, a)
    requires !a.WriteSlice? && !a.WriteFlag? && !a.Insert? && p == Target(s.k, a)
    ensures RequestOk(cfg, Apply(cfg, s, a), p)
  {
    LineMembers(cfg, s, a, p);
    if p !in Line(s) {
      UnansweredKept(cfg, s, a, p);
    }
    if a.Enable? {
      assert Unanswered(s.k, p);
    } else {
      OwnStepFields(cfg, s.k, a, p);
    }
  }

  /**
   Once `p` is out of the line it stays out but for its own push; the write of has_slice leaves no second reply
   pending.
   */
  lemma StepKeepsRequestOk(cfg: Config, s: State, a: Action, p: Pid)
    requires cfg.flagFirst && LineInv(s) && PidOk(cfg, s, p) && NoEarlyInsert(s.k) && Enabled(cfg, s, a) && Fresh(s, a)
    ensures RequestOk(cfg, Apply(cfg, s, a), p)
  {
    var s' := Apply(cfg, s, a);
    LineMembers(cfg, s, a, p);
    if !IsDaemonStep(a) {
      if p != Target(s.k, a) {
        OthersKept(cfg, s.k, a, p);
        if p !in Line(s) {
          UnansweredKept(cfg, s, a, p);
        }
      } else if a.WriteSlice? || a.WriteFlag? || a.Insert? {
        ReplyKeepsRequestOk(cfg, s, a, p);
      } else {
        OwnKeepsRequestOk(cfg, s, a, p);
      }
    }
  }

  lemma StepKeepsExactInv(cfg: Config, s: State, a: Action)
    requires cfg.flagFirst && ExactInv(cfg, s) && NoEarlyInsert(s.k) && Enabled(cfg, s, a) && Fresh(s, a)
    ensures ExactInv(cfg, Apply(cfg, s, a)) && NoEarlyInsert(Apply(cfg, s, a).k)
  {
    var s' := Apply(cfg, s, a);
    StepKeepsLine(cfg, s, a);
    forall p ensures PidOk(cfg, s', p) {
      assert PidOk(cfg, s, p);
      StepKeepsReplyOk(cfg, s, a, p);
      StepKeepsRequestOk(cfg, s, a, p);
    }
    forall c | c in s'.k.cpus ensures !s'.k.cpus[c].Inserted? {
      if !IsDaemonStep(a) {
        AnswersStep(cfg, s.k, a, c, 0);
      }
    }
  }

  lemma {:induction false} RunKeepsExactInv(cfg: Config, s: State, run: seq<Action>)
    requires cfg.flagFirst && ExactInv(cfg, s) && NoEarlyInsert(s.k) && Legal(cfg, s, run) && FreshRun(cfg, s, run)
    ensures ExactInv(cfg, Exec(cfg, s, run)) && NoEarlyInsert(Exec(cfg, s, run).k)
    decreases |run|
  {
    if run != [] {
      StepKeepsExactInv(cfg, s, run[0]);
      RunKeepsExactInv(cfg, Apply(cfg, s, run[0]), run[1..]);
    }
  }

  /**
   FIFO conservation: all pids ever pushed, in order, are those answered, then those in the line, each travelling once.
   */
  lemma FifoConservation(cfg: Config, run: seq<Action>)
    requires cfg.flagFirst && Legal(cfg, START, run) && FreshRun(cfg, START, run)
    ensures var s := Exec(cfg, START, run);
      s.pushed == s.consumed + Line(s) && NoDup(Line(s))
  {
    RunKeepsExactInv(cfg, START, run);
  }

  /** Where the one request of `p` is: at one place of the line, or with one CPU. */
  ghost predicate OneRequest(s: State, p: Pid) {
    if p in Line(s) then Unanswered(s.k, p)
    else
      exists c :: c in s.k.cpus && Pending(s.k.cpus[c], p)
                  && forall c' | c' in s.k.cpus && c' != c :: !Answers(s.k.cpus[c'], p)
  }

  lemma RequestedInLine(s: State, p: Pid)
    ensures Requested(s, p) <==> p in Line(s) || SomePending(s.k, p)
  {
    assert forall i | 0 <= i < |s.k.dispatched| :: Pids(s.k.dispatched)[i] == s.k.dispatched[i].pid;
    assert forall i | 0 <= i < |s.d.list| :: Pids(s.d.list)[i] == s.d.list[i].pid;
    assert p in Pids(s.k.dispatched) <==> Lists(s.k.dispatched, p);
    assert p in Pids(s.d.list) <==> Lists(s.d.list, p);
  }

  /**
   An enabled task that waits for its slice, and whose request fitted the queue, has exactly one request outstanding.
   */
  lemma ExactlyOneRequest(cfg: Config, run: seq<Action>, p: Pid)
    requires cfg.flagFirst && Legal(cfg, START, run) && FreshRun(cfg, START, run) && p != cfg.daemon
    requires var k := Exec(cfg, START, run).k;
      p in k.tasks && !k.tasks[p].hasSlice && !k.tasks[p].overflowed && !k.tasks[p].phase.CtxMade?
    ensures OneRequest(Exec(cfg, START, run), p)
  {
    var s := Exec(cfg, START, run);
    RunKeepsStrandInv(cfg, START, run);
    RunKeepsExactInv(cfg, START, run);
    assert TaskOk(cfg, s, p) && PidOk(cfg, s, p);
    RequestedInLine(s, p);
  }

  /** Nobody is going to release this held task. */
  ghost predicate Stranded(s: State, p: Pid) {
    p in s.k.tasks && s.k.tasks[p].place.Held? && !Requested(s, p) && !SomeReleases(s.k, p)
  }

  /** A held task is stranded exactly when its request did not fit the queue. */
  lemma StrandedIffOverflowed(cfg: Config, run: seq<Action>, p: Pid)
    requires cfg.flagFirst && Legal(cfg, START, run) && FreshRun(cfg, START, run)
    requires var k := Exec(cfg, START, run).k; p in k.tasks && k.tasks[p].place.Held?
    ensures Stranded(Exec(cfg, START, run), p) <==> Exec(cfg, START, run).k.tasks[p].overflowed
  {
    var s := Exec(cfg, START, run);
    RunKeepsStrandInv(cfg, START, run);
    RunKeepsExactInv(cfg, START, run);
    assert TaskOk(cfg, s, p) && PidOk(cfg, s, p);
    RequestedInLine(s, p);
  }
}

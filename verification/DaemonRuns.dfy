/** The daemon's functions, when nobody interferes, are runs of the protocol; and what a batch size of zero does. */
module DaemonRuns {
  import opened AskProtocol
  import opened DispatchList

  lemma PopAndList(cfg: Config, t: State)
    requires t.d.pc.Drain? && t.k.enqueued != []
    ensures Legal(cfg, t, [DaemonPop, DaemonList])
    ensures Exec(cfg, t, [DaemonPop, DaemonList])
         == t.(k := t.k.(enqueued := t.k.enqueued[1..]), d := DoList(cfg, t.d.(pc := Hand(t.k.enqueued[0]))))
  {
    var t1 := Apply(cfg, t, DaemonPop);
    ExecCons(cfg, t1, DaemonList, []);
    ExecCons(cfg, t, DaemonPop, [DaemonList] + []);
    assert [DaemonPop] + ([DaemonList] + []) == [DaemonPop, DaemonList];
  }

  /** The protocol state after `n` requests are drained. */
  function AfterDrain(cfg: Config, s: State, n: nat): State
    requires s.d.pc.Drain? && n <= |s.k.enqueued|
  {
    s.(k := s.k.(enqueued := s.k.enqueued[n..]), d := Listed(cfg, s.d, s.k.enqueued, n))
  }

  lemma OneMoreDrained(cfg: Config, s: State, n: nat)
    requires s.d.pc.Drain? && n < |s.k.enqueued|
    ensures var t := AfterDrain(cfg, s, n);
      && t.d.pc.Drain? && t.k.enqueued != []
      && AfterDrain(cfg, s, n + 1) ==
         t.(k := t.k.(enqueued := t.k.enqueued[1..]), d := DoList(cfg, t.d.(pc := Hand(t.k.enqueued[0]))))
  {
    ListedStep(cfg, s.d, s.k.enqueued, n);
    assert s.k.enqueued[n..][1..] == s.k.enqueued[n + 1..];
  }

  /** Draining `n` requests is popping and listing n times. */
  lemma {:induction false} DrainIsRun(cfg: Config, s: State, n: nat) returns (run: seq<Action>)
    requires s.d.pc.Drain? && n <= |s.k.enqueued|
    ensures Legal(cfg, s, run) && Exec(cfg, s, run) == AfterDrain(cfg, s, n)
  {
    if n == 0 {
      return [];
    }
    var most := DrainIsRun(cfg, s, n - 1);
    OneMoreDrained(cfg, s, n - 1);
    PopAndList(cfg, AfterDrain(cfg, s, n - 1));
    ExecAppend(cfg, s, most, [DaemonPop, DaemonList]);
    run := most + [DaemonPop, DaemonList];
  }

  /** What drain_enqueued_map leaves behind, as a protocol state. */
  function Drained(cfg: Config, s: State): State
    requires s.d.pc.Drain?
  {
    var d := Listed(cfg, s.d, s.k.enqueued, |s.k.enqueued|);
    s.(k := s.k.(enqueued := [], nrQueued := 0, nrScheduled := d.nrCurr), d := d.(pc := Batch(0)))
  }

  lemma DrainMapIsRun(cfg: Config, s: State) returns (run: seq<Action>)
    requires s.d.pc.Drain?
    ensures Legal(cfg, s, run) && Exec(cfg, s, run) == Drained(cfg, s)
  {
    var most := DrainIsRun(cfg, s, |s.k.enqueued|);
    var t := Exec(cfg, s, most);
    ExecCons(cfg, t, DaemonPop, []);
    ExecAppend(cfg, s, most, [DaemonPop] + []);
    run := most + ([DaemonPop] + []);
  }

  lemma PushOne(cfg: Config, t: State)
    requires t.d.pc.Batch? && t.d.pc.i < cfg.batch && t.d.list != [] && |t.k.dispatched| < cfg.capacity
    ensures Legal(cfg, t, [DaemonPush])
    ensures Exec(cfg, t, [DaemonPush])
         == t.(k := t.k.(dispatched := t.k.dispatched + [t.d.list[0]]), d := Moved(t.d, 1).(pc := Batch(t.d.pc.i + 1)))
  {
    ExecCons(cfg, t, DaemonPush, []);
    assert [DaemonPush] + [] == [DaemonPush];
  }

  /** The protocol state after `m` successful rounds of dispatch_batch. */
  function AfterMoves(s: State, m: nat): State
    requires m <= |s.d.list|
  {
    s.(k := s.k.(dispatched := s.k.dispatched + s.d.list[..m]), d := Moved(s.d, m).(pc := Batch(m)))
  }

  lemma OneMoreMove(s: State, m: nat)
    requires m < |s.d.list|
    ensures var t := AfterMoves(s, m);
      && t.d.list != [] && t.d.list[0] == s.d.list[m]
      && AfterMoves(s, m + 1) ==
         t.(k := t.k.(dispatched := t.k.dispatched + [t.d.list[0]]), d := Moved(t.d, 1).(pc := Batch(m + 1)))
  {
    assert s.d.list[..m] + [s.d.list[m]] == s.d.list[..m + 1];
    assert s.k.dispatched + s.d.list[..m] + [s.d.list[m]] == s.k.dispatched + (s.d.list[..m] + [s.d.list[m]]);
  }

  /** `m` successful rounds of dispatch_batch. */
  lemma {:induction false} RoundsAreRun(cfg: Config, s: State, m: nat) returns (run: seq<Action>)
    requires s.d.pc == Batch(0) && m <= BatchSize(cfg, s.d.list, s.k.dispatched)
    ensures Legal(cfg, s, run) && Exec(cfg, s, run) == AfterMoves(s, m)
  {
    if m == 0 {
      return [];
    }
    var most := RoundsAreRun(cfg, s, m - 1);
    OneMoreMove(s, m - 1);
    PushOne(cfg, AfterMoves(s, m - 1));
    ExecAppend(cfg, s, most, [DaemonPush]);
    run := most + [DaemonPush];
  }

  /** What dispatch_batch leaves behind, as a protocol state. */
  function AfterBatch(cfg: Config, s: State): State {
    var m := BatchSize(cfg, s.d.list, s.k.dispatched);
    var d := Batched(cfg, s.d, s.k.dispatched);
    s.(k := s.k.(dispatched := s.k.dispatched + s.d.list[..m], nrScheduled := d.nrCurr), d := d)
  }

  lemma FullQueueEndsBatch(cfg: Config, t: State)
    requires t.d.pc.Batch? && t.d.pc.i < cfg.batch && t.d.list != [] && |t.k.dispatched| >= cfg.capacity
    ensures Legal(cfg, t, [DaemonPush, DaemonEndBatch])
    ensures Exec(cfg, t, [DaemonPush, DaemonEndBatch])
         == t.(k := t.k.(nrScheduled := t.d.nrCurr), d := t.d.(pc := Check, nrFailed := t.d.nrFailed + 1))
  {
    var t1 := Apply(cfg, t, DaemonPush);
    ExecCons(cfg, t1, DaemonEndBatch, []);
    ExecCons(cfg, t, DaemonPush, [DaemonEndBatch] + []);
    assert [DaemonPush] + ([DaemonEndBatch] + []) == [DaemonPush, DaemonEndBatch];
  }

  lemma BatchIsRun(cfg: Config, s: State) returns (run: seq<Action>)
    requires s.d.pc == Batch(0)
    ensures Legal(cfg, s, run) && Exec(cfg, s, run) == AfterBatch(cfg, s)
  {
    var m := BatchSize(cfg, s.d.list, s.k.dispatched);
    var most := RoundsAreRun(cfg, s, m);
    var t := Exec(cfg, s, most);
    if m < cfg.batch && m < |s.d.list| {
      FullQueueEndsBatch(cfg, t);
      ExecAppend(cfg, s, most, [DaemonPush, DaemonEndBatch]);
      run := most + [DaemonPush, DaemonEndBatch];
    } else {
      ExecCons(cfg, t, DaemonEndBatch, []);
      ExecAppend(cfg, s, most, [DaemonEndBatch] + []);
      run := most + ([DaemonEndBatch] + []);
    }
  }

  /** With a batch size of zero a daemon that has listed anything never waits and never sends, whatever else happens. */
  lemma {:induction false} ZeroBatchNeverSends(cfg: Config, s: State, run: seq<Action>)
    requires cfg.batch == 0 && s.d.list != [] && !s.d.pc.Wait? && Legal(cfg, s, run)
    ensures var d := Exec(cfg, s, run).d;
      s.d.list <= d.list && !d.pc.Wait? && d.nrOut == s.d.nrOut
    decreases |run|
  {
    if run != [] {
      ZeroBatchNeverSends(cfg, Apply(cfg, s, run[0]), run[1..]);
    }
  }

  /** One enabled task is enough to list something. */
  lemma FirstListed(cfg: Config, p: Pid) returns (run: seq<Action>)
    requires cfg.capacity >= 1 && p != cfg.daemon
    ensures Legal(cfg, START, run)
    ensures var d := Exec(cfg, START, run).d; d.list != [] && !d.pc.Wait? && d.nrOut == 0
  {
    var s1 := Apply(cfg, START, Enable(p));
    var s2 := Apply(cfg, s1, Push(p, false));
    run := [DaemonPop, DaemonList];
    PopAndList(cfg, s2);
    ExecCons(cfg, s1, Push(p, false), run);
    run := [Push(p, false)] + run;
    ExecCons(cfg, START, Enable(p), run);
    run := [Enable(p)] + run;
  }

  /** With a batch size of zero a run that no continuation of which ever sends a reply. */
  lemma ZeroBatchStarves(cfg: Config, p: Pid) returns (run: seq<Action>)
    requires cfg.batch == 0 && cfg.capacity >= 1 && p != cfg.daemon
    ensures Legal(cfg, START, run) && Exec(cfg, START, run).d.list != []
    ensures var s := Exec(cfg, START, run);
      forall more: seq<Action> | Legal(cfg, s, more) :: Exec(cfg, s, more).d.nrOut == 0
  {
    run := FirstListed(cfg, p);
    var s := Exec(cfg, START, run);
    forall more: seq<Action> | Legal(cfg, s, more) ensures Exec(cfg, s, more).d.nrOut == 0 {
      ZeroBatchNeverSends(cfg, s, more);
    }
  }
}

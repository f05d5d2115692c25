/** The order of the work: items are handed to launchers as they were put, and one sentinel is put for each launcher. */
module LoadGenOrder {
  import opened LoadGen

  /** The jobs in the queue, front first. */
  function QueuedJobs(queue: seq<Item>): seq<Index> {
    if queue == [] then []
    else QueuedJobs(queue[..|queue| - 1]) + if queue[|queue| - 1].Job? then [queue[|queue| - 1].index] else []
  }

  lemma {:induction false} JobsOfConcat(a: seq<Item>, b: seq<Item>)
    ensures QueuedJobs(a + b) == QueuedJobs(a) + QueuedJobs(b)
    decreases |b|
  {
    if b == [] {
      assert a + b == a;
    } else {
      assert (a + b)[..|a + b| - 1] == a + b[..|b| - 1];
      JobsOfConcat(a, b[..|b| - 1]);
    }
  }

  lemma JobsOfOne(x: Item)
    ensures QueuedJobs([x]) == if x.Job? then [x.index] else []
  {
    assert [x][..0] == [];
  }

  lemma FrontFirst(q: seq<Item>)
    requires q != []
    ensures QueuedJobs(q) == (if q[0].Job? then [q[0].index] else []) + QueuedJobs(q[1..])
  {
    JobsOfOne(q[0]);
    JobsOfConcat([q[0]], q[1..]);
    assert [q[0]] + q[1..] == q;
  }

  /** What a step hands to a launcher. */
  function TakenBy(workload: seq<Work>, s: State, a: Action): seq<Index>
    requires Enabled(workload, s, a)
  {
    var after := Apply(workload, s, a).launchers;
    if a.Get? && a.l in after && after[a.l].Got? then [after[a.l].index] else []
  }

  /** The indices handed to launchers over a run, in order. */
  function Taken(workload: seq<Work>, s: State, run: seq<Action>): seq<Index>
    requires Legal(workload, s, run)
    decreases |run|
  {
    if run == [] then [] else TakenBy(workload, s, run[0]) + Taken(workload, Apply(workload, s, run[0]), run[1..])
  }

  /** How many items have been put. */
  function Put(workload: seq<Work>, main: MainPc): nat {
    if main.Dispatching? then main.next else |workload|
  }

  function Range(from: nat, to: nat): seq<nat>
    requires from <= to
  {
    seq(to - from, i requires 0 <= i < to - from => from + i)
  }

  /** A step takes from the front, puts at the end, or leaves the jobs in the queue alone. */
  ghost predicate KeepsOrder(workload: seq<Work>, s: State, a: Action)
    requires Enabled(workload, s, a)
  {
    var s' := Apply(workload, s, a);
    && Put(workload, s.main) <= Put(workload, s'.main) <= |workload|
    && TakenBy(workload, s, a) + QueuedJobs(s'.queue) ==
       QueuedJobs(s.queue) + Range(Put(workload, s.main), Put(workload, s'.main))
  }

  lemma PutKeepsOrder(workload: seq<Work>, s: State, a: Action)
    requires Enabled(workload, s, a) && (a.Dispatch? || a.PutSentinel?)
    ensures KeepsOrder(workload, s, a)
  {
    var x := if a.Dispatch? then Job(s.main.next) else Sentinel;
    JobsOfOne(x);
    JobsOfConcat(s.queue, [x]);
    assert Apply(workload, s, a).queue == s.queue + [x] || Apply(workload, s, a).queue == s.queue;
  }

  lemma GetKeepsOrder(workload: seq<Work>, s: State, l: nat)
    requires Enabled(workload, s, Get(l)) && Put(workload, s.main) <= |workload|
    ensures KeepsOrder(workload, s, Get(l))
  {
    FrontFirst(s.queue);
  }

  lemma OthersKeepQueue(workload: seq<Work>, s: State, a: Action)
    requires Enabled(workload, s, a) && !a.Dispatch? && !a.PutSentinel? && !a.Get?
    ensures Apply(workload, s, a).queue == s.queue && Put(workload, Apply(workload, s, a).main) == Put(workload, s.main)
  {
  }

  lemma StepKeepsOrder(workload: seq<Work>, s: State, a: Action)
    requires Enabled(workload, s, a) && Put(workload, s.main) <= |workload|
    ensures KeepsOrder(workload, s, a)
  {
    if a.Dispatch? || a.PutSentinel? {
      PutKeepsOrder(workload, s, a);
    } else if a.Get? {
      GetKeepsOrder(workload, s, a.l);
    } else {
      OthersKeepQueue(workload, s, a);
    }
  }

  lemma JoinTaken(t: seq<Index>, rest: seq<Index>, q: seq<Index>, q1: seq<Index>, q2: seq<Index>,
    a: nat, b: nat, c: nat)
    requires a <= b <= c && t + q1 == q + Range(a, b) && rest + q2 == q1 + Range(b, c)
    ensures t + rest + q2 == q + Range(a, c)
  {
    assert t + rest + q2 == t + (rest + q2);
    assert t + (q1 + Range(b, c)) == t + q1 + Range(b, c);
    assert Range(a, b) + Range(b, c) == Range(a, c);
    assert q + Range(a, b) + Range(b, c) == q + (Range(a, b) + Range(b, c));
  }

  lemma {:induction false} RunKeepsOrder(workload: seq<Work>, s: State, run: seq<Action>)
    requires Legal(workload, s, run) && Put(workload, s.main) <= |workload|
    ensures var s' := Exec(workload, s, run);
      && Put(workload, s.main) <= Put(workload, s'.main) <= |workload|
      && Taken(workload, s, run) + QueuedJobs(s'.queue) ==
         QueuedJobs(s.queue) + Range(Put(workload, s.main), Put(workload, s'.main))
    decreases |run|
  {
    if run != [] {
      var s1 := Apply(workload, s, run[0]);
      StepKeepsOrder(workload, s, run[0]);
      RunKeepsOrder(workload, s1, run[1..]);
      JoinTaken(TakenBy(workload, s, run[0]), Taken(workload, s1, run[1..]),
                QueuedJobs(s.queue), QueuedJobs(s1.queue), QueuedJobs(Exec(workload, s, run).queue),
                Put(workload, s.main), Put(workload, s1.main), Put(workload, Exec(workload, s, run).main));
    } else {
      assert Range(Put(workload, s.main), Put(workload, s.main)) == [];
    }
  }

  /**
   Over every run, and whatever launchers there are, items are handed out in file order: those handed out, then those
   in the queue, are exactly the items put so far, counted up from the first.
   */
  lemma HandedOutInOrder(workload: seq<Work>, launchers: set<nat>, run: seq<Action>)
    requires Legal(workload, Start(workload, launchers), run)
    ensures var s := Exec(workload, Start(workload, launchers), run);
      && Taken(workload, Start(workload, launchers), run) + QueuedJobs(s.queue) == Range(0, Put(workload, s.main))
      && (!s.main.Dispatching? ==> Put(workload, s.main) == |workload|)
  {
    RunKeepsOrder(workload, Start(workload, launchers), run);
  }

  // ---------- sentinels ----------

  /** How many sentinels a run puts. */
  function SentinelsPut(workload: seq<Work>, s: State, run: seq<Action>): nat
    requires Legal(workload, s, run)
    decreases |run|
  {
    if run == [] then 0
    else
      (if |Apply(workload, s, run[0]).queue| > |s.queue| && run[0].PutSentinel? then 1 else 0) +
      SentinelsPut(workload, Apply(workload, s, run[0]), run[1..])
  }

  /** How many sentinels are still to be put. */
  function ToPut(s: State): nat {
    match s.main
    case Ending(n) => n
    case Over => 0
    case _ => |s.launchers|
  }

  lemma StepKeepsLaunchers(workload: seq<Work>, s: State, a: Action)
    requires Enabled(workload, s, a)
    ensures |Apply(workload, s, a).launchers| == |s.launchers|
  {
    assert Apply(workload, s, a).launchers.Keys == s.launchers.Keys;
    assert |s.launchers.Keys| == |s.launchers|;
    assert |Apply(workload, s, a).launchers.Keys| == |Apply(workload, s, a).launchers|;
  }

  lemma {:induction false} RunKeepsLaunchers(workload: seq<Work>, s: State, run: seq<Action>)
    requires Legal(workload, s, run)
    ensures |Exec(workload, s, run).launchers| == |s.launchers|
    decreases |run|
  {
    if run != [] {
      StepKeepsLaunchers(workload, s, run[0]);
      RunKeepsLaunchers(workload, Apply(workload, s, run[0]), run[1..]);
    }
  }

  lemma StepKeepsSentinels(workload: seq<Work>, s: State, a: Action)
    requires Enabled(workload, s, a)
    ensures var s' := Apply(workload, s, a);
      ToPut(s) == ToPut(s') + if |s'.queue| > |s.queue| && a.PutSentinel? then 1 else 0
  {
    StepKeepsLaunchers(workload, s, a);
  }

  lemma {:induction false} RunKeepsSentinels(workload: seq<Work>, s: State, run: seq<Action>)
    requires Legal(workload, s, run)
    ensures ToPut(s) == ToPut(Exec(workload, s, run)) + SentinelsPut(workload, s, run)
    decreases |run|
  {
    if run != [] {
      StepKeepsSentinels(workload, s, run[0]);
      RunKeepsSentinels(workload, Apply(workload, s, run[0]), run[1..]);
    }
  }

  /** Over every run: no sentinel before the join has returned, and in the end as many as there are launchers. */
  lemma OneSentinelEach(workload: seq<Work>, launchers: set<nat>, run: seq<Action>)
    requires Legal(workload, Start(workload, launchers), run)
    ensures var s := Exec(workload, Start(workload, launchers), run);
      var put := SentinelsPut(workload, Start(workload, launchers), run);
      && (s.main.Over? ==> put == |launchers|)
      && (s.main.Dispatching? || s.main.Joining? ==> put == 0)
  {
    var start := Start(workload, launchers);
    assert start.launchers.Keys == launchers;
    RunKeepsSentinels(workload, start, run);
    RunKeepsLaunchers(workload, start, run);
  }
}

# Verification of the serverless schedulers and their load generator

This project models the two sched_ext schedulers of the repository and the load generator that drives them, and proves
what they promise about runs, not only about single calls.

**Ask-userspace variant.** `AskProtocol` is one transition system for the kernel program and the daemon: every task
callback, every CPU's dispatch callback and the daemon have a program counter; a queue push or pop, a flag operation,
a field write of a reply and the ring submit are single steps, and all of them interleave. On it are proved: no
withheld task is stranded (`AskStrand`), no wake-up is lost and a waiting daemon can be woken (`AskWakeup`), requests
form one duplicate-free first-in-first-out line through both queues and the daemon's list (`AskConservation`), what is
on a dispatch queue was decided by userspace, with exactly its slice (`AskGate`), what a full queue does to a task
(`AskOverflow`), that a held task can be released, and get to a CPU with its slice, if and only if its request fitted
(`AskRelease`, `AskService`), what the single callbacks do in reachable states (`AskCallbacks`), and bounds that hold
on every run for the wake-up and for the moves a request has left (`AskBounds`). `AskKernel.Program` and
`DispatchList.Daemon` are the callbacks and the daemon loop as they are written, on maps, an array with links threaded
through it, and counters; their contracts say that each is a run of the protocol (`AskKernel`, `DaemonRuns`). The
protocol's setting `flagFirst` is the order of the last two writes of a reply; it is true of the code, and only
`AskStrand.SwappedWritesStrand` looks at the other order.

**Kernel-assigned variant.** `VtimeEngine` is the virtual-time engine over whole runs, with a ledger per task;
`VtimeBounds` has the lag bound, with the exact condition on a run for it, the service bound and a bound on how often
a waiting task can be passed; `VtimeLaws` has what each callback does to clock, task and queue, the clock over runs
and the accounting identity. `KernelAssigned.Scheduler` is the callbacks in 64-bit words, proved to be steps of that
engine. `ClockRace` interleaves any number of CPUs in the compare-and-swap of the clock, and `Clamp` compares the
spellings of the lag clamp in wrap-around arithmetic.

**Arguments and slices.** `KernelParser` and `UserParser` are the two argument parsers on bytes, `Slices` the two
tables, `ParserLaws` says what every sequence of bytes is worth to each parser, `ParserAgreement` exactly when the
variants agree.

**Load generator.** `Bucketing`, `Expansion` and `Replay` follow an invocation from the trace through the duration and
bucket dictionaries, the per-minute expansion, the sort and the differences to the put on the queue; `TraceItems`
counts the items by argument and minute. `LoadGen` is the dispatcher, launchers and reaper as a transition system,
`LoadGenSafety` and `LoadGenResults` what its runs keep, `LoadGenOrder` the order of the work, `LoadGenEnding` when
the dispatcher can get past its join, `LoadGenFinish` when the whole can still finish with every result filled,
`LoadGenUnknown` when the reaper meets a child nobody recorded, `LoadGenThreads.Generator` the loop bodies in place.
`EndToEnd` joins the generator to the schedulers.

What is not in the repository is stated as small rules: the shared queue is sorted by vtime with insertion order
breaking ties; an insert takes effect on a task that is held or in the middle of its enqueue, and writes the clamped
vtime back; a move succeeds or fails as an oracle says; `SCX_SLICE_DFL` is 20 ms and `SCX_SLICE_INF` the largest
64-bit word. Command lines are a fixed function from pid to bytes or "unreadable". Time and the trace's durations are
reals. Nothing was executed.

## What the proofs found

- The unguarded spelling of the lag clamp is harmless where it stands: enable has just set the vtime to the clock, and
  then both spellings leave it alone, also if other CPUs have moved the clock forward in between
  (`Clamp.FreshVtimeKept`, `Clamp.MovedClockAgrees`); where the spellings differ on arbitrary words is
  `Clamp.SpellingsAgreeIff`.
- A dispatch keeps the lag bound exactly when it did not look more than one limit past a task it failed to move
  (`VtimeBounds.DispatchKeepsLagIff`), and a run keeps it throughout exactly when all its dispatches do
  (`VtimeBounds.LagBoundIff`); one failed move can break it (`VtimeBounds.FailedMoveBreaksLag`).
- Storage that survives `disable` makes a task that comes back owe what it ran elsewhere
  (`VtimeBounds.EnableIsCleanIff`, `VtimeBounds.ReenableOwesForeign`), and keeps it on the slice of its first command
  line for ever (`VtimeLaws.FirstSliceStays`).
- Concurrent swaps can leave the clock behind the largest vtime examined, exactly when every visit to a task that had
  it lost its swap (`ClockRace.ClockIsMaxIff`, `ClockRace.ConcurrentClockCanTrail`).
- The plain store of the ask-userspace variant sets the clock back exactly when another CPU has left the clock above
  the stored vtime since the check and no store behind that has written as little (`ClockRace.StoreLowersIff`); over
  whole runs of either variant the clock goes back if and only if some store is overtaken like that
  (`ClockRace.ClockAdvancesIff`, `ClockRace.PlainStoreCanGoBack`).
- A request that does not fit the queue leaves its task without a slice for good, contrary to the comment at
  `sched_ext/ask_userspace/scx_serverless_ask_userspace.bpf.c:163` that gives it the default slice: it gets that
  slice once and is then withheld for ever (`AskService.OverflowRunsOnce`, `AskOverflow.OverflowStrands`,
  `AskConservation.StrandedIffOverflowed`, `AskService.ServableIff`).
- `nr_userspace_queued` is only ever zeroed, although the comment at
  `sched_ext/ask_userspace/scx_serverless_ask_userspace.bpf.c:382` says that it is incremented; the auto-correction at
  `sched_ext/ask_userspace/scx_serverless_ask_userspace.c:592-595` never fires (`AskWakeup.NoLostWakeup`,
  `AskWakeup.AutoCorrectNeverFires`).
- A batch size of zero, which the option accepts, makes the daemon spin without ever sending
  (`DaemonRuns.ZeroBatchNeverSends`, `DaemonRuns.ZeroBatchStarves`).
- A digit in the path makes the kernel parser take the wrong number; the variants then part
  (`ParserAgreement.VariantsAgreeIff`, `ParserAgreement.PathDigitParts`). The comments beside both slice tables name
  slices in milliseconds that the tables do not hold; the tables are followed.
- The generated differences are one line off: an item is due at the time of the item behind it, and the last item
  has no line (`Replay.OwnTimeIff`); a trace that does not start at 0 drifts (`Replay.ScheduleIff`), as it
  does when nothing falls into the first minute (`EndToEnd.LateTraceDrifts`).
- One failed launch keeps the reaper waiting for ever (`LoadGenResults.ReaperEndsIff`, `LoadGenResults.FailedLaunchHangs`),
  and launchers that all time out in a gap keep the dispatcher at its join: it can get past the join if and only if
  some launcher has not returned or nothing is left to launch, and for every workload and every number of launchers
  a run gets where it cannot (`LoadGenEnding.EndingReachableIff`, `LoadGenEnding.GapHangs`).  When all results can still
  be filled is `LoadGenFinish.FinishReachableIff`.
- A command that cannot be executed leaves, for a moment, a child that only Popen waits for; the reaper's warning about
  an unknown pid is reached exactly when the reaper waits for that child first (`LoadGenUnknown.UnknownIff`,
  `LoadGenUnknown.UnknownReached`).

## Model

| member | source | states |
|---|---|---|
| Clamp.ClampEquivalence | sched_ext/ask_userspace/scx_serverless_ask_userspace.bpf.c:166-169 | below 2^63 minus a slice, the unguarded clamp, the guarded clamp and the integer clamp floored at zero are equal, and the result is at most one limit behind the clock |
| Clamp.GuardedLiftsIff | sched_ext/scx_serverless.bpf.c:219-226 | for all words, the guarded clamp is the integer clamp if and only if the clock is young or the margin fits a signed word |
| Clamp.SpellingsAgreeIff | sched_ext/ask_userspace/scx_serverless_ask_userspace.bpf.c:312-316 | for all words, exactly when the two spellings of the clamp agree |
| Clamp.FreshVtimeKept | sched_ext/ask_userspace/scx_serverless_ask_userspace.bpf.c:462-469 | at its one call site, right behind enable, the fallback's clamp leaves the vtime alone in either spelling, on every clock |
| Clamp.MovedClockAgrees | sched_ext/ask_userspace/scx_serverless_ask_userspace.bpf.c:166-169 | if the clock has moved since enable the spellings still agree on all words unless it fell by about 2^63, and are the integer clamp unless it rose by as much |
| ClockRace.ClockOnlyAdvances | sched_ext/scx_serverless.bpf.c:254-268 | over every interleaving of any number of CPUs the clock never decreases and shows 0 or an examined vtime |
| ClockRace.ClockIsKnown | sched_ext/ask_userspace/scx_serverless_ask_userspace.bpf.c:348-353 | in either variant, stores included, the clock shows 0 or an examined vtime |
| ClockRace.ClockIsMaxIff | sched_ext/scx_serverless.bpf.c:258-268 | at any point of any run of swaps the clock is the largest vtime examined if and only if that is 0 or some visit to it made a swap that was not lost |
| ClockRace.SwapLostIff | sched_ext/scx_serverless.bpf.c:259-263 | the one compare-and-swap is lost exactly when another CPU moved the clock in between and left it short |
| ClockRace.VisitTakesMax | sched_ext/scx_serverless.bpf.c:259-263 | an uninterrupted visit leaves the larger of clock and vtime and touches no other CPU |
| ClockRace.SerialClockIsMax | sched_ext/scx_serverless.bpf.c:258-268 | serialized visits leave the largest vtime ever examined |
| ClockRace.ConcurrentClockCanTrail | sched_ext/scx_serverless.bpf.c:259-263 | two interleaved visits can leave the clock short of an examined vtime |
| ClockRace.PlainStoreCanGoBack | sched_ext/ask_userspace/scx_serverless_ask_userspace.bpf.c:418-427 | two interleaved running callbacks of the other variant can set the clock back |
| ClockRace.StoreLowersIff | sched_ext/ask_userspace/scx_serverless_ask_userspace.bpf.c:418-427 | with any steps of other CPUs between check and store, stores included, the store lowers the clock if and only if a step left it above the vtime and no later store wrote as little |
| ClockRace.StoreLowersAmongSwapsIff | sched_ext/ask_userspace/scx_serverless_ask_userspace.bpf.c:348-353 | with only swaps in between: if and only if some step left the clock above the vtime |
| ClockRace.ClockAdvancesIff | sched_ext/ask_userspace/scx_serverless_ask_userspace.bpf.c:418-427 | over every run of swaps and stores the clock never goes back if and only if no store is overtaken between its check and itself |
| VtimeEngine.Slot | sched_ext/scx_serverless.bpf.c:227 | the insertion point is behind every entry whose key is not larger |
| VtimeEngine.InsertKeepsOrder | sched_ext/scx_serverless.bpf.c:227 | an insert keeps the shared queue sorted and free of duplicates |
| VtimeEngine.InsertAdds | sched_ext/scx_serverless.bpf.c:227 | an insert adds exactly its entry |
| VtimeEngine.RemoveKeepsOrder | sched_ext/scx_serverless.bpf.c:265 | a removal takes out exactly one task and keeps the order |
| VtimeEngine.RunKeepsInv | sched_ext/scx_serverless.bpf.c:190-328 | over every run the queue is sorted, holds exactly the queued tasks with their vtimes as keys, and every task's ledger balances |
| VtimeBounds.WalkEndsAtLastKey | sched_ext/scx_serverless.bpf.c:258-263 | over a sorted queue the walk leaves the larger of the clock and the last key examined |
| VtimeBounds.DispatchKeepsLagIff | sched_ext/scx_serverless.bpf.c:254-271 | a dispatch keeps every queued vtime within one limit of the clock if and only if it did not look more than a limit past a task it failed to move |
| VtimeBounds.FailedMoveBreaksLag | sched_ext/scx_serverless.bpf.c:265-267 | from the start state, for every head start above the limit, a run within the bound after which one failed move breaks it |
| VtimeBounds.LagBound | sched_ext/scx_serverless.bpf.c:219-268 | over every run whose moves succeed every queued task has vtime plus limit at least the clock |
| VtimeBounds.LagBoundIff | sched_ext/scx_serverless.bpf.c:254-271 | over every run, whichever moves fail, the lag bound holds at every point if and only if no dispatch looks more than a limit past a task it failed to move |
| VtimeBounds.EnableIsCleanIff | sched_ext/scx_serverless.bpf.c:308-322 | enabling charges runtime from elsewhere exactly when the task has an old context and has run since |
| VtimeBounds.ReenableOwesForeign | sched_ext/scx_serverless.bpf.c:324-328 | from the start state, a task that leaves, runs ns elsewhere, comes back and runs m ends with a vtime of clock at enable plus m plus ns |
| VtimeBounds.ServiceBound | sched_ext/scx_serverless.bpf.c:210-296 | while t waits at v, a task passed ahead of t has had at most v minus its own starting vtime of runtime, over any number of clamps, re-enqueues and failed moves |
| VtimeBounds.ExcessIsOneRun | sched_ext/scx_serverless.bpf.c:210-296 | up to any later point t has still not been passed again, the runtime is at most the allowance plus what was run since the last pass, and that is one run when CPUs come from the shared queue |
| VtimeBounds.PassNeedsSmallerKey | sched_ext/scx_serverless.bpf.c:254-271 | only a queued task with nothing uncharged and a key no larger passes a waiting one |
| VtimeBounds.BypassBound | sched_ext/scx_serverless.bpf.c:210-296 | no starvation: how often competitors that run before they stop can be dispatched ahead of a waiting task is bounded by their starting lead |
| VtimeLaws.AccountingAlongRun | sched_ext/scx_serverless.bpf.c:283-322 | for every run, an enable and any further run in which the task is neither disabled nor enabled again: off the CPU the vtime is the clock at the enable, plus all runtime since, plus what the clamp lifted, plus, from the first stop on, what an old context had not charged |
| VtimeLaws.DispatchClock | sched_ext/scx_serverless.bpf.c:254-271 | a dispatch takes the clock to the key of the last task looked at, if that is ahead; on CPU 0 or an empty queue it stays |
| VtimeLaws.ClockIsMaxLooked | sched_ext/scx_serverless.bpf.c:258-263 | over every run the clock is the larger of where it was and the largest key looked at since |
| VtimeLaws.ClockIsSerialRace | sched_ext/scx_serverless.bpf.c:258-263 | from the start the engine's clock is what the compare-and-swaps of ClockRace leave when the same looks are taken one at a time, the largest of them or 0 |
| VtimeLaws.DispatchMoves | sched_ext/scx_serverless.bpf.c:265-267 | a dispatch moves exactly the first task whose move succeeds to a local queue, and nobody on CPU 0 |
| VtimeLaws.EnableStartsAtClock | sched_ext/scx_serverless.bpf.c:308-322 | an enabled task starts at the clock, its ledger with it, nothing charged unless an old context is found |
| VtimeLaws.EnqueueClampsToLimit | sched_ext/scx_serverless.bpf.c:219-227 | an enqueued task keeps its vtime if that is at most a limit behind the clock, and is brought exactly that near otherwise |
| VtimeLaws.StopCharges | sched_ext/scx_serverless.bpf.c:291-295 | a stop charges exactly the runtime not yet charged |
| VtimeLaws.FirstSliceStays | sched_ext/scx_serverless.bpf.c:175-188 | the slice of a task's inserts is the one its first enable read, over any run, whatever later enables read |
| KernelAssigned.FirstSuccess | sched_ext/scx_serverless.bpf.c:265-267 | the first move that succeeds |
| KernelAssigned.AdvanceSnoc | sched_ext/scx_serverless.bpf.c:258-263 | one more examined task takes the clock to the larger of the two |
| KernelAssigned.Scheduler.constructor | sched_ext/scx_serverless.bpf.c:12-14 | a clock of zero, zero counters and no tasks are the engine's start state |
| KernelAssigned.Scheduler.SelectCpu | sched_ext/scx_serverless.bpf.c:190-208 | is the engine's direct dispatch, with the context's slice, on an idle CPU with a context, else nothing |
| KernelAssigned.Scheduler.Enqueue | sched_ext/scx_serverless.bpf.c:210-252 | without a context -ENOENT and no change; on all words the guarded clamp, written back and inserted in order with the context's slice; in range, the engine's step |
| KernelAssigned.Scheduler.Walk | sched_ext/scx_serverless.bpf.c:258-263 | the walk ends at the first move that succeeds, with the clock at least every key looked at |
| KernelAssigned.Scheduler.Dispatch | sched_ext/scx_serverless.bpf.c:254-271 | the walk and the move are the engine's dispatch: the clock is at least every key looked at, the task moved is local and off the queue, and nothing happens on CPU 0 |
| KernelAssigned.Scheduler.Stopping | sched_ext/scx_serverless.bpf.c:283-296 | without a context no change; else charges the modular delta; in range that is the engine's charge |
| KernelAssigned.Scheduler.Enable | sched_ext/scx_serverless.bpf.c:308-322 | vtime and ledger start at the clock, with the slice the parser reads off the command line, an old context found unchanged, scx.slice written either way, one more enabled; -ENOMEM leaves only the vtime written |
| Slices.TablesAgree | sched_ext/scx_serverless.bpf.c:32-59 | indexing finds the entry of the argument, and both variants give 24 to 35 the infinite and all else the default slice |
| KernelParser.ScanWindow | sched_ext/scx_serverless.bpf.c:111-144 | the byte loop finds the first maximal digit run before the forced terminator and its value modulo 2^64 |
| KernelParser.GetTaskSlice | sched_ext/scx_serverless.bpf.c:88-173 | window choice, refused read, terminator and table together give the specified slice, whatever lies behind the arguments |
| KernelParser.ParserUndoesPrint | sched_ext/scx_serverless.bpf.c:98-149 | behind a digit-free front of any length, truncated or not, the parser recovers the printed number |
| UserParser.LastIndex | sched_ext/ask_userspace/scx_serverless_ask_userspace.c:282 | the last occurrence or -1 |
| UserParser.Fread | sched_ext/ask_userspace/scx_serverless_ask_userspace.c:237 | delivers the file's first bytes, at most one less than the buffer |
| UserParser.ReadCmdline | sched_ext/ask_userspace/scx_serverless_ask_userspace.c:224-260 | fails exactly on an unreadable or empty file; else the buffer holds the blanked text as a C string |
| ParserAgreement.AtoiUndoesPrint | sched_ext/ask_userspace/scx_serverless_ask_userspace.c:288 | atoi undoes decimal printing |
| ParserAgreement.DaemonReadsArgument | sched_ext/ask_userspace/scx_serverless_ask_userspace.c:279-296 | the daemon recovers the argument behind any path |
| ParserAgreement.KernelTakesFirstNumber | sched_ext/scx_serverless.bpf.c:111-144 | which number the kernel takes, for any path |
| ParserAgreement.VariantsAgree | sched_ext/ask_userspace/scx_serverless_ask_userspace.c:224-296 | on every digit-free path and every argument up to INT_MAX both variants assign the same slice |
| ParserAgreement.VariantsAgreeIff | sched_ext/scx_serverless.bpf.c:98-149 | for any path, exactly when they do |
| ParserAgreement.PathDigitParts | sched_ext/scx_serverless.bpf.c:111-144 | behind "/v2/f" every short argument gets the default slice in the kernel and the infinite one from the daemon |
| ParserLaws.NoDigitGetsDefault | sched_ext/scx_serverless.bpf.c:146-147 | without a digit in the last 64 bytes, the very last excepted, the slice is the default |
| ParserLaws.FirstNumberDecides | sched_ext/scx_serverless.bpf.c:99-144 | whatever the bytes, the first maximal run of digits in that window decides, modulo 2^64 |
| ParserLaws.OnlyWindowCounts | sched_ext/scx_serverless.bpf.c:101-113 | what is in front of the last 64 bytes, and the very last byte, do not count |
| ParserLaws.AtoiReads | sched_ext/ask_userspace/scx_serverless_ask_userspace.c:288 | blanks, perhaps a sign, digits: their value, negative behind a minus |
| ParserLaws.TextIsSeen | sched_ext/ask_userspace/scx_serverless_ask_userspace.c:237-252 | the text is the file's first 511 bytes, without a NUL at their end and with spaces for the other NULs |
| ParserLaws.CodeIff | sched_ext/ask_userspace/scx_serverless_ask_userspace.c:334-348 | for every file: the infinite slice if and only if it can be read, is not empty, has a separator in sight and what follows the last one converts to 24 up to 35; else the default |
| ParserLaws.UnreadableGetsDefault | sched_ext/ask_userspace/scx_serverless_ask_userspace.c:314-339 | a process that is gone or shows no command line gets the default slice |
| AskStrand.NoStrandedTask | sched_ext/ask_userspace/scx_serverless_ask_userspace.bpf.c:157-245 | in every reachable state a held task has its request on the way or a reply about to release it, unless it overflowed; tasks may come, go and come back |
| AskStrand.RunKeepsStrandInv | sched_ext/ask_userspace/scx_serverless_ask_userspace.bpf.c:157-332 | every task without a slice has a request between push and reply, and every withheld task with one has a releaser, along every run |
| AskStrand.ReleaseRace | sched_ext/ask_userspace/scx_serverless_ask_userspace.bpf.c:225-227 | in every reachable state a task with a slice and no reply in progress is not held |
| AskStrand.RaceReleasesOnce | sched_ext/ask_userspace/scx_serverless_ask_userspace.bpf.c:225-227 | every interleaving of one enqueue with one reply leaves the task on the shared queue with the reply's slice |
| AskStrand.SwappedWritesStrand | sched_ext/ask_userspace/scx_serverless_ask_userspace.bpf.c:225-227 | with the two writes swapped a concrete interleaving leaves the task held with nobody to release it |
| AskStrand.EnqueueWithholds | sched_ext/ask_userspace/scx_serverless_ask_userspace.bpf.c:303-307 | an enqueue without a slice only holds the task |
| AskWakeup.NoLostWakeup | sched_ext/ask_userspace/scx_serverless_ask_userspace.c:570-598 | in every reachable state between an empty pop and the next drain, a queued request finds flag, message, pusher or submitter; a waiting daemon has an empty list and says so |
| AskWakeup.RunKeepsWakeInv | sched_ext/ask_userspace/scx_serverless_ask_userspace.bpf.c:96-106 | the wake chain survives every step of every run |
| AskWakeup.RankNeverGrows | sched_ext/ask_userspace/scx_serverless_ask_userspace.bpf.c:336-339 | while the daemon waits nobody lengthens the chain to its wake-up |
| AskWakeup.CanBeWoken | sched_ext/ask_userspace/scx_serverless_ask_userspace.bpf.c:126-143 | a waiting daemon with a request queued is woken within four steps, given one CPU outside its callback |
| AskWakeup.AutoCorrectNeverFires | sched_ext/ask_userspace/scx_serverless_ask_userspace.c:591-597 | with an empty list the counter is zero at the check, in every run |
| AskConservation.LineStep | sched_ext/ask_userspace/scx_serverless_ask_userspace.c:368-425 | every step leaves the line of requests alone but for a push at its end and a pop at its front |
| AskConservation.FifoConservation | sched_ext/ask_userspace/scx_serverless_ask_userspace.bpf.c:157-245 | all pids ever pushed, in order, are those answered then those in dispatched, the list, the daemon's hand and enqueued, each once |
| AskConservation.ExactlyOneRequest | sched_ext/ask_userspace/scx_serverless_ask_userspace.bpf.c:157-178 | a task that waits for its slice, and whose request fitted, has exactly one request |
| AskConservation.StrandedIffOverflowed | sched_ext/ask_userspace/scx_serverless_ask_userspace.bpf.c:162-173 | a held task is stranded if and only if its request did not fit |
| AskOverflow.OverflowedNeverRunsAgain | sched_ext/ask_userspace/scx_serverless_ask_userspace.bpf.c:162-173 | past its one fallback slice an overflowed task is on no dispatch queue in any continuation without its disable |
| AskOverflow.OverflowStrands | sched_ext/ask_userspace/scx_serverless_ask_userspace.bpf.c:162-173 | for every capacity a run that strands the first task too many |
| AskRelease.CanBeReleased | sched_ext/ask_userspace/scx_serverless_ask_userspace.bpf.c:180-245 | liveness: from every reachable state with a held task whose request fitted, a continuation puts it on the shared queue; it has steps only of the daemon, of one CPU of choice and the CPUs then inside their callback, and the flag of enables then in progress |
| AskRelease.ReleasableIff | sched_ext/ask_userspace/scx_serverless_ask_userspace.bpf.c:162-173 | a held task can be brought onto the shared queue by some continuation without its disable if and only if its request fitted |
| AskBounds.WakeBound | sched_ext/ask_userspace/scx_serverless_ask_userspace.bpf.c:336-339 | on every run in which the daemon is not woken, at most three due steps have happened since it began to wait, whoever took them |
| AskBounds.WorkStep | sched_ext/ask_userspace/scx_serverless_ask_userspace.c:368-425 | every step takes one off the moves a request has left if it moves it or one in front, and else leaves them alone |
| AskBounds.RequestBound | sched_ext/ask_userspace/scx_serverless_ask_userspace.bpf.c:157-245 | no overtaking: on every run the replies taken while a request waits are exactly those in front of it, and at most four moves per place in the line come before its reply |
| AskBounds.LastMove | sched_ext/ask_userspace/scx_serverless_ask_userspace.bpf.c:186-188 | with one move left, and only then, the request is the next reply |
| AskRelease.FromEnqueued | sched_ext/ask_userspace/scx_serverless_ask_userspace.c:370-390 | a queued request is drained, with the daemon woken first if it waits |
| AskRelease.FromList | sched_ext/ask_userspace/scx_serverless_ask_userspace.c:392-425 | a listed task is sent, with room made first if the queue is full |
| AskRelease.FromDispatched | sched_ext/ask_userspace/scx_serverless_ask_userspace.bpf.c:180-227 | a reply in the queue is taken and releases its task |
| AskService.CanBeServed | sched_ext/ask_userspace/scx_serverless_ask_userspace.bpf.c:336-361 | liveness up to the CPU: from every reachable state with a held task whose request fitted, the same steps and one move bring it to the local queue of any CPU but the first, with the slice userspace decided |
| AskService.ServableIff | sched_ext/ask_userspace/scx_serverless_ask_userspace.bpf.c:162-173 | a held task can be brought to a CPU by some continuation without its disable if and only if its request fitted |
| AskService.OverflowGetsDefault | sched_ext/ask_userspace/scx_serverless_ask_userspace.bpf.c:162-173 | a request that does not fit leaves the queue and the flag alone and puts the task on the shared queue with the default slice, if the insert takes effect |
| AskService.LeavesForGood | sched_ext/ask_userspace/scx_serverless_ask_userspace.bpf.c:162-173 | in every reachable state: an overflowed task that leaves is on no dispatch queue in any continuation without its disable |
| AskService.OverflowRunsOnce | sched_ext/ask_userspace/scx_serverless_ask_userspace.bpf.c:162-173 | for every capacity and every CPU but the first a run on which the first task too many gets to that CPU with the default slice, once |
| AskCallbacks.MoveGivesCpu | sched_ext/ask_userspace/scx_serverless_ask_userspace.bpf.c:346-357 | a move brings exactly that task to the CPU's local queue, with the slice it was queued with, and never on CPU 0 |
| AskCallbacks.DirectHasDecidedSlice | sched_ext/ask_userspace/scx_serverless_ask_userspace.bpf.c:276-282 | in every reachable state a direct dispatch is with the slice userspace decided |
| AskCallbacks.ComesBackAsking | sched_ext/ask_userspace/scx_serverless_ask_userspace.bpf.c:475-479 | a task that leaves and comes back has lost its slice and asks again |
| AskCallbacks.DaemonIsNeverGated | sched_ext/ask_userspace/scx_serverless_ask_userspace.bpf.c:290-294 | in every reachable state nobody asks for the daemon, it is on the global queue with the infinite slice or its enqueue puts it there, and no other task is there |
| AskCallbacks.IdleReportsBacklog | sched_ext/ask_userspace/scx_serverless_ask_userspace.bpf.c:405-409 | in every reachable state a CPU going idle sets the flag exactly when the last published count is not zero, and that is when tasks are listed |
| AskCallbacks.IdleDaemonWaits | sched_ext/ask_userspace/scx_serverless_ask_userspace.c:589-597 | in every reachable state a daemon with nothing queued and nothing listed goes to wait |
| AskCallbacks.WakesAreAskedFor | sched_ext/ask_userspace/scx_serverless_ask_userspace.bpf.c:96-155 | over every run the daemon is woken at most once for each message, and a message is sent at most once for each setting of the flag |
| AskGate.GateAndSlice | sched_ext/ask_userspace/scx_serverless_ask_userspace.bpf.c:218-227 | in every reachable state a task on a dispatch queue has has_slice and exactly the decoded code of its command line, unless it overflowed |
| AskGate.SliceFromCommandLine | sched_ext/ask_userspace/scx_serverless_ask_userspace.c:334-354 | from the bytes of the command line to the slice on the queue; on a digit-free path it is the other variant's slice |
| AskGate.SliceOfEveryFile | sched_ext/ask_userspace/scx_serverless_ask_userspace.c:314-348 | over every run and for every file, unreadable and empty ones included: the slice on the dispatch queue is infinite if and only if the last argument in sight converts to 24 up to 35, and else the default |
| AskKernel.ReplyWrites | sched_ext/ask_userspace/scx_serverless_ask_userspace.bpf.c:225-227 | the three writes of a reply are three steps |
| AskKernel.AnswerIsRun | sched_ext/ask_userspace/scx_serverless_ask_userspace.bpf.c:186-229 | one round of the reply loop is a run: the popped reply is written to a task with a context, else skipped |
| AskKernel.DrainRepliesIsRun | sched_ext/ask_userspace/scx_serverless_ask_userspace.bpf.c:180-245 | n rounds of the reply loop are a run that answers the first n replies in order |
| AskKernel.DispatchIsRun | sched_ext/ask_userspace/scx_serverless_ask_userspace.bpf.c:336-342 | an uninterrupted dispatch up to the walk is a run |
| AskKernel.DispatchTakesAll | sched_ext/ask_userspace/scx_serverless_ask_userspace.bpf.c:180-245 | in every reachable state an uninterrupted dispatch takes every queued reply: whoever was replied to and has a context has a slice and is not held |
| AskKernel.Program.constructor | sched_ext/ask_userspace/scx_serverless_ask_userspace.bpf.c:60-90 | empty maps and a clear flag are the protocol's start state |
| AskKernel.Program.EnqueueTaskInUserspace | sched_ext/ask_userspace/scx_serverless_ask_userspace.bpf.c:157-178 | with room the pid is queued, the flag set and the success counter moves alone; else the task overflows, on the shared queue with the default slice if the insert takes effect, and the failure counter moves alone |
| AskKernel.Program.Enable | sched_ext/ask_userspace/scx_serverless_ask_userspace.bpf.c:460-473 | -ENOMEM and no change without storage; else context, push and flag, for every task but the daemon |
| AskKernel.Program.SelectCpu | sched_ext/ask_userspace/scx_serverless_ask_userspace.bpf.c:264-288 | returns the kernel's CPU in every case, reports exactly an idle CPU without a context, and dispatches directly exactly with an idle CPU and a decided slice |
| AskKernel.Program.Enqueue | sched_ext/ask_userspace/scx_serverless_ask_userspace.bpf.c:290-332 | the daemon, with or without a context, to the global queue; any other without a context -ENOENT; else begin, read and hold or insert |
| AskKernel.Program.DequeueTasksFromUserspace | sched_ext/ask_userspace/scx_serverless_ask_userspace.bpf.c:180-245 | the loop answers the first replies in order, at most MAX_ENQUEUED_TASKS, skipping pids without a context |
| AskKernel.Program.TakeReplies | sched_ext/ask_userspace/scx_serverless_ask_userspace.bpf.c:336-342 | one message exactly when the flag was set, the flag clear, and the protocol's drain |
| AskKernel.Program.Dispatch | sched_ext/ask_userspace/scx_serverless_ask_userspace.bpf.c:336-361 | one message exactly when the flag was set; the replies are taken; then the picked task, if quiet and on the shared queue, is local with the slice it was queued with, and none on CPU 0 |
| AskKernel.Program.UpdateIdle | sched_ext/ask_userspace/scx_serverless_ask_userspace.bpf.c:368-410 | sets the flag exactly when going idle with a counter that is not zero |
| DispatchList.TaskPidInverts | sched_ext/ask_userspace/scx_serverless_ask_userspace.c:193-221 | task_pid inverts the address of an element exactly for pids that fit 32 bits |
| DispatchList.AdmitKeepsChain | sched_ext/ask_userspace/scx_serverless_ask_userspace.c:353-362 | marking and linking an element appends it to the list the links represent |
| DispatchList.UnmarkKeepsList | sched_ext/ask_userspace/scx_serverless_ask_userspace.c:418-419 | unlinking and unmarking the first element drops it from the list |
| DispatchList.MarksList | sched_ext/ask_userspace/scx_serverless_ask_userspace.c:325-330 | is_queued holds exactly of the listed pids |
| DispatchList.Daemon.constructor | sched_ext/ask_userspace/scx_serverless_ask_userspace.c:177-191 | the daemon starts in the protocol's start state |
| DispatchList.Daemon.Insert | sched_ext/ask_userspace/scx_serverless_ask_userspace.c:356-362 | head or tail insert appends to the list |
| DispatchList.Daemon.RemoveFirst | sched_ext/ask_userspace/scx_serverless_ask_userspace.c:418 | drops the first element |
| DispatchList.Daemon.CodeOf | sched_ext/ask_userspace/scx_serverless_ask_userspace.c:334-348 | the code of the command line; exactly an unreadable or empty one gives 0 and counts as a failure |
| DispatchList.Daemon.Admit | sched_ext/ask_userspace/scx_serverless_ask_userspace.c:330-362 | marks, counts, computes the code and appends |
| DispatchList.Daemon.LocalEnqueueTask | sched_ext/ask_userspace/scx_serverless_ask_userspace.c:312-366 | ENOENT beyond the array, a listed pid is ignored, any other is appended with its code; counters stay exact |
| DispatchList.Daemon.DrainRound | sched_ext/ask_userspace/scx_serverless_ask_userspace.c:375-387 | one popped pid is listed, ignored or refused |
| DispatchList.Daemon.DrainLoop | sched_ext/ask_userspace/scx_serverless_ask_userspace.c:370-390 | lists the popped pids in order up to the first one beyond the array |
| DispatchList.Daemon.DrainEnqueuedMap | sched_ext/ask_userspace/scx_serverless_ask_userspace.c:370-390 | empties the queue and publishes the counters, or asks to exit |
| DispatchList.Daemon.DispatchTask | sched_ext/ask_userspace/scx_serverless_ask_userspace.c:197-212 | pushes if there is room; exactly one counter moves |
| DispatchList.Daemon.DropHead | sched_ext/ask_userspace/scx_serverless_ask_userspace.c:418-420 | unlinks and unmarks the head and counts it off |
| DispatchList.Daemon.DispatchHead | sched_ext/ask_userspace/scx_serverless_ask_userspace.c:397-422 | one round moves the head, or keeps it and stops |
| DispatchList.Daemon.DispatchBatch | sched_ext/ask_userspace/scx_serverless_ask_userspace.c:392-425 | moves exactly the minimum of batch size, list length and room, a prefix in order, and publishes the count |
| DispatchList.Daemon.Iterate | sched_ext/ask_userspace/scx_serverless_ask_userspace.c:570-598 | one pass, also with a pid beyond the array: that asks for the exit but the batch is still sent; waits exactly with an empty list, having published zero |
| DispatchList.Daemon.QuietPass | sched_ext/ask_userspace/scx_serverless_ask_userspace.c:589-597 | a pass without arrivals and with room sends min(batch, n) tasks and loses none |
| DispatchList.Daemon.RunUntilWait | sched_ext/ask_userspace/scx_serverless_ask_userspace.c:570-598 | with room and no arrivals everything is sent in order and the wait comes after exactly max(1, ceil(n / batch)) passes |
| DispatchList.PassesIsCeiling | sched_ext/ask_userspace/scx_serverless_ask_userspace.c:589-597 | the recursive pass count is that ceiling |
| DaemonRuns.DrainMapIsRun | sched_ext/ask_userspace/scx_serverless_ask_userspace.c:370-390 | draining is popping and listing, step by step |
| DaemonRuns.DrainIsRun | sched_ext/ask_userspace/scx_serverless_ask_userspace.c:371-388 | draining n requests is n pops and listings |
| DaemonRuns.RoundsAreRun | sched_ext/ask_userspace/scx_serverless_ask_userspace.c:397-422 | m successful rounds are m pushes |
| DaemonRuns.BatchIsRun | sched_ext/ask_userspace/scx_serverless_ask_userspace.c:392-425 | a batch is rounds of pushing, step by step |
| DaemonRuns.ZeroBatchNeverSends | sched_ext/ask_userspace/scx_serverless_ask_userspace.c:487 | with batch size zero a daemon that has listed anything neither waits nor sends, in any run |
| DaemonRuns.ZeroBatchStarves | sched_ext/ask_userspace/scx_serverless_ask_userspace.c:487 | from the start state, with batch size zero, a run after which no continuation ever sends |
| Bucketing.SurvivorsKeepCopies | loadgen/dataset/gen_workload.py:25-26 | keeps exactly the rows with a duration between 0 and 180000, each as often as it is there |
| Bucketing.TallyDurations | loadgen/dataset/gen_workload.py:29-34 | the first loop gives every duration the sums of its rows, keys once each |
| Bucketing.BucketOfIff | loadgen/dataset/gen_workload.py:53-54 | a duration is in a bucket if and only if none before covers it and it is covered or the bucket is the last |
| Bucketing.CalibratedBucket | loadgen/dataset/gen_workload.py:46-59 | with the calibrated table a duration that some bucket covers lands in the smallest that does, and in the last bucket exactly above 9172 ms |
| Bucketing.FindBucket | loadgen/dataset/gen_workload.py:53-59 | the inner loop finds that bucket |
| Bucketing.FillBuckets | loadgen/dataset/gen_workload.py:42-59 | the second loop gives every bucket the sums of its durations |
| Bucketing.KeysSumIsOfBucket | loadgen/dataset/gen_workload.py:50-59 | summing durations into buckets is summing rows into buckets |
| Bucketing.OfBucketPermute | loadgen/dataset/gen_workload.py:27 | the order the sort leaves rows in does not matter |
| Bucketing.BucketsConserve | loadgen/dataset/gen_workload.py:29-59 | for each minute the sum over all buckets is the sum over all rows |
| Bucketing.BucketHoldsRow | loadgen/dataset/gen_workload.py:50-59 | a bucket holds at least what each of its rows brings in that minute |
| Bucketing.Bucketize | loadgen/dataset/gen_workload.py:25-59 | filters and both loops: each bucket holds exactly the invocations of the surviving rows that belong to it, and the buckets add up to all of them |
| Expansion.EvenlySpread | loadgen/dataset/gen_workload.py:68-72 | the items of a bucket lie inside their minute, an interval apart, the first at its start |
| Expansion.ExpandBucket | loadgen/dataset/gen_workload.py:69-72 | the innermost loop produces the items of one bucket and minute, as many as the rounded share, each with the bucket's argument |
| Expansion.Expand | loadgen/dataset/gen_workload.py:66-72 | for every downscale factor: zero raises, a negative one makes nothing, and any other produces the specified items in order |
| Expansion.MinuteItemsInside | loadgen/dataset/gen_workload.py:66-72 | every item of a minute lies in it and carries a bucket's printed number |
| Expansion.DownscaleLoss | loadgen/dataset/gen_workload.py:68-70 | downscaling loses less than one item per bucket and minute |
| TraceItems.ItemsCarryBucket | loadgen/dataset/gen_workload.py:69-72 | every item of a bucket carries digits that read back as the bucket's number |
| TraceItems.BucketGetsShare | loadgen/dataset/gen_workload.py:66-72 | for each bucket and minute the generated items with its argument in that minute are exactly its invocations divided by the factor, rounded down |
| TraceItems.SortedKeepsShares | loadgen/dataset/gen_workload.py:66-76 | and so are those of the sorted list |
| Replay.SortItemsSorts | loadgen/dataset/gen_workload.py:75 | the sort orders by time, permutes and is stable |
| Replay.RequestTime | loadgen/dataset/gen_workload.py:76-79 | the dispatcher's running sum over the written differences in closed form |
| Replay.RequestsNondecreasing | loadgen/exec_workload.py:150-152 | request times never go back |
| Replay.ScheduleIff | loadgen/dataset/gen_workload.py:78 | every line is due at the time of the item behind it if and only if the trace starts at 0 or has at most one line |
| Replay.OwnTimeIff | loadgen/dataset/gen_workload.py:76-79 | exactly when an item is due at its own time; never earlier |
| Replay.DispatchAll | loadgen/exec_workload.py:118-168 | the main loop puts lines in file order, at once when late and else at the first reading of the clock that has reached the request, asking for no sleep that reaches it; each round reads on where the one before left |
| Replay.ReplayTrace | loadgen/exec_workload.py:118-168 | sort, differences and dispatch together, whatever the clock's jitter |
| LoadGenSafety.RunKeepsInv | loadgen/exec_workload.py:23-105 | over every run every item is in the one place the history names, the lock is exclusive, and every child nobody has waited for is recorded, about to be, or the child of a failing launch |
| LoadGenResults.OnePlaceEach | loadgen/exec_workload.py:23-105 | from the start, with any number of launchers, each index is in exactly one place |
| LoadGenUnknown.NeverUnknown | loadgen/exec_workload.py:73-93 | in every run in which every command can be executed the unknown-pid branch is not reached |
| LoadGenUnknown.UnknownIff | loadgen/exec_workload.py:70-93 | the branch is reached if and only if the reaper waited for the child of a Popen that could not execute its command, before Popen did |
| LoadGenUnknown.UnknownReached | loadgen/exec_workload.py:50-60 | a run that reaches it, for every workload, any launchers and any pid |
| LoadGenResults.FillFindsEmpty | loadgen/exec_workload.py:77-91 | a result is only written where none was, with its own item's argument and request time and the child's output and return time |
| LoadGenResults.ReaperEndsComplete | loadgen/exec_workload.py:64-91 | when the reaper's loop ends by its condition all results are filled with their items' arguments and request times and nothing is left anywhere |
| LoadGenResults.ReaperEndsIff | loadgen/exec_workload.py:67-100 | once all launching and all children are over, the reaper ends if and only if no launch failed |
| LoadGenResults.LostHangs | loadgen/exec_workload.py:59-62 | after a failed launch the reaper's loop condition never becomes false |
| LoadGenResults.FailedLaunchHangs | loadgen/exec_workload.py:59-62 | from the start state, for every workload and launcher, a run with one failed launch after which no continuation ends the reaper's loop in order |
| LoadGenResults.JoinWaitsForLaunches | loadgen/exec_workload.py:176-178 | past the join every item has been launched or has failed |
| LoadGenResults.StepKeepsUnfinished | loadgen/exec_workload.py:38-62 | the queue's unfinished count is always queued items plus busy launchers |
| LoadGenOrder.HandedOutInOrder | loadgen/exec_workload.py:118-168 | over every run, with any number of launchers: the items handed out, then those in the queue, are the items put so far, in file order |
| LoadGenOrder.OneSentinelEach | loadgen/exec_workload.py:176-180 | no sentinel before the join has returned, and in the end exactly one for each launcher |
| LoadGenEnding.EndingReachableIff | loadgen/exec_workload.py:31-35 | before its join has returned, the dispatcher can still get past it if and only if some launcher has not returned or every item has left the queue |
| LoadGenEnding.GapHangs | loadgen/exec_workload.py:32-35 | for every workload and every set of launchers a run into a state from which the dispatcher never gets past its join |
| LoadGenFinish.FinishReachableIff | loadgen/exec_workload.py:23-105 | in every reachable state some continuation ends the reaper's loop with every result filled if and only if no launch has failed or is failing, the reaper has not left by an exception, and some launcher is left or nothing to launch |
| LoadGenFinish.ReapAll | loadgen/exec_workload.py:64-91 | with everything launched and healthy, the reaper can reap it all |
| LoadGenEnding.LauncherEndsIt | loadgen/exec_workload.py:176-178 | as long as one launcher has not returned, a continuation with successful launches gets past the join |
| LoadGenResults.GapHangsDispatcher | loadgen/exec_workload.py:32-35 | if every launcher has returned while an item is to be launched, no continuation gets past the join |
| LoadGenThreads.RoundIsRun | loadgen/exec_workload.py:31-62 | an uninterrupted launcher round is a run |
| LoadGenThreads.LaunchIsRun | loadgen/exec_workload.py:50-62 | under the lock: spawn and record, or fail before or after a fork and record nothing |
| LoadGenThreads.ReapIsRun | loadgen/exec_workload.py:67-91 | an uninterrupted reaper round is a run, and its child is recorded |
| LoadGenThreads.Generator.constructor | loadgen/exec_workload.py:124-139 | empty queue, dictionary and results are the start state |
| LoadGenThreads.Generator.LauncherRound | loadgen/exec_workload.py:31-62 | the loop body on queue and dictionary is that run; it stops exactly on a timeout or a sentinel |
| LoadGenThreads.Generator.ReaperRound | loadgen/exec_workload.py:67-93 | the loop body on dictionary and results is that run; uninterrupted, it never warns |
| EndToEnd.StartsAtZeroIff | loadgen/dataset/gen_workload.py:66-76 | the generated trace starts at 0 if and only if some bucket has an item in the first minute |
| EndToEnd.ReplayOnTimeIff | loadgen/exec_workload.py:150-152 | exactly when the generated file is replayed without drift |
| EndToEnd.LateTraceDrifts | loadgen/dataset/gen_workload.py:66-79 | for every table and factor a bucket dictionary with an empty first minute whose replay is late on some line |
| EndToEnd.DurationDecidesSlice | loadgen/dataset/gen_workload.py:47-59 | from a mean duration through bucket, printed argument, command line, parser and table: the infinite slice if and only if the duration is at most 85 ms, in both variants |
| EndToEnd.ItemDecidesSlice | loadgen/dataset/gen_workload.py:47-72 | an item with the argument for a duration is launched with a command line that both variants give the infinite slice if and only if the duration is at most 85 ms |
| EndToEnd.RowGetsItsSlice | loadgen/dataset/gen_workload.py:25-79 | from the rows of the trace: a function with enough invocations in a minute gets an item of its bucket in that minute in the sorted list, whose command line has the infinite slice if and only if its mean duration is at most 85 ms, in both variants |

## Left out

- Kernel internals: dispatch buffer limits, idle-CPU selection, kicks, affinity and the global queue's consumption are not visible here; the rules above stand for them.
- BPF loading, skeletons, signals, the stats thread, the restart jump and debug output have no state worth proving.
- AskKernel.Program.Dispatch: which task of the shared queue is moved is an oracle and vtimes are not carried, because the order of that queue and its clock are the engine's subject in VtimeEngine and ClockRace.
- AskKernel.Program.Enqueue: the vtime of the insert and its clamp are not carried, for the same reason; they are KernelAssigned.Scheduler.Enqueue's. A daemon without a context has no place in the view.
- KernelAssigned.Scheduler.constructor: that init refuses to start without the loader's pid is not modelled.
- AskKernel.Program.DequeueTasksFromUserspace: vtimes and scx.slice are not carried, and a live task without a context, which the source gives an insert that the kernel ignores for a task that is not withheld, is skipped like a dead one.
- AskKernel.AnswerIsRun: skips a live task without a context in the same way.
- AskKernel.Program.TakeReplies: the insert of the daemon's own task that goes with a message is not carried, because by the rule for inserts it has no effect: that task is never held (AskCallbacks.DaemonIsNeverGated).
- AskKernel.Program.EnqueueTaskInUserspace: whether the fallback insert takes effect in the enable context is an oracle, because that is decided by the kernel; the fallback's clamp is Clamp's subject and its vtime not carried.
- AskKernel.Program.Enable: the vtime written at enable is not carried, because the engine carries it.
- AskStrand.NoStrandedTask: a pid is not enabled again while a CPU is in the middle of a reply to it; replies that meet a pid without a context write nothing.
- AskConservation.FifoConservation: assumes that a pid is not enabled again while an old request of it still travels; NoStrandedTask needs no such assumption.
- AskRelease.CanBeReleased: says that a continuation exists, not that the kernel's scheduling of CPUs and daemon takes it; AskBounds bounds every run by the moves that count. The capacity and the batch size are positive.
- AskWakeup.CanBeWoken: the ring reservation always succeeds, and that the woken daemon is given a CPU is left to the kernel.
- VtimeBounds.LagBound: needs serialized callbacks and no wrap-around; the race on the clock is in ClockRace and the wrap in Clamp.
- ClockRace.StoreLowersIff: clock and vtimes are compared as numbers, which is what time_before does below 2^63.
- KernelAssigned.Scheduler.Enqueue: equals the engine's step for vtimes and clock in the working range only, because the clamp wraps outside it.
- UserParser.ReadCmdline: reads of /proc are a fixed function from pid to bytes; overflow inside atoi is undefined in C and not modelled, so arguments go up to INT_MAX.
- ParserLaws.CodeIff: a number beyond int is converted without bounds, where the source's atoi is undefined.
- DispatchList.Daemon.RemoveFirst: the branch of the list macro for an element that is not first is never taken here and not modelled; the macros come from a header that is not part of this model.
- DispatchList.Daemon.LocalEnqueueTask: negative pids, which would index before the array, are not modelled.
- LoadGenSafety.RunKeepsInv: a pid is not given to a new child while an old one of that pid is recorded or unreaped, and only launchers start children; CPU monitoring is not modelled.
- LoadGenResults.ReaperEndsComplete: a child's exit status is only printed by the source and not carried; its output and return time are whatever the step that fills the result brings.
- LoadGenResults.JoinWaitsForLaunches: the joins of the launcher threads and of the reaper behind it are not steps of the model.
- Replay.DispatchAll: floats are reals, sleeping only delays the next clock reading, and the clock never goes back.
- Expansion.DownscaleLoss: for positive factors; what other factors do is in Expand.
- Bucketing.Bucketize: reading and merging the trace files is the library's; rows arrive merged, with two minutes each.
- Trace parsing, calibration, graphing, shell runners and the Fibonacci payloads: one-pass scans, data and display without state that outlives a line.

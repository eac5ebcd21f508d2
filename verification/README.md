# A model of the xx-pulse event loop

xx-pulse is an async runtime on io_uring. This project models the part of it that everything else runs on, and proves
what it promises:

- the **engine** (`src/engine/uring/engine.rs`): the two rings shared with the kernel, `enter` and its retries, running
  completions, and the protocol by which other threads wake the loop;
- the **driver** (`src/driver.rs`): timers, the blocking loop and the exit drain;
- **runtime shutdown** (`src/runtime.rs`): the rounds of interrupts that end spawned workers;
- **interval schedules** (`src/interval.rs`).

`dafny verify dfyconfig.toml` checks the whole project.

## How it is built

`Machine.dfy` is a state machine over values. Its steps are every atomic step of the loop thread, of the kernel and of
any number of threads that wake the loop; `Sound` is its invariant and `Reachable` says that some run ends in a state.
`Safety.dfy` and `Progress.dfy` state what holds in every reachable state.

`IoUring.dfy` is the engine in the form of the source: a class whose methods change its counters, its queue and the ring
arrays in place. Its field `world` is the machine, holding what the program does not store (the kernel, the other
threads, where control is, and history). The invariant `Inv` says that the program's own variables agree with the
machine and that the machine's state is reachable, and every method moves the machine only by enabled steps. `Inv`
holds at every call of `Interfere`, which stands before whatever the loop does that other steps can affect (elsewhere
what it does does not depend on them): it runs any number of kernel and waker steps, chosen freely. So the theorems
about reachable states hold of the engine under every interleaving; `Guarantees.dfy` restates the main ones over the
engine's own variables. A `hide` line at the top of a proof only keeps definitions folded that the proof does not need.

`Word32.dfy`, `SubmissionQueue.dfy` and `CompletionQueue.dfy` are the rings: 32-bit words and masked slots, with
unbounded indices kept beside them. `Driver.dfy`, `Runtime.dfy`, `Interval.dfy` and `Ticks.dfy` build on the engine;
`Timers.dfy` and `Turns.dfy` hold what the driver's methods keep, over values. Ghost fields record history: kernel
enters and waits, callbacks, interrupts, and the clock readings and endings of timers with who made them, the loop itself
or a task.

## What is assumed

- **Kernel.** It consumes a prefix of the published entries in order, posts one completion per entry, writes only free
  completion slots, keeps completions that find the ring full, and moves them in on an enter that asks for events. An
  enter that succeeds with entries offered accepts at least one, and one that accepts only some does not wait
  (io_uring_setup(2), io_uring_enter(2)). It may refuse an enter at will, and results are arbitrary; a poll of the
  event fd reports data only while the counter is positive. A wait with no limit lasts at most as long as a timeout
  entry submitted before it, since that one's completion ends it (io_uring_enter(2)). Ring words are sequentially
  consistent.
- **Threads.** Each `wake` follows its own `prepare_wake`. A thread can be stopped between releasing the lock and
  writing the event fd.
- **Tasks.** A resumed task makes an arbitrary finite number of calls: it issues and cancels operations, prepares wakes,
  starts and cancels timers, spawns and finishes. It does not run the loop itself. Calls to the engine and to the timers
  touch disjoint state, so within one turn they are made one group after the other. `prepareBudget` and `budget` are
  arbitrary numbers chosen per pass; they only express that the scripts of one pass are finite.
- **Numbers.** `tail + 1` (`src/engine/uring/engine.rs:221`) is unchecked and modelled as wrapping, as in a release
  build. `to_complete` and `expected_wakes` are unbounded, since they count operations and tasks that exist.
- **Failure.** Where the source aborts the process, a method returns `Abort` and promises nothing more. The flag
  `faulted` records that the kernel refused submissions or failed the event-fd poll; nothing aborts without it.

## Results that qualify what one might expect

- When `has_work` is false and `Driver::exit` returns, a thread inside `wake` can still be about to write the event fd:
  a pass started by another thread's signal completed its request first. `Safety.WriterOutlivesDrain` is such a run.
  `Safety.UntouchedIffWakesReturned` gives the exact condition: every call of `wake` has returned.
- `Runtime::drop` completes pending I/O only in rounds that had a worker to interrupt. With no worker at the start it
  returns at once. `Runtimes.Runtime.Drop` states the exact condition and `Runtimes.UndrainedDrop` shows the case.
- Timers are a set, so two starts with the same expiry and request share one ending while the first is pending.
  `Drivers.TimersEndOnce` states that each start has an ending of its own exactly when this never happens, and
  `Drivers.SharedTimer` shows it. It takes a caller that uses a request again while it is pending.

## Model

| member | source | states |
|---|---|---|
| Word32.MaskKeepsLowBits | src/engine/uring/engine.rs:184-186 | masking with `capacity - 1` keeps exactly the low bits of a counter, for every power of two |
| Word32.LowIsRemainder | src/engine/uring/engine.rs:223-224 | the low bits are the remainder by the capacity |
| Word32.NeighboursDifferInLowBits | src/engine/uring/engine.rs:217-225 | indices less than one capacity apart never share a slot |
| Word32.SlotOfIndex | src/engine/uring/engine.rs:217-225 | the masked slot is in bounds and is that of the unbounded index, although the counter wraps at 2^32 |
| Word32.WordsTrackIndices | src/engine/uring/engine.rs:692-742 | wrapping subtraction, comparison and stepping of counters agree with their indices across the wrap |
| Entries.RotationPermutes | src/engine/uring/engine.rs:727-737 | running the last entry first and then the rest, position by position, runs the same completions, each as often |
| Entries.TaskPartAppend | src/engine/uring/engine.rs:705-725 | exactly the completions that carry a task's request are handed to a task |
| SubmissionRing.SubmissionQueue.constructor | src/engine/uring/engine.rs:173-199 | an empty ring whose index array is the identity |
| SubmissionRing.SubmissionQueue.Push | src/engine/uring/engine.rs:209-225 | with room, the entry is appended and no unconsumed slot is overwritten |
| SubmissionRing.SubmissionQueue.Sync | src/engine/uring/engine.rs:227-229 | everything pushed is published |
| SubmissionRing.SubmissionQueue.Take | src/engine/uring/engine.rs:192-196 | through the identity index array the kernel reads the oldest unconsumed entry |
| SubmissionRing.SubmissionQueue.Consume | src/engine/uring/engine.rs:192-229 | the kernel gets exactly the next pushed entries, in order: the ring is a FIFO |
| CompletionRing.CompletionQueue.constructor | src/engine/uring/engine.rs:237-252 | an empty ring |
| CompletionRing.CompletionQueue.Read | src/engine/uring/engine.rs:262-268 | an unreleased slot holds what the kernel posted at that index |
| CompletionRing.CompletionQueue.ReadRing | src/engine/uring/engine.rs:270-279 | the two words are equal exactly when nothing is unread |
| CompletionRing.CompletionQueue.Release | src/engine/uring/engine.rs:710-718 | moving the head releases exactly the slots before it |
| CompletionRing.CompletionQueue.HasRoom | src/engine/uring/engine.rs:711-717 | the kernel sees a free slot exactly when fewer than a capacity are unreleased |
| CompletionRing.CompletionQueue.Post | src/engine/uring/engine.rs:711-717 | a posted completion overwrites no unreleased one |
| Flow.PushStarts | src/engine/uring/engine.rs:753-757 | pushing starts one operation of its request |
| Flow.ConsumeMoves | src/engine/uring/engine.rs:554-567 | acceptance moves operations to the kernel and loses none |
| Flow.PostMoves | src/engine/uring/engine.rs:694-703 | completion moves one operation from the kernel to the ring |
| Flow.OverflowMoves | src/engine/uring/engine.rs:294-304 | or past the full ring |
| Flow.FlushMoves | src/engine/uring/engine.rs:591-603 | and back into it |
| Flow.ClaimMoves | src/engine/uring/engine.rs:692-737 | a batch takes over exactly the completions of its window |
| Flow.DeliverFinishes | src/engine/uring/engine.rs:705-725 | delivery ends one operation of its request |
| Flow.NoPollNotFired | src/engine/uring/engine.rs:480-487 | clearing the event fd inside a pass contradicts no fired poll |
| Flow.OutstandingSize | src/engine/uring/engine.rs:797-799 | outstanding operations are those counted place by place |
| Machine.LoopStepKeepsTraffic | src/engine/uring/engine.rs:554-757 | pushing, entering, claiming a batch and delivering keep the account of operations |
| Machine.AcceptKeepsTraffic | src/engine/uring/engine.rs:563-567 | partial acceptance keeps it: what leaves the queue is in flight |
| Machine.PostKeepsTraffic | src/engine/uring/engine.rs:694-703 | a posted completion still counts as in flight until it is claimed |
| Machine.SpillKeepsTraffic | src/engine/uring/engine.rs:294-304 | so does one past the full ring |
| Machine.UnspillKeepsTraffic | src/engine/uring/engine.rs:591-603 | and one moved back into it |
| Machine.TrafficStepKeeps | src/engine/uring/engine.rs:548-764 | every step keeps: `to_submit` counts what is queued, `to_complete` what is in flight, and started equals delivered plus outstanding per request |
| Machine.WakesStepKeeps | src/engine/uring/engine.rs:472-517 | every step keeps: expected wakes are done, drained, queued or prepared; pushed equals done, drained, queued in order; a queued wake has a signal behind it |
| Machine.PollStepKeeps | src/engine/uring/engine.rs:448-518 | every step keeps: one event-fd poll outstanding or owed exactly while wakes are expected, and fired only while the counter is positive |
| Machine.StepKeeps | src/engine/uring/engine.rs:448-833 | every enabled step of the loop, the kernel or a waking thread keeps the machine sound |
| Machine.RunsKeepSound | src/engine/uring/engine.rs:448-833 | every run from a sound state ends in one |
| Machine.RunsAreSound | src/engine/uring/engine.rs:520-545 | every run from the initial state is sound |
| Machine.StepReaches | src/engine/uring/engine.rs:448-833 | enabled steps lead from reachable to reachable states |
| Machine.ReachableIsSound | src/engine/uring/engine.rs:448-833 | every reachable state is sound |
| Machine.Counts | src/engine/uring/engine.rs:554-561 | in every reachable state the counters are these sums, so none is negative |
| Machine.WindowCovers | src/engine/uring/engine.rs:692-743 | a window run in that order holds every completion posted when it was taken |
| Safety.RunsExtendHistory | src/engine/uring/engine.rs:448-833 | over every run nothing pushed, posted, delivered, queued or woken is taken back |
| Safety.NoLostWakeup | src/engine/uring/engine.rs:462-518 | while a request is queued, the event fd is readable or a thread is about to write it, and a poll is outstanding or being handled |
| Safety.OnePollWhileExpected | src/engine/uring/engine.rs:775-817 | outside the handling of a poll exactly one is outstanding iff wakes are expected; inside, none is and wakes are expected |
| Safety.EventReadNeverFails | src/engine/uring/engine.rs:480-487 | the nonblocking read never meets zero, and the counter never exceeds the number of wakes |
| Safety.WakesInOrder | src/engine/uring/engine.rs:472-517 | requests complete once each in push order; neither unchecked subtraction underflows |
| Safety.CompletedOncePerStart | src/engine/uring/engine.rs:692-743 | each request completes as often as it was started, less what is outstanding |
| Safety.CancelsAreNoOps | src/engine/uring/engine.rs:845-883 | over every run, with any cancels among its steps, what is completed or outstanding of a request grows exactly by its starts |
| Safety.WritersAreUnreturnedWakes | src/engine/uring/engine.rs:819-833 | over every run, threads about to write the event fd are the calls of `wake` that have not returned |
| Safety.UntouchedIffWakesReturned | src/engine/uring/engine.rs:797-833 | once no wake is expected, no other thread can reach the engine iff every call of `wake` has returned |
| Safety.WriterOutlivesDrain | src/engine/uring/engine.rs:472-517 | a run that leaves no work at all while a thread is still about to write the event fd |
| Safety.LateWriteIsHarmless | src/engine/uring/engine.rs:819-833 | a pass that finds nothing queued resumes nothing, loses nothing, and leaves one poll armed |
| Progress.BecomesReadable | src/engine/uring/engine.rs:819-833 | with a wake queued, the event fd becomes readable |
| Progress.BecomesSubmitted | src/engine/uring/engine.rs:548-571 | what is queued can be got accepted |
| Progress.ReachesPoll | src/engine/uring/engine.rs:692-743 | running what there is reaches the completion of the poll, on a ring of any capacity |
| Progress.RearmsAndRests | src/engine/uring/engine.rs:448-457 | a poll that reported no data is armed again, and its next completion reports data |
| Progress.PassCompletes | src/engine/uring/engine.rs:472-517 | a pass completes everything queued |
| Progress.QueuedWakesCanComplete | src/engine/uring/engine.rs:462-518 | from every state between turns, without new work, a run leads to a state where every wake ever queued is completed |
| Engine.IoUring.constructor | src/engine/uring/engine.rs:520-545 | a new engine is idle in the initial state |
| Engine.IoUring.WakeEnqueue | src/engine/uring/engine.rs:819-826 | the request is appended under the lock, and the caller signals iff the queue was empty |
| Engine.IoUring.WakeSignal | src/engine/uring/engine.rs:828-830 | the counter goes up by one |
| Engine.IoUring.Interfere | src/engine/uring/engine.rs:462-518 | any steps of the kernel and other threads, at any point, keep the invariant and leave the loop's state alone |
| Engine.IoUring.KernelEnter | src/engine/uring/engine.rs:669-683 | the kernel's side of an enter, for every pattern of acceptance and refusal |
| Engine.IoUring.Enter | src/engine/uring/engine.rs:548-589 | Ok iff everything queued was consumed and the last answer was benign; the exact error otherwise; the retry loop terminates; at most one wait |
| Engine.IoUring.BeginEntering | src/engine/uring/engine.rs:554-561 | everything queued moves to in flight before the kernel is asked |
| Engine.IoUring.Flush | src/engine/uring/engine.rs:591-603 | on Ok nothing is queued and no overflowed completion waits behind an empty ring; it makes no wait |
| Engine.IoUring.Push | src/engine/uring/engine.rs:745-764 | exactly one entry is added, and afterwards the ring has room again; with room the kernel is not entered, and it never waits |
| Engine.IoUring.StartAsync | src/engine/uring/engine.rs:767-773 | exactly one entry, carrying the request |
| Engine.IoUring.Issue | src/engine/mod.rs:382-399 | done at once with nothing queued, exactly for bind and listen and for close, socket and shutdown where unsupported; else pending behind exactly one entry |
| Engine.IoUring.Cancel | src/engine/uring/engine.rs:845-856 | exactly one entry of the shared no-op request, and no start of any other |
| Engine.IoUring.PollWake | src/engine/uring/engine.rs:775-784 | exactly one poll is pushed, and none is owed any more |
| Engine.IoUring.PrepareWake | src/engine/uring/engine.rs:810-817 | one more wake is expected, and a poll is pushed iff none was expected before |
| Engine.IoUring.ProcessWakeCold | src/engine/uring/engine.rs:448-457 | a negative result or the error bit aborts; anything else arms the poll again and resumes nothing |
| Engine.IoUring.ReadEvent | src/engine/uring/engine.rs:480-487 | the read succeeds and clears the counter |
| Engine.IoUring.DrainQueue | src/engine/uring/engine.rs:489-496 | exactly the first four requests, or all of fewer, are taken off the front |
| Engine.IoUring.CompleteWakes | src/engine/uring/engine.rs:500-508 | the requests drained are completed in order, whatever the resumed tasks do |
| Engine.IoUring.WakeRound | src/engine/uring/engine.rs:474-509 | one turn of the pass; it ends the pass only with the queue found empty and the event fd cleared |
| Engine.IoUring.RunPass | src/engine/uring/engine.rs:472-509 | the pass terminates, and completes at least everything queued before it began |
| Engine.IoUring.EndWakePass | src/engine/uring/engine.rs:510-517 | completed wakes are taken off the expected ones, and the poll is armed iff some remain |
| Engine.IoUring.ProcessWake | src/engine/uring/engine.rs:462-518 | a whole pass: all wakes queued before it are completed in order and one poll is outstanding iff wakes are expected, although tasks prepare wakes inside it |
| Engine.IoUring.CompleteTask | src/engine/uring/engine.rs:720-724 | the task is handed its completion with its result, once |
| Engine.IoUring.Dispatch | src/engine/uring/engine.rs:720-724 | a task's completion goes to the task, the poll's to a wake pass, a no-op's to nothing; no callback waits |
| Engine.IoUring.Deliver | src/engine/uring/engine.rs:705-725 | a completion leaves the batch exactly when its callback runs |
| Engine.IoUring.ClaimBatch | src/engine/uring/engine.rs:692-703 | `to_complete` gives up the window, without underflow |
| Engine.IoUring.CompleteEntry | src/engine/uring/engine.rs:705-725 | the entry delivered is the one posted at its index, and the head moves by one iff asked, before the callback |
| Engine.IoUring.CompleteNext | src/engine/uring/engine.rs:735-737 | the next entry in order is delivered and its slot released |
| Engine.IoUring.RunRest | src/engine/uring/engine.rs:735-737 | all but the last entry, in order, the head one further at each callback |
| Engine.IoUring.RunBatch | src/engine/uring/engine.rs:727-742 | the last claimed completion is delivered, then the others in order; at the i-th callback exactly i slots are released, and the head ends at the end |
| Engine.IoUring.RunEvents | src/engine/uring/engine.rs:692-743 | a window of completions is delivered as its last one and then the others in order, with the values posted, although completions arrive and work is submitted meanwhile; later ones stay; nothing waits |
| Engine.IoUring.WaitBehindTimeout | src/engine/uring/engine.rs:629-646 | exactly the no-op timeout entry is added and everything submitted; the wait has no limit of its own and lasts at most that timeout |
| CompletionRing.CompletionQueue.TailsDiffer | src/engine/uring/engine.rs:620-622 | two readings of the tail are equal iff nothing arrived between them, although the word wraps |
| Engine.IoUring.WaitUnlessArrived | src/engine/uring/engine.rs:614-646 | no wait and no timeout when completions arrived since the tail was read; otherwise exactly the timeout entry is submitted, of at most a second |
| Engine.IoUring.SubmitAndWaitCompat | src/engine/uring/engine.rs:609-650 | everything queued is submitted; one wait, of at most the timeout and at most a second, unless completions arrived |
| Engine.IoUring.EnterAndWait | src/engine/uring/engine.rs:669-686 | exactly one wait, of the timeout, where the kernel has timed enters and the timeout is not zero |
| Engine.IoUring.EnterAndRead | src/engine/uring/engine.rs:669-689 | the same, with the window read afterwards |
| Engine.IoUring.SubmitAndWait | src/engine/uring/engine.rs:652-689 | everything queued is submitted; no enter when completions are there or nothing is asked for; it returns without a wait asked for only with completions to run; an empty window means nothing overflowed either |
| Engine.IoUring.Work | src/engine/uring/engine.rs:802-808 | one turn submits all that was queued and delivers all that was posted before it, last first and then in order, with at most one wait bounded by the timeout; without one it delivers something |
| Engine.IoUring.HasWork | src/engine/uring/engine.rs:797-799 | false iff every started operation was delivered, and then no wake is expected, queued or prepared, and only a thread about to write the event fd can reach the engine |
| Guarantees.SubmissionRingAgrees | src/engine/uring/engine.rs:753-764 | between calls `to_submit` is below the capacity and is the distance of the two words, and the slots between hold what is queued |
| Guarantees.EngineLosesNoWakeup | src/engine/uring/engine.rs:462-518 | the engine's own queue is never non-empty without a signal, written or about to be, and a poll |
| Guarantees.EngineCanCompleteWakes | src/engine/uring/engine.rs:462-518 | an idle engine can always still complete every wake queued to it |
| Timers.FirstExists | src/driver.rs:141-144 | pending timers have a first one in the order by expiry and request |
| Timers.BeginBalances | src/driver.rs:83-86 | starting a timer keeps the account: it is pending once, however often it was started |
| Timers.EndBalances | src/driver.rs:76-81 | ending a timer keeps the account |
| Timers.FirstIsExact | src/driver.rs:146-152 | the time to the first expiry is the exact timeout |
| Timers.ExactIsSound | src/driver.rs:132-193 | a wait of the exact timeout never lasts past a pending expiry |
| Timers.PassContinues | src/driver.rs:154-164 | each step of a pass expires the first pending timer, and only tasks cancel |
| Timers.PassEnds | src/driver.rs:132-168 | after a pass every timer that was due has ended, the first of them first and by expiry |
| Timers.DrainingEnds | src/driver.rs:196-212 | after shutting down every timer that was pending has ended, the first of them first and by shutdown |
| Timers.AdmittedIffApart | src/driver.rs:83-86 | a timer is admitted as often as it was started iff no start met it pending |
| Timers.EndsOncePerStartIffApart | src/driver.rs:83-129 | a timer has one ending, or is pending, for each start iff no start met it pending |
| Timers.UnendedIsPending | src/driver.rs:76-106 | a pending timer stays pending until it ends |
| Turns.LoopThenTurn | src/driver.rs:180-192 | one more turn keeps: every turn ran a pass by a fresh clock reading and asked for the exact timeout, nothing else waited, and what was posted at first is delivered |
| Turns.ServedThenTurn | src/driver.rs:180-192 | once a turn was made, every completion posted at first is delivered and stays so |
| Turns.PacedThenTurn | src/driver.rs:180-192 | the kernel waits are exactly those of the turns, in order |
| Drivers.Driver.constructor | src/driver.rs:63-69 | a new driver has no timer and is not exiting |
| Drivers.Driver.Time | src/driver.rs:72-74 | clock readings never go back |
| Drivers.Driver.QueueTimer | src/driver.rs:83-86 | the timer is pending, and its start is on record with what was pending before it |
| Drivers.Driver.StartTimeout | src/driver.rs:109-129 | refused while exiting, panicking on overflow, else pending at the absolute expiry or that from a fresh clock reading |
| Drivers.Driver.CompleteTimer | src/driver.rs:76-81 | the timer ends once, for the given reason, whatever the resumed task does; nothing is delivered or waited for |
| Drivers.Driver.CancelTimer | src/driver.rs:88-106 | found iff pending; a timer that has ended completes nothing |
| Drivers.Driver.First | src/driver.rs:141-144 | the first pending timer |
| Drivers.Driver.RunTimers | src/driver.rs:132-168 | terminates; by itself it only expires timers due at its own clock reading, first the first pending; each timer due has ended in it or been cancelled by a task; leaves none due; returns the exact time to the first expiry from its last reading |
| Drivers.Driver.Wait | src/driver.rs:170-174 | a turn submits everything queued and delivers all completions there, last first and then in order; its wait is on record with what was pending; without a wait it delivers something |
| Drivers.Holds | src/driver.rs:176-193 | how long the condition of the loop holds |
| Drivers.Driver.BlockWhile | src/driver.rs:176-193 | waits exactly while the condition holds, each time after a pass by a fresh clock reading and for exactly the time to the first expiry; every completion posted at first is delivered once it waited |
| Drivers.Driver.ShutTimersDown | src/driver.rs:196-212 | terminates with no timer pending and none started; by itself it only shuts timers down, first the first pending, and each that was pending has ended |
| Drivers.Driver.DrainEngine | src/driver.rs:214-222 | ends only with nothing started left outstanding, and at once if nothing was; its turns are those of the loop |
| Drivers.Driver.Exit | src/driver.rs:196-225 | when it returns no timer or operation is pending, no wake is expected, queued or prepared; every timer pending at first was shut down or cancelled, none started or expired; a thread can still reach the engine iff one is about to write the event fd |
| Drivers.TimersEndOnce | src/driver.rs:76-212 | in every state of a driver, each timer ended once per start, short of one pending, iff it was never started while pending; an expiry was due at a reading taken |
| Drivers.SharedTimer | src/driver.rs:83-86 | the excluded case: two starts of one expiry and request leave one pending timer |
| Lists.UnlinkIsRemoval | src/runtime.rs:82-87 | unlinking removes exactly the worker |
| Lists.UnlinkWithin | src/runtime.rs:82-87 | and keeps the order of the others |
| Runtimes.Runtime.constructor | src/runtime.rs:98-109 | a new runtime has no worker |
| Runtimes.Runtime.Spawn | src/ops/branch.rs:7-20 | a new worker is appended to the runtime's list |
| Runtimes.Runtime.Finish | src/runtime.rs:82-87 | a worker leaves whichever list it is on |
| Runtimes.Runtime.MoveWorkers | src/runtime.rs:140-185 | however workers spawn and finish, the live ones are exactly those on the two lists, each once |
| Runtimes.Runtime.MoveElements | src/runtime.rs:147-160 | a round starts with all workers on its own list |
| Runtimes.Runtime.PopFront | src/runtime.rs:162-171 | the first worker of the round goes back on the runtime's list |
| Runtimes.Runtime.Interrupt | src/runtime.rs:173-178 | an interrupt is one signal to one live worker, after which anything may have finished or spawned |
| Runtimes.Runtime.InterruptRound | src/runtime.rs:162-179 | terminates; each worker there at the start is interrupted exactly once, in list order and while live, unless it finished first, and none spawned meanwhile is |
| Runtimes.Runtime.DropRound | src/runtime.rs:162-183 | the round's workers are interrupted, each once in list order unless it finished first; the round ends with the driver drained |
| Runtimes.Runtime.Drop | src/runtime.rs:140-185 | rounds, the first with all workers there: each starts with every live worker and interrupts each once unless it finished first; returns only with no live worker; the driver is then drained iff there was a worker at first or nothing to drain |
| Runtimes.OneQueued | src/engine/uring/engine.rs:845-856 | an engine with a cancel queued has its no-op outstanding |
| Runtimes.UndrainedDrop | src/runtime.rs:140-185 | a runtime dropped without workers can leave the no-op of a cancel outstanding |
| Intervals.AlignmentIsStepping | src/interval.rs:57-67 | the modulo formula gives the point reached by stepping one delay at a time until after now |
| Intervals.AlignedOnGrid | src/interval.rs:57-67 | that point is a whole number of delays from the expiry and at most one after now |
| Intervals.FirstAfterIsOnGrid | src/interval.rs:57-67 | that point is on the schedule and the one before it is not after now |
| Intervals.GridIsLinear | src/interval.rs:55-55 | the n-th schedule point is `start + n * delay` |
| Intervals.Interval.Advance | src/interval.rs:42-78 | the next expiry of each behavior in plain sums, and by the stepping definition; panics exactly when one of its sums exceeds 64 bits, with no underflow; sleeps iff the expiry is ahead |
| Intervals.RunSteps | src/interval.rs:47-71 | over any run each tick steps from the one before |
| Intervals.BurstHasNoDrift | src/interval.rs:55-55 | the n-th burst expiry is `start + (n + 1) * delay`, whatever the clock did |
| Intervals.ExpiriesAreASubsequence | src/interval.rs:53-71 | burst and skip ticks, mixed at will, are a strictly increasing subsequence of burst's |
| Intervals.SkipIsBurstIffNeverLate | src/interval.rs:57-70 | skip gives burst's expiries iff no call is over one period late |
| Intervals.SkipCatchesUp | src/interval.rs:57-70 | when late, the first schedule point strictly after now, at most one delay away; else one delay on and not before now |
| Ticks.NeverEarly | src/driver.rs:132-168 | a timer pending at some point has since ended, for the reason logged and, if it expired, not before its expiry by the reading at that ending; or it is still pending |
| Ticks.Next | src/interval.rs:42-78 | a tick with its expiry ahead succeeds iff the first ending of its own timer is an expiry, at a reading not before it; otherwise it fails, or its timer is pending; with no sleep, no timer is touched |

## Left out

- `src/engine/uring/op.rs`: the fields of submission entries, which only the kernel decodes.
- Setting up the rings: mapping memory, feature detection and logging. Capacities are any powers of two below 2^32.
- Memory ordering of the ring words.
- The thread pool (`start_work`, `cancel_work`), fibers, `Request::complete` and `select`/`join`, which are in xx_core.
- `src/ops/io.rs`, `src/net`, `src/fs`: wrappers around single operations, which would only add easy members.
- `macros/src/lib.rs`.
- Fairness. Loops that wait on the outside world are looked at for any finite number of turns, with no claim that they
  end. What is proved instead is that queued wakes can always still be completed (`Progress.QueuedWakesCanComplete`).
- Drivers.Driver.DrainEngine: looks at `patience` turns of the drain loop, because the source's loop may never end.
- Drivers.Driver.Exit: looks at `patience` turns of the drain loop, because the source's loop may never end.
- Runtimes.Runtime.Drop: looks at `patience` rounds, because workers may ignore interrupts for ever.
- SubmissionRing.SubmissionQueue.Push: requires room in the ring, which `Engine.IoUring.Push` always leaves.
- Drivers.Driver.BlockWhile: looks at as many turns as `answers` gives for the loop's condition.
- Engine.IoUring.WakeSignal: the write to the event fd always succeeds, as the counter stays below the number of wakes.

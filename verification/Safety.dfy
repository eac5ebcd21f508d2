/** What holds in every reachable state: any number of waking threads, any kernel, any interleaving. */
module Safety {
  import opened Entries
  import opened Flow
  import opened Machine

  /** Nothing pushed, posted, delivered, queued or woken is ever taken back. */
  lemma {:induction false} RunsExtendHistory(s: World, steps: seq<Step>)
    requires CanRun(s, steps)
    ensures HistoryGrew(s, After(s, steps))
    decreases |steps|
  {
    hide Owners, Targets;
    if steps != [] {
      var s' := Apply(s, steps[0]);
      assert HistoryGrew(s, s') by { StepExtendsHistory(s, steps[0]); }
      RunsExtendHistory(s', steps[1..]);
      HistoryGrewTransitive(s, s', After(s', steps[1..]));
    }
  }

  lemma {:induction false} StepExtendsHistory(s: World, step: Step)
    requires Enabled(s, step)
    ensures HistoryGrew(s, Apply(s, step))
  {
    hide Owners, Targets;
  }

  /**
   No lost wakeup. While a request is queued, the event fd is readable or some thread is about to write it, and
   a poll is queued, held, fired or being handled.
   */
  lemma {:induction false} NoLostWakeup(s: World)
    requires Reachable(s) && s.wakes.queue != []
    ensures
      && (s.wakes.count > 0 || s.wakes.writers > 0)
      && InRange(s.traffic.places) && (s.wakes.owed || Outstanding(s.traffic.places)[Event] == 1)
  {
    hide Reachable, Owners, Targets, Outstanding, Fired;
    ReachableIsSound(s);
  }

  /** Outside the handling of a poll, exactly one is outstanding while wakes are expected, and none otherwise. */
  lemma {:induction false} OnePollWhileExpected(s: World)
    requires Reachable(s)
    ensures
      && InRange(s.traffic.places)
      && (s.wakes.owed ==> Outstanding(s.traffic.places)[Event] == 0 && s.wakes.expected > 0)
      && (!s.wakes.owed ==> Outstanding(s.traffic.places)[Event] == if s.wakes.expected > 0 then 1 else 0)
  {
    hide Reachable, Owners, Targets, Outstanding, Fired;
    ReachableIsSound(s);
  }

  /** The nonblocking read of the event fd never meets a zero counter, and its writes never overflow by themselves. */
  lemma {:induction false} EventReadNeverFails(s: World)
    requires Reachable(s)
    ensures var w := s.wakes;
      && (Enabled(s, ClearEvent) ==> w.count > 0)
      && w.count + w.writers <= |w.pushed|
  {
    hide Reachable, Owners, Targets, Outstanding, Fired;
    ReachableIsSound(s);
  }

  /** Wake requests are completed once each, in the order they were queued, and the counters never underflow. */
  lemma {:induction false} WakesInOrder(s: World)
    requires Reachable(s)
    ensures
      && s.wakes.pushed == s.wakes.done + s.wakes.drained + s.wakes.queue
      && s.wakes.expected - s.wakes.woken == |s.wakes.drained| + |s.wakes.queue| + s.wakes.prepared
    ensures forall end: nat :: Enabled(s, Claim(end)) ==>
              s.traffic.toComplete >= end - s.traffic.places.claimed
  {
    hide Reachable, Owners, Targets, Outstanding, Fired;
    ReachableIsSound(s);
  }

  /** A request is completed at most as often as it was started, and as often exactly when none of it is outstanding. */
  lemma {:induction false} CompletedOncePerStart(s: World, r: Request)
    requires Reachable(s)
    ensures var t := s.traffic;
      && InRange(t.places)
      && Owners(t.places.pushed)[r] == Targets(t.completed)[r] + Outstanding(t.places)[r]
  {
    hide Reachable, Owners, Targets, Outstanding, Fired;
    ReachableIsSound(s);
  }

  /** Operations of `r` that a step starts; a cancel is not one. */
  ghost function StartOf(step: Step, r: Request): nat {
    if step.Push? && !step.e.opcode.CancelRequest? && step.e.userData == r then 1 else 0
  }

  /** How many operations of `r` the steps of a run start. */
  ghost function Starts(steps: seq<Step>, r: Request): nat {
    if steps == [] then 0 else StartOf(steps[0], r) + Starts(steps[1..], r)
  }

  /** Cancels are carried by the shared no-op request, whatever their target. */
  ghost predicate CancelsShareNoOp(steps: seq<Step>) {
    forall step | step in steps && step.Push? && step.e.opcode.CancelRequest? :: step.e.userData == NoOp
  }

  lemma {:induction false} StepStarts(s: World, step: Step, r: Request)
    requires Enabled(s, step) && (step.Push? && step.e.opcode.CancelRequest? ==> step.e.userData != r)
    ensures Owners(Apply(s, step).traffic.places.pushed)[r] == Owners(s.traffic.places.pushed)[r] + StartOf(step, r)
  {
    hide Owners, Targets;
    if step.Push? {
      OwnersAppend(s.traffic.places.pushed, step.e, 0);
    }
  }

  lemma {:induction false} RunStarts(s: World, steps: seq<Step>, r: Request)
    requires CanRun(s, steps) && CancelsShareNoOp(steps) && r != NoOp
    ensures Owners(After(s, steps).traffic.places.pushed)[r] == Owners(s.traffic.places.pushed)[r] + Starts(steps, r)
    decreases |steps|
  {
    hide Owners, Apply, Enabled, StartOf;
    if steps != [] {
      StepStarts(s, steps[0], r);
      RunStarts(Apply(s, steps[0]), steps[1..], r);
    }
  }

  /**
   Over every run, with any number of cancels among its steps, a request is completed or outstanding once more for
   each time it was started: cancels change neither how often their target completes nor what is outstanding of it.
   */
  lemma {:induction false} CancelsAreNoOps(s: World, steps: seq<Step>, r: Request)
    requires Reachable(s) && CanRun(s, steps) && CancelsShareNoOp(steps) && r != NoOp
    ensures var (t, t') := (s.traffic, After(s, steps).traffic);
      && InRange(t.places) && InRange(t'.places)
      && Targets(t'.completed)[r] + Outstanding(t'.places)[r] ==
         Targets(t.completed)[r] + Outstanding(t.places)[r] + Starts(steps, r)
  {
    hide Reachable, Owners, Targets, Outstanding, Fired, Apply, Enabled, CanRun, After, Starts, CancelsShareNoOp;
    ReachableIsSound(s);
    RunsKeepSound(s, steps);
    RunStarts(s, steps, r);
  }

  /** How many calls of `wake` a run begins. */
  ghost function WakeCalls(steps: seq<Step>): nat {
    if steps == [] then 0 else (if steps[0].Enqueue? then 1 else 0) + WakeCalls(steps[1..])
  }

  /** How many calls of `wake` return: those that found a request queued at once, the others after signalling. */
  ghost function WakeReturns(s: World, steps: seq<Step>): nat
    requires CanRun(s, steps)
    decreases |steps|
  {
    if steps == [] then 0
    else (if steps[0].Signal? || (steps[0].Enqueue? && s.wakes.queue != []) then 1 else 0) +
         WakeReturns(Apply(s, steps[0]), steps[1..])
  }

  lemma {:induction false} WritersAreUnreturnedWakes(s: World, steps: seq<Step>)
    requires CanRun(s, steps)
    ensures After(s, steps).wakes.writers + WakeReturns(s, steps) == s.wakes.writers + WakeCalls(steps)
    decreases |steps|
  {
    hide Owners, Targets;
    if steps != [] {
      WritersAreUnreturnedWakes(Apply(s, steps[0]), steps[1..]);
    }
  }

  /** Once no wake is expected, other threads are done with the engine exactly when every call of `wake` returned. */
  lemma {:induction false} UntouchedIffWakesReturned(steps: seq<Step>)
    requires CanRun(Start(), steps) && After(Start(), steps).wakes.expected == 0
    ensures !Touchable(After(Start(), steps)) <==> WakeReturns(Start(), steps) == WakeCalls(steps)
  {
    hide Owners, Targets, Outstanding, Fired, CanRun, After, WakeCalls, WakeReturns;
    RunsAreSound(steps);
    WritersAreUnreturnedWakes(Start(), steps);
  }

  /** A pass that finds nothing queued, as after a late write, resumes nothing and leaves one poll armed. */
  lemma {:induction false} LateWriteIsHarmless(s: World, poll: Sqe)
    requires Sound(s) && poll.userData == Event
    requires s.wakes.ready && s.wakes.queue == [] && s.wakes.drained == [] && s.wakes.woken == 0
    ensures CanRun(s, [ClearEvent, EndPass, Step.Push(poll)])
    ensures var s' := After(s, [ClearEvent, EndPass, Step.Push(poll)]);
      && Sound(s')
      && s'.wakes == s.wakes.(owed := false, ready := false, count := 0)
      && s'.traffic.completed == s.traffic.completed
      && Outstanding(s'.traffic.places)[Event] == 1
  {
    hide Owners, Targets, Outstanding, Fired;
    StepKeeps(s, ClearEvent);
    var s1 := Apply(s, ClearEvent);
    StepKeeps(s1, EndPass);
    var s2 := Apply(s1, EndPass);
    assert s2.wakes == s.wakes.(ready := false, count := 0);
    StepKeeps(s2, Step.Push(poll));
    var s3 := Apply(s2, Step.Push(poll));
    assert [ClearEvent, EndPass, Step.Push(poll)][1..] == [EndPass, Step.Push(poll)];
    assert [EndPass, Step.Push(poll)][1..] == [Step.Push(poll)];
    assert [Step.Push(poll)][1..] == [];
    assert CanRun(s2, [Step.Push(poll)]) && After(s2, [Step.Push(poll)]) == s3;
    assert CanRun(s1, [EndPass, Step.Push(poll)]) && After(s1, [EndPass, Step.Push(poll)]) == s3;
  }

  const POLL: Sqe := Sqe(PollEventFd, Event)

  lemma {:induction false} Reach(s: World, step: Step) returns (s': World)
    requires Reachable(s) && Enabled(s, step)
    ensures Reachable(s') && s' == Apply(s, step)
  {
    hide Apply, Enabled;
    StepReaches(s, step);
    s' := Apply(s, step);
  }

  /** Two wakes are prepared, and the kernel holds the poll. */
  lemma {:induction false} PollIsHeld() returns (s: World)
    ensures Reachable(s)
    ensures s.traffic == Traffic(Places([POLL], 1, multiset{Event}, [], [], 0, []), 0, 1, 0, [])
    ensures s.wakes == Wakes(2, false, false, [], 0, 2, 0, [], 0, [], [])
  {
    hide Reachable, Owners, Targets;
    StartIsReachable();
    s := Reach(Start(), Prepare);
    s := Reach(s, Step.Push(POLL));
    s := Reach(s, Prepare);
    s := Reach(s, BeginEnter);
    assert s.traffic.places.pushed == [POLL];
    assert Owners(s.traffic.places.pushed[0..1]) == multiset{Event} by {
      OwnersOne(POLL);
      assert s.traffic.places.pushed[0..1] == [POLL];
    }
    s := Reach(s, Step.Accept(1));
  }

  /** The first wake is queued and signalled, and the poll has fired. */
  lemma {:induction false} PollFires() returns (s: World)
    ensures Reachable(s)
    ensures s.traffic == Traffic(Places([POLL], 1, multiset{}, [], [READY], 0, []), 0, 1, 0, [])
    ensures s.wakes == Wakes(2, false, false, [0], 1, 1, 0, [], 0, [0], [])
  {
    hide Reachable, Owners, Targets;
    s := PollIsHeld();
    s := Reach(s, Enqueue(0));
    s := Reach(s, Signal);
    s := Reach(s, Step.Post(READY));
  }

  /**
   That condition can fail with nothing else left: the pass the first wake's signal started has completed the second
   wake as well, whose thread is still about to write the event fd.
   */
  lemma {:induction false} WriterOutlivesDrain() returns (s: World)
    ensures Reachable(s) && s.wakes.writers == 1 && Touchable(s)
    ensures s.traffic.toSubmit == 0 == s.traffic.toComplete && s.traffic.entering == 0 && s.traffic.places.batch == []
    ensures s.wakes == Wakes(0, false, false, [], 0, 0, 1, [], 0, [0, 1], [0, 1])
  {
    hide Reachable, Owners, Targets;
    s := PollFires();
    assert [READY][0..1] == [READY];
    s := Reach(s, Claim(1));
    s := Reach(s, Step.Deliver);
    s := Reach(s, Drain(1));
    s := Reach(s, Step.Resume);
    s := Reach(s, Enqueue(1));
    s := Reach(s, Drain(1));
    s := Reach(s, Step.Resume);
    s := Reach(s, ClearEvent);
    s := Reach(s, EndPass);
  }
}

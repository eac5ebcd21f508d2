/** No wake is stuck: what is queued can always still be completed. */
module Progress {
  import opened Entries
  import opened Flow
  import opened Machine

  /**
   A step that brings no new work: no task starts an operation or prepares a wake and no thread queues one. The
   kernel posts only to an empty ring, so the step is possible whatever the capacity.
   */
  ghost predicate Quiet(s: World, step: Step) {
    && !step.Enqueue? && !step.Prepare? && !step.Spill? && (step.Push? ==> step.e.userData == Event)
    && (step.Post? || step.Unspill? ==>
          s.traffic.places.claimed == |s.traffic.places.posted| && s.traffic.places.batch == [])
  }

  ghost predicate QuietRun(s: World, steps: seq<Step>)
    requires CanRun(s, steps)
    decreases |steps|
  {
    steps == [] || (Quiet(s, steps[0]) && QuietRun(Apply(s, steps[0]), steps[1..]))
  }

  /** Some run of quiet steps leads from `s` to `s'`. */
  ghost predicate Leads(s: World, s': World) {
    exists steps :: CanRun(s, steps) && After(s, steps) == s' && QuietRun(s, steps)
  }

  lemma {:induction false} LeadsNowhere(s: World)
    ensures Leads(s, s)
  {
    hide Apply, Enabled;
    assert CanRun(s, []) && After(s, []) == s && QuietRun(s, []);
  }

  lemma {:induction false} QuietRunExtends(s: World, steps: seq<Step>, last: Step)
    requires CanRun(s, steps) && QuietRun(s, steps) && Enabled(After(s, steps), last) && Quiet(After(s, steps), last)
    ensures CanRun(s, steps + [last]) && QuietRun(s, steps + [last])
    decreases |steps|
  {
    hide Apply, Enabled, Quiet;
    RunExtends(s, steps, last);
    if steps == [] {
      assert steps + [last] == [last];
      assert [last][1..] == [];
      assert CanRun(Apply(s, last), []) && QuietRun(Apply(s, last), []);
    } else {
      QuietRunExtends(Apply(s, steps[0]), steps[1..], last);
      assert (steps + [last])[1..] == steps[1..] + [last];
    }
  }

  /** One more quiet step, which keeps the machine sound. */
  lemma {:induction false} Take(s: World, s0: World, step: Step) returns (s': World)
    requires Leads(s, s0) && Sound(s0) && Enabled(s0, step) && Quiet(s0, step)
    ensures Leads(s, s') && Sound(s') && s' == Apply(s0, step)
  {
    hide Apply, Enabled, Quiet, Sound;
    var steps :| CanRun(s, steps) && After(s, steps) == s0 && QuietRun(s, steps);
    RunExtends(s, steps, step);
    QuietRunExtends(s, steps, step);
    StepKeeps(s0, step);
    s' := Apply(s0, step);
  }

  /** Between callbacks of the loop. */
  ghost predicate OutsideCallbacks(s: World) {
    && Sound(s) && s.traffic.entering == 0
    && !s.wakes.owed && !s.wakes.ready && s.wakes.drained == [] && s.wakes.woken == 0
  }

  /** Between turns of the loop. */
  ghost predicate Resting(s: World) {
    OutsideCallbacks(s) && s.traffic.places.batch == []
  }

  /** The event fd is readable, once a thread about to write it has done so. */
  lemma {:induction false} BecomesReadable(s: World, s0: World) returns (s': World)
    requires Leads(s, s0) && Resting(s0) && s0.wakes.queue != []
    ensures Leads(s, s') && Resting(s') && s'.wakes.count > 0
    ensures s'.wakes == s0.wakes.(count := s'.wakes.count, writers := s'.wakes.writers)
  {
    hide Leads, Owners, Targets, Outstanding, Fired;
    s' := s0;
    if s0.wakes.count == 0 {
      s' := Take(s, s0, Signal);
    }
  }

  /** Everything queued is accepted by the kernel. */
  lemma {:induction false} BecomesSubmitted(s: World, s0: World) returns (s': World)
    requires Leads(s, s0) && Resting(s0)
    ensures Leads(s, s') && Resting(s') && s'.wakes == s0.wakes
    ensures s'.traffic.places.consumed == |s'.traffic.places.pushed|
    ensures Clean(s0.traffic.places) ==> Clean(s'.traffic.places)
  {
    hide Leads, Owners, Targets, Outstanding, Fired;
    var s1 := Take(s, s0, BeginEnter);
    s' := Take(s, s1, Step.Accept(s1.traffic.entering));
  }

  /** Delivering a batch reaches the completion of the poll, or the end of the batch. */
  lemma {:induction false} DeliverBatch(s: World, s0: World) returns (s': World)
    requires Leads(s, s0) && OutsideCallbacks(s0)
    ensures Leads(s, s') && Sound(s') && s'.traffic.entering == 0
    ensures s'.wakes == s0.wakes.(owed := s'.wakes.owed, ready := s'.wakes.ready)
    ensures !s'.wakes.owed ==> Resting(s')
    ensures s'.wakes.owed ==>
              exists c | c in s0.traffic.places.batch :: c.userData == Event && (c == READY <==> s'.wakes.ready)
    ensures SamePlaces(s0, s')
    decreases |s0.traffic.places.batch|
  {
    hide Leads, Owners, Targets, Outstanding, Fired;
    var batch := s0.traffic.places.batch;
    if batch == [] {
      return s0;
    }
    var s1 := Take(s, s0, Deliver);
    if batch[0].userData == Event {
      assert batch[0] in batch;
      return s1;
    }
    s' := DeliverBatch(s, s1);
    assert forall c | c in batch[1..] :: c in batch;
  }

  /** Only the batch was delivered from. */
  ghost predicate SamePlaces(a: World, b: World) {
    var (p, q) := (a.traffic.places, b.traffic.places);
    && q.pushed == p.pushed && q.consumed == p.consumed && q.held == p.held && q.overflow == p.overflow
    && q.posted == p.posted && q.claimed == p.claimed && |q.batch| <= |p.batch|
  }

  /** No completion of the poll that reports anything but data is on its way. */
  ghost predicate Clean(p: Places)
    requires InRange(p)
  {
    && (forall c | c in p.overflow :: c.userData == Event ==> c == READY)
    && (forall c | c in p.posted[p.claimed..] :: c.userData == Event ==> c == READY)
  }

  lemma {:induction false} OnlyHeld(p: Places)
    requires InRange(p) && p.consumed == |p.pushed| && p.overflow == [] && p.claimed == |p.posted| && p.batch == []
    ensures Outstanding(p) == p.held
  {
  }

  /** With everything submitted, running what there is leads to the completion of the poll. */
  lemma {:induction false} ReachesPoll(s: World, s0: World) returns (s': World)
    requires Leads(s, s0) && Resting(s0) && s0.wakes.expected > 0 && s0.wakes.count > 0
    requires s0.traffic.places.consumed == |s0.traffic.places.pushed|
    ensures Leads(s, s') && Sound(s') && s'.traffic.entering == 0
    ensures s'.wakes == s0.wakes.(owed := true, ready := s'.wakes.ready)
    ensures Clean(s0.traffic.places) ==> s'.wakes.ready
    decreases |s0.traffic.places.overflow|, s0.traffic.places.held[Event],
              |s0.traffic.places.posted| - s0.traffic.places.claimed
  {
    hide Leads, Owners, Targets, Outstanding, Fired;
    var p := s0.traffic.places;
    if p.claimed < |p.posted| {
      var s1 := Take(s, s0, Claim(|p.posted|));
      var window := p.posted[p.claimed..];
      assert p.posted[p.claimed..|p.posted|] == window;
      assert forall c | c in Rotation(window) :: c in window;
      s' := DeliverBatch(s, s1);
      if !s'.wakes.owed {
        s' := ReachesPoll(s, s');
      }
    } else if p.overflow != [] {
      var s1 := Take(s, s0, Unspill);
      s' := ReachesPoll(s, s1);
    } else {
      OnlyHeld(p);
      var s1 := Take(s, s0, Step.Post(READY));
      s' := ReachesPoll(s, s1);
    }
  }

  /** A pass takes the queue, resumes what it took, and clears the event fd. */
  lemma {:induction false} PassCompletes(s: World, s0: World) returns (s': World)
    requires Leads(s, s0) && Sound(s0) && s0.wakes.ready && s0.wakes.drained == [] && s0.wakes.woken == 0
    ensures Leads(s, s') && Sound(s') && s'.wakes.queue == [] && s'.wakes.pushed == s'.wakes.done == s0.wakes.pushed
  {
    hide Leads, Owners, Targets, Outstanding, Fired;
    var s1 := Take(s, s0, Drain(|s0.wakes.queue|));
    var s2 := ResumesAll(s, s1);
    var s3 := Take(s, s2, ClearEvent);
    s' := Take(s, s3, EndPass);
  }

  lemma {:induction false} ResumesAll(s: World, s0: World) returns (s': World)
    requires Leads(s, s0) && Sound(s0)
    ensures Leads(s, s') && Sound(s') && s'.wakes.drained == [] && s'.wakes.ready == s0.wakes.ready
    ensures s'.wakes.owed == s0.wakes.owed && s'.wakes.queue == s0.wakes.queue && s'.wakes.pushed == s0.wakes.pushed
    decreases |s0.wakes.drained|
  {
    hide Leads, Owners, Targets, Outstanding, Fired;
    s' := s0;
    if s0.wakes.drained != [] {
      var s1 := Take(s, s0, Step.Resume);
      s' := ResumesAll(s, s1);
    }
  }

  /** A queued poll is the only trace of one. */
  lemma {:induction false} QueuedPollIsAlone(p: Places)
    requires InRange(p) && Outstanding(p)[Event] == 1 && Owners(p.pushed[p.consumed..])[Event] >= 1
    ensures Clean(p) && forall c | c in p.batch :: c.userData != Event
  {
    hide Owners, Targets;
    forall c: Cqe | c.userData == Event
      ensures c !in p.overflow && c !in p.posted[p.claimed..] && c !in p.batch
    {
      if c in p.overflow {
        TargetsCounts(p.overflow, c);
      }
      if c in p.posted[p.claimed..] {
        TargetsCounts(p.posted[p.claimed..], c);
      }
      if c in p.batch {
        TargetsCounts(p.batch, c);
      }
    }
  }

  /** A poll that reported no data is armed again, the batch finished, and the poll's next completion reports data. */
  lemma {:induction false} RearmsAndRests(s: World, s0: World) returns (s': World)
    requires Leads(s, s0) && Sound(s0) && s0.traffic.entering == 0 && s0.wakes.drained == [] && s0.wakes.woken == 0
    requires s0.wakes.owed && !s0.wakes.ready
    ensures Leads(s, s') && Resting(s') && s'.wakes == s0.wakes.(owed := false) && Clean(s'.traffic.places)
  {
    hide Leads, Owners, Targets, Outstanding, Fired;
    var poll := Sqe(PollEventFd, Event);
    var s1 := Take(s, s0, Step.Push(poll));
    var p := s0.traffic.places;
    OwnersAppend(p.pushed, poll, p.consumed);
    QueuedPollIsAlone(s1.traffic.places);
    s' := DeliverBatch(s, s1);
  }

  /**
   From any sound state between turns, and so from any reachable one, a run without any new work leads to a state
   where every wake request ever queued has been completed, each once and in order.
   */
  lemma {:induction false} QueuedWakesCanComplete(s: World) returns (s': World)
    requires Resting(s)
    ensures Leads(s, s') && Sound(s') && s'.wakes.queue == [] && s'.wakes.done == s'.wakes.pushed == s.wakes.pushed
  {
    hide Leads, Owners, Targets, Outstanding, Fired;
    LeadsNowhere(s);
    if s.wakes.queue == [] {
      return s;
    }
    var s1 := BecomesReadable(s, s);
    var s2 := BecomesSubmitted(s, s1);
    var s3 := ReachesPoll(s, s2);
    if !s3.wakes.ready {
      var s4 := RearmsAndRests(s, s3);
      var s5 := BecomesSubmitted(s, s4);
      s3 := ReachesPoll(s, s5);
    }
    s' := PassCompletes(s, s3);
  }
}

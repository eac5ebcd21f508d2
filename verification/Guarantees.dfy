/** What the machine's theorems say of the engine's own variables. */
module Guarantees {
  import opened Word32
  import opened Entries
  import opened Flow
  import opened Machine
  import opened SubmissionRing
  import opened CompletionRing
  import opened Engine
  import Safety
  import Progress

  /** Between calls the ring is short of full, its words differ by `to_submit`, and its slots hold what is queued. */
  lemma SubmissionRingAgrees(e: IoUring)
    requires e.Ready()
    ensures e.toSubmit < e.sq.Capacity() && WrappingSub(e.sq.tail, e.sq.khead) == e.toSubmit
    ensures forall i | e.sq.consumed <= i < e.sq.consumed + e.toSubmit ::
              i < |e.sq.pushed| && e.sq.entries[Low(i, e.sq.bits)] == e.sq.pushed[i]
  {
    hide Reachable, Noticed, Low, Pow2, Word, WrappingSub;
    Counts(e.world);
    WordsTrackIndices(e.sq.consumed, |e.sq.pushed|);
  }

  /** At every point where it can be overtaken: a queued wake is signalled and has a poll to be found by. */
  lemma EngineLosesNoWakeup(e: IoUring)
    requires e.Inv() && e.wakeQueue != []
    ensures e.eventCount > 0 || e.world.wakes.writers > 0
    ensures InRange(e.Ops()) && (e.world.wakes.owed || Outstanding(e.Ops())[Event] == 1)
    ensures e.expectedWakes > 0
  {
    hide Reachable, Noticed, Owners, Targets, Outstanding, SubmissionQueue.Valid, CompletionQueue.Valid;
    Safety.NoLostWakeup(e.world);
    Counts(e.world);
  }

  /** An idle engine can still complete every wake queued to it, with no new work. */
  lemma EngineCanCompleteWakes(e: IoUring) returns (s: World)
    requires e.Idle()
    ensures Progress.Leads(e.world, s) && s.wakes.queue == [] && s.wakes.done == e.world.wakes.pushed
  {
    hide Reachable, Noticed, Sound, SubmissionQueue.Valid, CompletionQueue.Valid, Progress.Leads;
    ReachableIsSound(e.world);
    s := Progress.QueuedWakesCanComplete(e.world);
  }
}

/** The runtime: spawned workers, and the rounds of interrupts that end them when it is dropped. */
module Runtimes {
  import opened Word32
  import opened Entries
  import opened Machine
  import opened Flow
  import opened SubmissionRing
  import opened CompletionRing
  import opened Engine
  import opened Timers
  import opened Drivers
  import opened Lists

  /**
   One round of a drop: the workers it started with, who had spawned and finished by then, whom it interrupted, in
   order, and who had finished when its interrupts were done.
   */
  datatype Round = Round(start: seq<nat>, spawned: nat, dead: set<nat>, hits: seq<nat>, finished: set<nat>)

  /** A round starts with every live worker and interrupts each once, in list order, unless it finished first. */
  ghost predicate RoundSound(r: Round) {
    && r.start != [] && (forall w: nat :: w in r.start <==> w < r.spawned && w !in r.dead)
    && Within(r.hits, r.start) && Distinct(r.hits)
    && (forall w | w in r.start :: w in r.hits || w in r.finished)
  }

  /** All interrupts of the rounds, in order. */
  ghost function Hits(rounds: seq<Round>): seq<nat> {
    if rounds == [] then [] else Hits(rounds[..|rounds| - 1]) + rounds[|rounds| - 1].hits
  }

  class Runtime {
    const driver: Driver

    // The list of spawned workers, and the list the current round pops from. Workers are numbered as they spawn.
    var workers: seq<nat>
    var local: seq<nat>
    var spawned: nat

    ghost var finished: set<nat>

    // Who was interrupted, in order, and which workers had finished by each interrupt.
    ghost var interrupted: seq<nat>
    ghost var gone: seq<set<nat>>

    /** The live workers are exactly those on the two lists, each on one and once; only live ones were interrupted. */
    ghost predicate Lists()
      reads this
    {
      && Distinct(workers) && Distinct(local) && (forall w | w in workers :: w !in local)
      && (forall w | w in finished :: w < spawned)
      && (forall w: nat :: (w in workers || w in local) <==> (w < spawned && w !in finished))
      && |gone| == |interrupted| && (forall i | 0 <= i < |gone| :: interrupted[i] !in gone[i] && gone[i] <= finished)
    }

    ghost predicate Inv()
      reads this, driver, driver.engine, driver.engine.sq, driver.engine.sq.entries, driver.engine.sq.index,
            driver.engine.cq, driver.engine.cq.entries
    {
      Lists() && driver.Inv() && !driver.exiting
    }

    /** Workers only spawned and finished: the round's list keeps its order, and lost only finished ones. */
    twostate predicate WorkersMoved()
      reads this
    {
      && Within(local, old(local)) && old(finished) <= finished && interrupted == old(interrupted) && gone == old(gone)
      && forall w | w in old(local) :: w in local || w in finished
    }

    constructor (driver: Driver)
      requires driver.Inv() && !driver.exiting
      ensures Inv() && this.driver == driver && workers == local == interrupted == [] && finished == {}
    {
      this.driver := driver;
      workers, local, spawned := [], [], 0;
      finished, interrupted, gone := {}, [], [];
    }

    /** A spawned task appends its worker to the runtime's list. */
    method Spawn() returns (w: nat)
      requires Lists()
      modifies `workers, `spawned
      ensures Lists() && WorkersMoved() && workers == old(workers) + [w] && w == old(spawned)
    {
      hide Within;
      WithinItself(local);
      w := spawned;
      DistinctAppend(workers, w);
      workers := workers + [w];
      spawned := spawned + 1;
    }

    /** A finished worker unlinks itself from whichever list it is on. */
    method Finish(w: nat)
      requires Lists() && w < spawned && w !in finished
      modifies `workers, `local, `finished
      ensures Lists() && WorkersMoved() && finished == old(finished) + {w}
      ensures w in old(workers) ==> local == old(local) && Within(workers, old(workers))
      ensures w in old(local) ==> workers == old(workers)
    {
      hide Within;
      WithinItself(local);
      if w in workers {
        var i :| 0 <= i < |workers| && workers[i] == w;
        UnlinkWithin(workers, i);
        UnlinkIsRemoval(workers, i);
        workers := Unlink(workers, i);
      } else {
        var i :| 0 <= i < |local| && local[i] == w;
        UnlinkWithin(local, i);
        UnlinkIsRemoval(local, i);
        local := Unlink(local, i);
      }
      finished := finished + {w};
    }

    /** Any number of workers spawn and finish. */
    method MoveWorkers()
      requires Lists()
      modifies `workers, `local, `spawned, `finished
      ensures Lists() && WorkersMoved()
    {
      hide Within, Runtime.Lists;
      WithinItself(local);
      var steps: nat :| true;
      for k := 0 to steps
        invariant Lists() && WorkersMoved()
      {
        ghost var before := local;
        WithinItself(local);
        if * {
          var w := Spawn();
        } else {
          var w: nat := *;
          if w in workers || w in local {
            assert w < spawned && w !in finished by { LiveIsOnList(w); }
            Finish(w);
          }
        }
        WithinTransitive(local, before, old(local));
      }
    }

    lemma LiveIsOnList(w: nat)
      requires Lists()
      ensures (w in workers || w in local) <==> (w < spawned && w !in finished)
    {
    }

    /** Interrupts a worker: its context and other tasks run, finish and spawn. */
    method Interrupt(w: nat) returns (r: Status)
      requires Inv() && w in workers
      modifies `workers, `local, `spawned, `finished, `interrupted, `gone,
        driver, driver.engine, driver.engine.sq, driver.engine.sq.entries, driver.engine.cq, driver.engine.cq.entries
      ensures r.Ok? || (r.Abort? && driver.engine.faulted)
      ensures r.Ok? ==> Inv() && interrupted == old(interrupted) + [w] && gone == old(gone) + [old(finished)]
      ensures r.Ok? ==> driver.parks == old(driver.parks)
      ensures r.Ok? ==> Within(local, old(local)) && old(finished) <= finished
      ensures r.Ok? ==> forall v | v in old(local) :: v in local || v in finished
    {
      hide Within, Driver.Held;
      interrupted, gone := interrupted + [w], gone + [finished];
      MoveWorkers();
      r := driver.RunTask();
    }

    /**
     One round: pops every worker off the round's list, puts it back on the runtime's and interrupts it. The
     ghost result is who was interrupted, in order.
     */
    method InterruptRound() returns (r: Status, ghost hits: seq<nat>)
      requires Inv()
      modifies `workers, `local, `spawned, `finished, `interrupted, `gone,
        driver, driver.engine, driver.engine.sq, driver.engine.sq.entries, driver.engine.cq, driver.engine.cq.entries
      ensures r.Ok? || (r.Abort? && driver.engine.faulted)
      ensures r.Ok? ==> Inv() && local == [] && interrupted == old(interrupted) + hits
      ensures r.Ok? ==> driver.parks == old(driver.parks)
      ensures r.Ok? ==> old(finished) <= finished && old(gone) <= gone
      ensures r.Ok? ==> (forall i | |old(gone)| <= i < |gone| :: old(finished) <= gone[i])
      ensures r.Ok? ==> forall i | 0 <= i < |hits| :: hits[i] !in gone[|old(gone)| + i]
      ensures r.Ok? ==> Within(hits, old(local)) && Distinct(hits)
      ensures r.Ok? ==> forall w | w in old(local) :: w in hits || w in finished
    {
      hide Within, Driver.Held;
      hits := [];
      ghost var start := local;
      WithinItself(start);
      assert hits + local == start;
      while local != []
        invariant Inv() && interrupted == old(interrupted) + hits && Within(hits + local, start)
        invariant forall w | w in start :: w in hits || w in local || w in finished
        invariant old(gone) <= gone && old(finished) <= finished && driver.parks == old(driver.parks)
        invariant forall i | |old(gone)| <= i < |gone| :: old(finished) <= gone[i]
        decreases |local|
      {
        var w := PopFront();
        ghost var rest := local;
        assert hits + ([w] + rest) == hits + [w] + rest;
        hits := hits + [w];
        r := Interrupt(w);
        if r.Abort? {
          return;
        }
        WithinPrefixed(hits, local, rest);
        WithinTransitive(hits + local, hits + rest, start);
        WithinShorter(local, rest);
      }
      assert hits + local == hits;
      WithinDistinct(hits, start);
      r := Ok;
    }

    /** Moves the first worker of the round's list to the end of the runtime's. */
    method PopFront() returns (w: nat)
      requires Inv() && local != []
      modifies `workers, `local
      ensures Inv() && old(local) == [w] + local && workers == old(workers) + [w]
    {
      hide Driver.Held;
      w := local[0];
      DistinctTail(local);
      DistinctAppend(workers, w);
      local := local[1..];
      workers := workers + [w];
    }

    /** Takes all workers onto the round's list. */
    method MoveElements()
      requires Inv() && local == []
      modifies `workers, `local
      ensures Inv() && workers == [] && local == old(workers)
    {
      hide Driver.Held;
      local := workers;
      workers := [];
    }

    /** Nothing is pending in the driver or outstanding in its engine. */
    ghost predicate Drained()
      reads driver, driver.engine, driver.engine.sq, driver.engine.cq
    {
      driver.timers == {} && driver.EngineDrained()
    }

    /** One round of dropping: interrupt every worker, then drain the driver, while workers finish and spawn. */
    method DropRound(patience: nat) returns (r: Status, returned: bool, ghost hits: seq<nat>, ghost over: set<nat>)
      requires Inv()
      modifies `workers, `local, `spawned, `finished, `interrupted, `gone,
        driver, driver.engine, driver.engine.sq, driver.engine.sq.entries, driver.engine.cq, driver.engine.cq.entries
      ensures r.Ok? || (r.Abort? && driver.engine.faulted)
      ensures r.Ok? ==> interrupted == old(interrupted) + hits && Within(hits, old(local)) && Distinct(hits)
      ensures r.Ok? ==> over <= finished && forall w | w in old(local) :: w in hits || w in over
      ensures r.Ok? ==> Lists() && old(gone) <= gone && old(finished) <= finished
      ensures r.Ok? && returned ==> Inv() && local == [] && Drained()
      ensures r.Ok? ==> old(driver.parks) <= driver.parks
      ensures r.Ok? && !returned ==> driver.exiting && |driver.parks| == |old(driver.parks)| + patience
    {
      hide Within, Driver.Held, Driver.EngineDrained;
      returned, over := false, {};
      r, hits := InterruptRound();
      if r.Abort? {
        return;
      }
      over := finished;
      MoveWorkers();
      WithinMembersOfEmpty(local);
      r, returned := driver.Exit(patience);
    }

    /**
     Drops the runtime: rounds until none of the workers is live. Looks at `patience` rounds. It may return with
     work left in the driver only when no worker was there to begin with.
     */
    method Drop(patience: nat, exitPatience: nat) returns (r: Status, returned: bool, ghost rounds: seq<Round>)
      requires Inv() && local == []
      modifies `workers, `local, `spawned, `finished, `interrupted, `gone,
        driver, driver.engine, driver.engine.sq, driver.engine.sq.entries, driver.engine.cq, driver.engine.cq.entries
      ensures r.Ok? || (r.Abort? && driver.engine.faulted)
      ensures r.Ok? && returned ==> Inv() && workers == local == [] && forall w | 0 <= w < spawned :: w in finished
      ensures r.Ok? ==> interrupted == old(interrupted) + Hits(rounds)
      ensures r.Ok? ==> forall round | round in rounds :: RoundSound(round) && round.finished <= finished
      ensures r.Ok? && rounds != [] ==> rounds[0].start == old(workers)
      ensures r.Ok? && old(workers) != [] && patience > 0 ==> rounds != []
      ensures old(workers) == [] && patience > 0 ==> r.Ok? && returned && rounds == []
      ensures r.Ok? && !returned ==>
                |rounds| == patience || (driver.exiting && |driver.parks| >= |old(driver.parks)| + exitPatience)
      ensures r.Ok? && returned ==> (Drained() <==> old(workers) != [] || old(Drained()))
    {
      hide Within, Distinct, Driver.Held, Driver.EngineDrained, RoundSound, Hits;
      rounds := [];
      HitsEmpty();
      for k := 0 to patience
        invariant Inv() && local == [] && |rounds| == k
        invariant interrupted == old(interrupted) + Hits(rounds)
        invariant forall round | round in rounds :: RoundSound(round) && round.finished <= finished
        invariant k > 0 ==> rounds[0].start == old(workers)
        invariant old(driver.parks) <= driver.parks
        invariant k == 0 ==> workers == old(workers) && (Drained() <==> old(Drained()))
        invariant k > 0 ==> old(workers) != [] && Drained()
      {
        MoveElements();
        if local == [] {
          return Ok, true, rounds;
        }
        ghost var start, count, dead := local, spawned, finished;
        ghost var hits, over;
        r, returned, hits, over := DropRound(exitPatience);
        if r.Abort? {
          return r, false, rounds;
        }
        RoundIsSound(start, count, dead, hits, over);
        HitsAppend(rounds, Round(start, count, dead, hits, over));
        rounds := rounds + [Round(start, count, dead, hits, over)];
        if !returned {
          return r, false, rounds;
        }
      }
      return Ok, false, rounds;
    }
  }

  lemma {:induction false} RoundIsSound(start: seq<nat>, spawned: nat, dead: set<nat>, hits: seq<nat>, over: set<nat>)
    requires start != [] && forall w: nat :: w in start <==> w < spawned && w !in dead
    requires Within(hits, start) && Distinct(hits) && forall w | w in start :: w in hits || w in over
    ensures RoundSound(Round(start, spawned, dead, hits, over))
  {
  }

  lemma {:induction false} HitsEmpty()
    ensures Hits([]) == []
  {
  }

  lemma {:induction false} HitsAppend(rounds: seq<Round>, round: Round)
    ensures Hits(rounds + [round]) == Hits(rounds) + round.hits
  {
    assert (rounds + [round])[..|rounds|] == rounds;
  }

  /** An engine with the no-op of one cancel queued. */
  method OneQueued() returns (engine: IoUring)
    ensures fresh(engine) && fresh(engine.sq) && fresh(engine.sq.entries)
    ensures fresh(engine.cq) && fresh(engine.cq.entries)
    ensures engine.Idle() && Owners(engine.sq.pushed) != Targets(engine.world.traffic.completed)
  {
    hide Reachable, Noticed, Owners, Targets, SubmissionQueue.Valid, CompletionQueue.Valid;
    assert Pow2(8) == 256;
    engine := new IoUring(8, 8, true, true, {});
    var r := engine.Cancel(Task(0));
    var sqe := Sqe(CancelRequest(Task(0)), NoOp);
    assert engine.sq.pushed == [sqe];
    OwnersOne(sqe);
    TargetsEmpty();
  }

  /**
   Dropping a runtime with no worker on its list does not drain its driver: the no-op of a cancel, queued in the turn
   in which its target completed, is still outstanding afterwards.
   */
  method UndrainedDrop() returns (runtime: Runtime)
    ensures runtime.Inv() && runtime.workers == [] && !runtime.Drained()
  {
    hide IoUring.Idle, Owners, Targets;
    var engine := OneQueued();
    var driver := new Driver(engine);
    runtime := new Runtime(driver);
    ghost var rounds;
    var r, returned;
    r, returned, rounds := runtime.Drop(1, 0);
  }
}

/** Turns of the loop as values: what they ask the kernel to wait for, and what they deliver. */
module Turns {
  import opened Entries
  import opened Machine
  import opened Timers

  /** The engine, its history of waits, its completion ring, the waits the loop asked for and the clock as read. */
  datatype View = View(
    world: World, waits: seq<Bound>, posted: seq<Cqe>, head: nat, parks: seq<Park>,
    readings: seq<Reading>)

  /** The engine was only called by tasks: nothing was delivered, and nothing waited. */
  ghost predicate EngineCalled(a: View, b: View) {
    && HistoryGrew(a.world, b.world) && a.posted <= b.posted && b.head == a.head
    && b.world.traffic.completed == a.world.traffic.completed && b.waits == a.waits && b.parks == a.parks
    && a.readings <= b.readings
  }

  /**
   A turn ran a timer pass by a fresh clock reading, asked to wait exactly until the first pending expiry, waited no
   longer, and made no other wait.
   */
  ghost predicate TurnPaced(a: View, b: View) {
    && |b.parks| == |a.parks| + 1 && a.parks <= b.parks
    && ParkExact(b.parks[|a.parks|]) && ParkSound(b.parks[|a.parks|])
    && a.readings <= b.readings && Swept(b.parks[|a.parks|], b.readings, |a.readings|)
    && b.waits == a.waits + b.parks[|a.parks|].slept
  }

  /** A turn delivered at least the completions there, each once, the last one first and then the others in order. */
  ghost predicate TurnServed(a: View, b: View) {
    && HistoryGrew(a.world, b.world) && a.posted <= b.posted
    && a.head <= |a.posted| <= b.head <= |b.posted|
    && (a.head == b.head ==> b.world.traffic.completed == a.world.traffic.completed)
    && (a.head < b.head ==>
        b.world.traffic.completed ==
        a.world.traffic.completed + [b.posted[b.head - 1]] + b.posted[a.head..b.head - 1])
  }

  /** The pass of turn `i` went by a clock reading taken since the turn before, or since `a`. */
  ghost predicate SweptAt(a: View, b: View, i: nat)
    requires |a.parks| <= i < |b.parks|
  {
    Swept(b.parks[i], b.readings, if i == |a.parks| then |a.readings| else b.parks[i - 1].read)
  }

  /**
   Every turn ran a timer pass by a clock reading taken since the turn before, asked to wait exactly until the first
   pending expiry and waited no longer; and nothing else waited.
   */
  ghost predicate Paced(a: View, b: View) {
    && a.parks <= b.parks
    && (forall i | |a.parks| <= i < |b.parks| :: ParkExact(b.parks[i]) && ParkSound(b.parks[i]))
    && a.readings <= b.readings
    && (forall i | |a.parks| <= i < |b.parks| :: SweptAt(a, b, i))
    && b.waits == a.waits + Slept(b.parks[|a.parks|..])
  }

  /** Once a turn was made, every completion posted at first has been delivered. */
  ghost predicate Served(a: View, b: View) {
    && HistoryGrew(a.world, b.world) && a.posted <= b.posted && a.head <= |a.posted|
    && (|a.parks| == |b.parks| ==> EngineCalled(a, b))
    && (|a.parks| < |b.parks| ==>
        && |a.posted| <= b.head
        && multiset(a.world.traffic.completed) + multiset(a.posted[a.head..]) <= multiset(b.world.traffic.completed))
  }

  ghost predicate LoopRan(a: View, b: View) {
    Paced(a, b) && Served(a, b)
  }

  lemma {:induction false} ReadingIsNoCall(a: View, b: View)
    requires b == a.(readings := b.readings) && a.readings <= b.readings
    ensures EngineCalled(a, b)
  {
  }

  lemma {:induction false} CallsKeepPace(a: View, b: View)
    requires EngineCalled(a, b)
    ensures b.parks == a.parks && b.waits == a.waits && a.readings <= b.readings
  {
  }

  lemma {:induction false} CallsTransitive(a: View, b: View, c: View)
    requires EngineCalled(a, b) && EngineCalled(b, c)
    ensures EngineCalled(a, c)
  {
  }

  lemma {:induction false} LoopStarts(a: View)
    requires a.head <= |a.posted|
    ensures LoopRan(a, a)
  {
    assert a.parks[|a.parks|..] == [];
  }

  /** Turns followed by calls of tasks are turns. */
  lemma {:induction false} LoopThenCalls(a: View, b: View, c: View)
    requires LoopRan(a, b) && EngineCalled(b, c)
    ensures LoopRan(a, c)
  {
    hide Slept, ParkExact, ParkSound, SweptAt, HistoryGrew;
    HistoryGrewTransitive(a.world, b.world, c.world);
    PassesKept(a, b, c);
  }

  /** So are turns that follow such calls. */
  lemma {:induction false} CallsThenLoop(a: View, b: View, c: View)
    requires EngineCalled(a, b) && LoopRan(b, c) && a.head <= |a.posted|
    ensures LoopRan(a, c)
  {
    hide Slept, ParkExact, ParkSound, HistoryGrew;
    HistoryGrewTransitive(a.world, b.world, c.world);
    forall i | |a.parks| <= i < |c.parks| ensures SweptAt(a, c, i) {
      assert SweptAt(b, c, i);
    }
    if |b.parks| < |c.parks| {
      assert b.posted[b.head..] == a.posted[a.head..] + b.posted[|a.posted|..];
    }
  }

  /** Turns followed by one more, its pass and its wait, are turns. */
  lemma {:induction false} LoopThenTurn(a: View, b: View, b': View, c: View)
    requires LoopRan(a, b) && EngineCalled(b, b') && TurnPaced(b, c) && TurnServed(b', c)
    ensures LoopRan(a, c)
  {
    hide Served, TurnServed, HistoryGrew, ParkExact, ParkSound, Swept, SweptAt;
    PacedThenTurn(a, b, c);
    LoopThenCalls(a, b, b');
    ServedThenTurn(a, b', c);
  }

  lemma {:induction false} PacedThenTurn(a: View, b: View, c: View)
    requires Paced(a, b) && TurnPaced(b, c)
    ensures Paced(a, c)
  {
    hide Slept, ParkExact, ParkSound, SweptAt;
    PassesKept(a, b, c);
    assert SweptAt(a, c, |b.parks|) by { NewPass(a, b, c); }
    assert c.parks == b.parks + [c.parks[|b.parks|]];
    SleptAppend(b.parks, c.parks[|b.parks|], |a.parks|);
  }

  lemma {:induction false} NewPass(a: View, b: View, c: View)
    requires a.parks <= b.parks && a.readings <= b.readings && TurnPaced(b, c)
    requires |a.parks| < |b.parks| ==> b.parks[|b.parks| - 1].read <= |b.readings|
    ensures SweptAt(a, c, |b.parks|)
  {
    hide ParkExact, ParkSound;
  }

  /** More clock readings change nothing about earlier passes. */
  lemma {:induction false} PassesKept(a: View, b: View, c: View)
    requires a.parks <= b.parks <= c.parks && b.readings <= c.readings
    requires forall i | |a.parks| <= i < |b.parks| :: SweptAt(a, b, i)
    ensures forall i | |a.parks| <= i < |b.parks| :: SweptAt(a, c, i)
    ensures |a.parks| < |b.parks| ==> b.parks[|b.parks| - 1].read <= |b.readings|
  {
    forall i | |a.parks| <= i < |b.parks| ensures SweptAt(a, c, i) {
      assert SweptAt(a, b, i);
      assert c.parks[i] == b.parks[i];
    }
    if |a.parks| < |b.parks| {
      assert SweptAt(a, b, |b.parks| - 1);
    }
  }

  lemma {:induction false} ServedThenTurn(a: View, b: View, c: View)
    requires Served(a, b) && TurnServed(b, c) && |a.parks| <= |b.parks| < |c.parks|
    ensures Served(a, c)
  {
    hide HistoryGrew;
    HistoryGrewTransitive(a.world, b.world, c.world);
    if |a.parks| == |b.parks| {
      TurnCovers(a, b, c);
    } else {
      assert b.world.traffic.completed <= c.world.traffic.completed;
      PrefixCovers(b.world.traffic.completed, c.world.traffic.completed);
    }
  }

  lemma {:induction false} TurnCovers(a: View, b: View, c: View)
    requires EngineCalled(a, b) && TurnServed(b, c) && a.head <= |a.posted|
    ensures multiset(a.world.traffic.completed) + multiset(a.posted[a.head..]) <= multiset(c.world.traffic.completed)
  {
    hide HistoryGrew;
    if b.head < c.head {
      WindowCovers(a.world.traffic.completed, a.posted, c.posted, a.head, c.head);
    } else {
      assert a.posted[a.head..] == [];
    }
  }
}

/**
 The event loop as a state machine over values: every atomic step of the loop thread, of the kernel
 and of the threads that wake it. `Sound` holds in every reachable state, whatever the interleaving.
 */
module Machine {
  import opened Entries
  import opened Flow

  /** Operations in their places, the counters over them, and the completions delivered so far. */
  datatype Traffic = Traffic(places: Places, toSubmit: nat, toComplete: int, entering: nat, completed: seq<Cqe>)

  /**
   The wake protocol. `expected`, `owed` and `ready` belong to the loop (`owed`: it is about to arm the
   poll, or handling its completion; `ready`: that completion reported data, and it is not read yet),
   `queue` to the mutex, `count` is the event fd, `prepared` wakes are still to be pushed, and `writers`
   are between unlocking and signalling. `drained` and `woken` are the current pass; `pushed` and `done`
   are history.
   */
  datatype Wakes = Wakes(
    expected: int, owed: bool, ready: bool, queue: seq<nat>, count: nat, prepared: nat, writers: nat,
    drained: seq<nat>, woken: nat, pushed: seq<nat>, done: seq<nat>)

  datatype World = World(traffic: Traffic, wakes: Wakes)

  /** `to_submit` counts what is queued, `to_complete` what is in flight, and nothing is lost or doubled. */
  ghost predicate TrafficSound(t: Traffic) {
    && InRange(t.places)
    && t.toSubmit + t.entering == |t.places.pushed| - t.places.consumed
    && t.toComplete ==
       |t.places.held| + |t.places.overflow| + (|t.places.posted| - t.places.claimed) + t.entering
    && Owners(t.places.pushed) == Targets(t.completed) + Outstanding(t.places)
  }

  /** Expected wakes are done, drained, queued or prepared; a queued wake has a signal behind it. */
  ghost predicate WakesSound(w: Wakes) {
    && w.expected == w.woken + |w.drained| + |w.queue| + w.prepared
    && w.pushed == w.done + w.drained + w.queue
    && (w.queue != [] ==> w.count > 0 || w.writers > 0)
    && w.count + w.writers <= |w.pushed|
  }

  /** One event-fd poll is outstanding or owed exactly while wakes are expected, and fires only when readable. */
  ghost predicate PollSound(p: Places, w: Wakes) {
    && InRange(p)
    && Outstanding(p)[Event] + (if w.owed then 1 else 0) == (if w.expected > 0 then 1 else 0)
    && (Fired(p) ==> w.count > 0)
    && (w.ready ==> w.owed && w.count > 0)
  }

  ghost predicate Sound(s: World) {
    TrafficSound(s.traffic) && WakesSound(s.wakes) && PollSound(s.traffic.places, s.wakes)
  }

  function Start(): World {
    World(Traffic(Places([], 0, multiset{}, [], [], 0, []), 0, 0, 0, []),
          Wakes(0, false, false, [], 0, 0, 0, [], 0, [], []))
  }

  lemma {:induction false} StartIsSound()
    ensures Sound(Start())
  {
  }

  datatype Step =
    // The loop writes a submission; takes all queued ones into an enter; claims posted completions; delivers one.
    | Push(e: Sqe) | BeginEnter | Claim(end: nat) | Deliver
    // The kernel accepts submissions, posts a completion to the ring or past it, and moves one back.
    | Accept(n: nat) | Post(c: Cqe) | Spill(c: Cqe) | Unspill
    // The loop expects one more wake; drains the queue; resumes one; clears the event fd; ends the pass.
    | Prepare | Drain(n: nat) | Resume | ClearEvent | EndPass
    // A waking thread queues its request under the lock, and signals after releasing it.
    | Enqueue(request: nat) | Signal

  ghost predicate Enabled(s: World, step: Step) {
    var t, w := s.traffic, s.wakes;
    var p := t.places;
    match step
    case Push(e) => e.userData == Event ==> w.owed && !w.ready
    case BeginEnter => t.entering == 0
    case Accept(n) => n <= t.entering && p.consumed + n <= |p.pushed|
    case Post(c) => c.userData in p.held && (c == READY ==> w.count > 0)
    case Spill(c) => c.userData in p.held && (c == READY ==> w.count > 0)
    case Unspill => p.overflow != []
    case Claim(end) => p.batch == [] && p.claimed < end <= |p.posted|
    case Deliver => p.batch != []
    case Prepare => true
    case Enqueue(_) => w.prepared > 0
    case Signal => w.writers > 0
    case Drain(n) => w.ready && w.drained == [] && n <= |w.queue|
    case Resume => w.drained != []
    case ClearEvent => w.ready && w.queue == []
    case EndPass => w.owed && !w.ready && w.drained == []
  }

  function Apply(s: World, step: Step): World
    requires Enabled(s, step)
  {
    var t, w := s.traffic, s.wakes;
    var p := t.places;
    match step
    case Push(e) =>
      World(t.(places := p.(pushed := p.pushed + [e]), toSubmit := t.toSubmit + 1),
            w.(owed := w.owed && e.userData != Event))
    case BeginEnter =>
      World(t.(toSubmit := 0, entering := t.toSubmit, toComplete := t.toComplete + t.toSubmit), w)
    case Accept(n) =>
      World(t.(places := p.(consumed := p.consumed + n,
                            held := p.held + Owners(p.pushed[p.consumed..p.consumed + n])),
               entering := t.entering - n), w)
    case Post(c) =>
      World(t.(places := p.(held := p.held - multiset{c.userData}, posted := p.posted + [c])), w)
    case Spill(c) =>
      World(t.(places := p.(held := p.held - multiset{c.userData}, overflow := p.overflow + [c])), w)
    case Unspill =>
      World(t.(places := p.(overflow := p.overflow[1..], posted := p.posted + [p.overflow[0]])), w)
    case Claim(end) =>
      World(t.(places := p.(claimed := end, batch := Rotation(p.posted[p.claimed..end])),
               toComplete := t.toComplete - (end - p.claimed)), w)
    case Deliver =>
      World(t.(places := p.(batch := p.batch[1..]), completed := t.completed + [p.batch[0]]),
            w.(owed := w.owed || p.batch[0].userData == Event, ready := w.ready || p.batch[0] == READY))
    case Prepare =>
      World(t, w.(expected := w.expected + 1, prepared := w.prepared + 1, owed := w.owed || w.expected == 0))
    case Enqueue(request) =>
      World(t, w.(queue := w.queue + [request], pushed := w.pushed + [request], prepared := w.prepared - 1,
                  writers := w.writers + if w.queue == [] then 1 else 0))
    case Signal =>
      World(t, w.(count := w.count + 1, writers := w.writers - 1))
    case Drain(n) =>
      World(t, w.(queue := w.queue[n..], drained := w.queue[..n]))
    case Resume =>
      World(t, w.(drained := w.drained[1..], done := w.done + [w.drained[0]], woken := w.woken + 1))
    case ClearEvent =>
      World(t, w.(count := 0, ready := false))
    case EndPass =>
      World(t, w.(expected := w.expected - w.woken, woken := 0, owed := w.expected > w.woken))
  }

  /** Some thread can still reach the engine on its own: to queue a request, or to write the event fd. */
  ghost predicate Touchable(s: World) {
    Enabled(s, Signal) || exists request :: Enabled(s, Enqueue(request))
  }

  lemma {:induction false} TouchableIffWriters(s: World)
    requires s.wakes.prepared == 0
    ensures Touchable(s) <==> s.wakes.writers > 0
  {
  }

  /** Steps of the loop that move operations. */
  ghost predicate MovesInLoop(step: Step) {
    step.Push? || step.BeginEnter? || step.Claim? || step.Deliver?
  }

  lemma {:induction false} LoopStepKeepsTraffic(s: World, step: Step)
    requires Sound(s) && Enabled(s, step) && MovesInLoop(step)
    ensures TrafficSound(Apply(s, step).traffic)
  {
    hide Owners, Targets, Outstanding, Fired, Rotation;
    var p := s.traffic.places;
    match step
    case Push(e) => PushStarts(p, e);
    case Claim(end) => ClaimMoves(p, end);
    case Deliver => DeliverFinishes(p); TargetsAppend(s.traffic.completed, p.batch[0], 0);
    case BeginEnter =>
  }

  lemma {:induction false} AcceptKeepsTraffic(s: World, n: nat)
    requires Sound(s) && Enabled(s, Step.Accept(n))
    ensures TrafficSound(Apply(s, Step.Accept(n)).traffic)
  {
    hide Owners, Targets, Outstanding, Fired;
    ConsumeMoves(s.traffic.places, n);
  }

  lemma {:induction false} PostKeepsTraffic(s: World, c: Cqe)
    requires Sound(s) && Enabled(s, Step.Post(c))
    ensures TrafficSound(Apply(s, Step.Post(c)).traffic)
  {
    hide Owners, Targets, Outstanding, Fired;
    PostMoves(s.traffic.places, c);
  }

  lemma {:induction false} SpillKeepsTraffic(s: World, c: Cqe)
    requires Sound(s) && Enabled(s, Spill(c))
    ensures TrafficSound(Apply(s, Spill(c)).traffic)
  {
    hide Owners, Targets, Outstanding, Fired;
    OverflowMoves(s.traffic.places, c);
  }

  lemma {:induction false} UnspillKeepsTraffic(s: World)
    requires Sound(s) && Enabled(s, Unspill)
    ensures TrafficSound(Apply(s, Unspill).traffic)
  {
    hide Owners, Targets, Outstanding, Fired;
    FlushMoves(s.traffic.places);
  }

  /** Every step keeps the account of operations. */
  lemma {:induction false} TrafficStepKeeps(s: World, step: Step)
    requires Sound(s) && Enabled(s, step)
    ensures TrafficSound(Apply(s, step).traffic)
  {
    hide TrafficSound;
    if MovesInLoop(step) {
      LoopStepKeepsTraffic(s, step);
    } else if step.Accept? {
      AcceptKeepsTraffic(s, step.n);
    } else if step.Post? {
      PostKeepsTraffic(s, step.c);
    } else if step.Spill? {
      SpillKeepsTraffic(s, step.c);
    } else if step.Unspill? {
      UnspillKeepsTraffic(s);
    } else {
      assert Apply(s, step).traffic == s.traffic;
    }
  }

  /** Every step keeps the account of wakes. */
  lemma {:induction false} WakesStepKeeps(s: World, step: Step)
    requires Sound(s) && Enabled(s, step)
    ensures WakesSound(Apply(s, step).wakes)
  {
    hide Owners, Targets, Outstanding, Fired;
    var w, w' := s.wakes, Apply(s, step).wakes;
    match step
    case Drain(n) => assert w.queue == w.queue[..n] + w.queue[n..];
    case Resume => assert w.drained == [w.drained[0]] + w.drained[1..];
    case Enqueue(r) => assert w'.pushed == w.done + w.drained + (w.queue + [r]);
    case _ =>
  }

  /** Every step keeps the poll. */
  lemma {:induction false} PollStepKeeps(s: World, step: Step)
    requires Sound(s) && Enabled(s, step)
    ensures PollSound(Apply(s, step).traffic.places, Apply(s, step).wakes)
  {
    hide Owners, Targets, Outstanding, Fired;
    var p := s.traffic.places;
    match step
    case Push(e) => PushStarts(p, e);
    case Accept(n) => ConsumeMoves(p, n);
    case Post(c) => PostMoves(p, c);
    case Spill(c) => OverflowMoves(p, c);
    case Unspill => FlushMoves(p);
    case Claim(end) => ClaimMoves(p, end);
    case Deliver => DeliverFinishes(p);
    case ClearEvent => NoPollNotFired(p);
    case _ =>
  }

  /** Every enabled step of anyone keeps the machine sound. */
  lemma {:induction false} StepKeeps(s: World, step: Step)
    requires Sound(s) && Enabled(s, step)
    ensures Sound(Apply(s, step))
  {
    hide TrafficSound, WakesSound, PollSound, Apply, Enabled;
    TrafficStepKeeps(s, step);
    WakesStepKeeps(s, step);
    PollStepKeeps(s, step);
  }

  ghost predicate CanRun(s: World, steps: seq<Step>)
    decreases |steps|
  {
    steps == [] || (Enabled(s, steps[0]) && CanRun(Apply(s, steps[0]), steps[1..]))
  }

  ghost function After(s: World, steps: seq<Step>): World
    requires CanRun(s, steps)
    decreases |steps|
  {
    if steps == [] then s else After(Apply(s, steps[0]), steps[1..])
  }

  /** Every run from a sound state ends in a sound state. */
  lemma {:induction false} RunsKeepSound(s: World, steps: seq<Step>)
    requires Sound(s) && CanRun(s, steps)
    ensures Sound(After(s, steps))
    decreases |steps|
  {
    hide Sound, Apply, Enabled;
    if steps != [] {
      StepKeeps(s, steps[0]);
      RunsKeepSound(Apply(s, steps[0]), steps[1..]);
    }
  }

  /** Every run of the machine is sound throughout. */
  lemma {:induction false} RunsAreSound(steps: seq<Step>)
    requires CanRun(Start(), steps)
    ensures Sound(After(Start(), steps))
  {
    hide Sound, Apply, Enabled;
    StartIsSound();
    RunsKeepSound(Start(), steps);
  }

  /** Some run of the machine ends in `s`. */
  ghost predicate Reachable(s: World) {
    exists steps :: CanRun(Start(), steps) && After(Start(), steps) == s
  }

  lemma {:induction false} StartIsReachable()
    ensures Reachable(Start())
  {
    hide Apply, Enabled;
    assert CanRun(Start(), []) && After(Start(), []) == Start();
  }

  lemma {:induction false} RunExtends(s: World, steps: seq<Step>, last: Step)
    requires CanRun(s, steps) && Enabled(After(s, steps), last)
    ensures CanRun(s, steps + [last]) && After(s, steps + [last]) == Apply(After(s, steps), last)
    decreases |steps|
  {
    hide Apply, Enabled;
    if steps == [] {
      assert [last][1..] == [];
      assert CanRun(Apply(s, last), []) && After(Apply(s, last), []) == Apply(s, last);
      assert steps + [last] == [last];
    } else {
      RunExtends(Apply(s, steps[0]), steps[1..], last);
      assert (steps + [last])[1..] == steps[1..] + [last];
    }
  }

  /** An enabled step leads from a reachable state to a reachable state. */
  lemma {:induction false} StepReaches(s: World, step: Step)
    requires Reachable(s) && Enabled(s, step)
    ensures Reachable(Apply(s, step))
  {
    hide Apply, Enabled;
    var steps :| CanRun(Start(), steps) && After(Start(), steps) == s;
    RunExtends(Start(), steps, step);
  }

  lemma {:induction false} ReachableIsSound(s: World)
    requires Reachable(s)
    ensures Sound(s)
  {
    hide Sound;
    var steps :| CanRun(Start(), steps) && After(Start(), steps) == s;
    RunsAreSound(steps);
  }

  /** The arithmetic of a reachable state, without its history. */
  lemma {:induction false} Counts(s: World)
    requires Reachable(s)
    ensures var t := s.traffic; var p := t.places;
      && InRange(p)
      && t.toSubmit + t.entering == |p.pushed| - p.consumed
      && t.toComplete == |p.held| + |p.overflow| + (|p.posted| - p.claimed) + t.entering
    ensures var w := s.wakes;
      && w.expected == w.woken + |w.drained| + |w.queue| + w.prepared
      && w.pushed == w.done + w.drained + w.queue
      && (w.owed ==> w.expected > 0)
      && (w.ready ==> w.owed && w.count > 0)
      && (w.queue != [] ==> w.count > 0 || w.writers > 0)
  {
    hide Reachable, Owners, Targets, Outstanding, Fired;
    ReachableIsSound(s);
  }

  /** What the kernel and the waking threads may change between two steps of the loop, and what they may not. */
  ghost predicate Interference(a: World, b: World) {
    var (t, w, t', w') := (a.traffic, a.wakes, b.traffic, b.wakes);
    && t'.places.pushed == t.places.pushed && t'.places.consumed == t.places.consumed
    && t'.places.claimed == t.places.claimed && t'.places.batch == t.places.batch
    && t.places.posted <= t'.places.posted
    && t'.toSubmit == t.toSubmit && t'.toComplete == t.toComplete && t'.entering == t.entering
    && t'.completed == t.completed
    && w'.expected == w.expected && w'.owed == w.owed && w'.ready == w.ready
    && w'.drained == w.drained && w'.woken == w.woken && w'.done == w.done
    && w.pushed <= w'.pushed && w.count <= w'.count
  }

  /** What the engine calls of a resumed task may change: they never deliver, claim, wake or arm twice. */
  ghost predicate CallEffect(a: World, b: World) {
    var (t, w, t', w') := (a.traffic, a.wakes, b.traffic, b.wakes);
    && t.places.pushed <= t'.places.pushed && t.places.consumed <= t'.places.consumed
    && t.places.posted <= t'.places.posted
    && t'.places.claimed == t.places.claimed && t'.places.batch == t.places.batch && t'.completed == t.completed
    && w'.owed == w.owed && w'.ready == w.ready
    && w'.drained == w.drained && w'.woken == w.woken && w'.done == w.done
    && w.pushed <= w'.pushed && w.count <= w'.count
  }

  /** Pushing an event-fd poll settles the debt; pushing anything else leaves it. */
  ghost function Settled(a: World, e: Sqe): World {
    a.(wakes := a.wakes.(owed := a.wakes.owed && e.userData != Event))
  }

  /** One drained wake request completed. */
  ghost function Resumed(a: World): World
    requires a.wakes.drained != []
  {
    var w := a.wakes;
    a.(wakes := w.(drained := w.drained[1..], done := w.done + [w.drained[0]], woken := w.woken + 1))
  }

  /** The first `k` drained wake requests completed, in order. */
  ghost function ResumedBy(a: World, k: nat): World
    requires k <= |a.wakes.drained|
  {
    var w := a.wakes;
    a.(wakes := w.(drained := w.drained[k..], done := w.done + w.drained[..k], woken := w.woken + k))
  }

  lemma {:induction false} StillDrained(a: World, k: nat, b: World)
    requires k < |a.wakes.drained| && CallEffect(ResumedBy(a, k), b)
    ensures b.wakes.drained != [] && b.wakes.drained[0] == a.wakes.drained[k]
  {
  }

  lemma {:induction false} CallEffectReflexive(a: World)
    ensures CallEffect(a, a)
  {
  }

  lemma {:induction false} ResumesCompose(a: World, k: nat, b: World, c: World)
    requires k < |a.wakes.drained| && CallEffect(ResumedBy(a, k), b)
    requires b.wakes.drained != [] && CallEffect(Resumed(b), c)
    ensures CallEffect(ResumedBy(a, k + 1), c)
  {
    var w := a.wakes;
    assert w.drained[k..][1..] == w.drained[k + 1..];
    assert w.done + w.drained[..k] + [w.drained[k]] == w.done + w.drained[..k + 1];
  }

  lemma {:induction false} ResumedByEnds(a: World)
    ensures ResumedBy(a, 0) == a && ResumedBy(a, |a.wakes.drained|) == AllResumed(a)
  {
    var w := a.wakes;
    assert w.drained[0..] == w.drained && w.done + w.drained[..0] == w.done;
    assert w.drained[|w.drained|..] == [] && w.drained[..|w.drained|] == w.drained;
  }

  /** All drained wake requests completed, in order. */
  ghost function AllResumed(a: World): World {
    var w := a.wakes;
    a.(wakes := w.(drained := [], done := w.done + w.drained, woken := w.woken + |w.drained|))
  }

  /** Between batches of a wake pass. */
  ghost predicate PassProgress(a: World, b: World) {
    var (t, w, t', w') := (a.traffic, a.wakes, b.traffic, b.wakes);
    && t.places.pushed <= t'.places.pushed && t.places.consumed <= t'.places.consumed
    && t.places.posted <= t'.places.posted
    && t'.places.claimed == t.places.claimed && t'.places.batch == t.places.batch && t'.completed == t.completed
    && w'.owed && w'.drained == []
    && w.done <= w'.done && w.pushed <= w'.pushed
  }

  /** The loop is running completions but no callback is running. */
  ghost predicate BetweenCallbacks(a: World) {
    !a.wakes.owed && !a.wakes.ready && a.wakes.drained == [] && a.wakes.woken == 0
  }

  /** The first completion of the batch delivered. */
  ghost function Delivered(a: World): World
    requires a.traffic.places.batch != []
  {
    var t := a.traffic;
    a.(traffic := t.(places := t.places.(batch := t.places.batch[1..]), completed := t.completed + [t.places.batch[0]]))
  }

  /** Histories only grow. */
  ghost predicate HistoryGrew(a: World, b: World) {
    && a.traffic.places.pushed <= b.traffic.places.pushed && a.traffic.places.consumed <= b.traffic.places.consumed
    && a.traffic.places.posted <= b.traffic.places.posted
    && a.traffic.completed <= b.traffic.completed
    && a.wakes.pushed <= b.wakes.pushed && a.wakes.done <= b.wakes.done
  }

  lemma {:induction false} HistoryGrewReflexive(a: World)
    ensures HistoryGrew(a, a)
  {
  }

  lemma {:induction false} HistoryGrewTransitive(a: World, b: World, c: World)
    requires HistoryGrew(a, b) && HistoryGrew(b, c)
    ensures HistoryGrew(a, c)
  {
  }

  /** What running the window `[i, j)` of the completion ring delivers. */
  ghost function Batch(posted: seq<Cqe>, i: nat, j: nat): seq<Cqe>
    requires i <= j <= |posted|
  {
    if i == j then [] else Rotation(posted[i..j])
  }

  /** What is run of `rest + [last]`, in whatever order, covers each part of it. */
  lemma {:induction false} ReorderedCovers(done: seq<Cqe>, last: Cqe, rest: seq<Cqe>, first: seq<Cqe>, late: seq<Cqe>)
    requires rest + [last] == first + late
    ensures multiset(done) + multiset(first) <= multiset(done + [last] + rest)
  {
    assert multiset(rest + [last]) == multiset(rest) + multiset([last]);
    assert multiset(first + late) == multiset(first) + multiset(late);
    assert multiset(done + [last] + rest) == multiset(done) + multiset([last]) + multiset(rest);
    var (d, l, r, f) := (multiset(done), multiset([last]), multiset(rest), multiset(first));
    assert r + l == f + multiset(late);
    forall c: Cqe ensures (d + f)[c] <= (d + l + r)[c] {
      assert (r + l)[c] == (f + multiset(late))[c];
    }
  }

  /** A run window holds every completion posted when it was taken. */
  lemma {:induction false} WindowCovers(done: seq<Cqe>, posted: seq<Cqe>, more: seq<Cqe>, i: nat, j: nat)
    requires posted <= more && i <= |posted| <= j <= |more| && i < j
    ensures multiset(done) + multiset(posted[i..]) <= multiset(done + [more[j - 1]] + more[i..j - 1])
  {
    assert more[i..j - 1] + [more[j - 1]] == posted[i..] + more[|posted|..j];
    ReorderedCovers(done, more[j - 1], more[i..j - 1], posted[i..], more[|posted|..j]);
  }

  /** `after` is `before` and the next `n` numbers from `first`. */
  ghost predicate Rose(before: seq<nat>, after: seq<nat>, first: nat, n: nat) {
    && before <= after && |after| == |before| + n
    && forall i | |before| <= i < |after| :: after[i] == first + (i - |before|)
  }

  lemma {:induction false} PrefixCovers(a: seq<Cqe>, b: seq<Cqe>)
    requires a <= b
    ensures multiset(a) <= multiset(b)
  {
    assert b == a + b[|a|..];
  }

  lemma {:induction false} CallThenDelivery(a: World, b: World, c: World)
    requires CallEffect(a, b) && HistoryGrew(b, c)
    ensures HistoryGrew(a, c) && b.traffic.places.posted <= c.traffic.places.posted
    ensures b.traffic.places.consumed <= c.traffic.places.consumed
  {
  }

  /** What delivering a completion may change besides: a wake pass resumes queued requests, in order. */
  ghost predicate PassEffect(a: World, b: World) {
    var (t, w, t', w') := (a.traffic, a.wakes, b.traffic, b.wakes);
    && t.places.pushed <= t'.places.pushed && t.places.consumed <= t'.places.consumed
    && t.places.posted <= t'.places.posted
    && t'.places.claimed == t.places.claimed && t'.places.batch == t.places.batch && t'.completed == t.completed
    && !w'.owed && !w'.ready && w'.drained == [] && w'.woken == 0
    && w.done <= w'.done && w.pushed <= w'.pushed
  }
}

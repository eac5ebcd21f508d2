/** The driver: timers above the engine, the blocking loop, and the exit drain. */
module Drivers {
  import opened Entries
  import opened Flow
  import opened Machine
  import opened Engine
  import opened Timers
  import opened Turns

  /** How a `timeout` call starts: refused because of shutdown, panicking on overflow, or waiting. */
  datatype Started = Rejected | Overflowed | Waiting(timer: Timer)

  /** How many answers hold before the first that does not. */
  function Holds(answers: seq<bool>): (n: nat)
    ensures n <= |answers| && (n < |answers| ==> !answers[n]) && (forall i | 0 <= i < n :: answers[i])
  {
    if answers == [] || !answers[0] then 0 else 1 + Holds(answers[1..])
  }

  class Driver {
    const engine: IoUring
    var timers: set<Timer>
    var exiting: bool

    // The monotonic clock at its last reading.
    var clock: nat

    // How many timers the tasks resumed by the current pass will still queue.
    var budget: nat

    // Whether a task is running, rather than the loop.
    ghost var inTask: bool

    ghost var account: Account
    ghost var parks: seq<Park>

    /** The loop is running. */
    ghost predicate Inv()
      reads this, engine, engine.sq, engine.sq.entries, engine.sq.index, engine.cq, engine.cq.entries
    {
      Held() && !inTask
    }

    /** The pending set agrees with the account, and the engine is between turns. */
    ghost predicate Held()
      reads this, engine, engine.sq, engine.sq.entries, engine.sq.index, engine.cq, engine.cq.entries
    {
      && engine.Idle()
      && timers == account.pending && clock == account.clock <= MAX_U64
      && Balanced(account)
    }

    /** What can be seen of the loop from outside. */
    ghost function Seen(): View
      reads this, engine, engine.cq
    {
      View(engine.world, engine.waits, engine.cq.posted, engine.cq.head, parks, account.readings)
    }

    /** Only calls of resumed tasks were made. */
    twostate predicate TasksRan()
      reads this, engine, engine.cq
    {
      && EngineCalled(old(Seen()), Seen())
      && CallsOnly(old(account), account) && exiting == old(exiting)
      && (exiting ==> Closed(old(account), account))
      && budget + |timers| <= old(budget + |timers|)
    }

    constructor (engine: IoUring)
      requires engine.Idle()
      ensures Inv() && this.engine == engine && timers == {} && !exiting
      ensures account == Account([], {}, [], 0, []) && parks == []
    {
      this.engine := engine;
      timers, exiting, clock, budget := {}, false, 0, 0;
      account, parks, inTask := Account([], {}, [], 0, []), [], false;
    }

    /** Reads the clock, which never goes back. */
    method Time() returns (now: nat)
      requires Held()
      modifies `clock, `account
      ensures Held() && now == clock >= old(clock)
      ensures account == AtReading(old(account), now, inTask)
    {
      hide Balanced, IoUring.Idle;
      now :| clock <= now <= MAX_U64;
      ReadingBalances(account, now, inTask);
      clock := now;
      account := AtReading(account, now, inTask);
    }

    /** Inserts a timer into the set: nothing happens if an equal one is pending. */
    method QueueTimer(timer: Timer)
      requires Held()
      modifies `timers, `account
      ensures Held() && account == Begin(old(account), timer)
    {
      hide Balanced, IoUring.Idle;
      BeginBalances(account, timer);
      timers := timers + {timer};
      account := Begin(account, timer);
    }

    method CheckExiting() returns (ok: bool)
      ensures ok <==> !exiting
    {
      ok := !exiting;
    }

    /** Starts a timer, absolute or relative to a fresh clock reading. Nothing is started while exiting. */
    method StartTimeout(expire: nat, absolute: bool, request: nat) returns (s: Started)
      requires Held()
      modifies `timers, `clock, `account
      ensures Held() && clock >= old(clock)
      ensures s == if exiting then Rejected
                   else if absolute then Waiting(Timer(expire, request))
                   else if expire + clock > MAX_U64 then Overflowed
                   else Waiting(Timer(expire + clock, request))
      ensures exiting || absolute ==> clock == old(clock)
      ensures var read := if exiting || absolute then old(account) else AtReading(old(account), clock, inTask);
        account == if s.Waiting? then Begin(read, s.timer) else read
    {
      hide Balanced, IoUring.Idle;
      var ok := CheckExiting();
      if !ok {
        return Rejected;
      }
      var at := expire;
      if !absolute {
        var now := Time();
        if expire + now > MAX_U64 {
          return Overflowed;
        }
        at := expire + now;
      }
      QueueTimer(Timer(at, request));
      s := Waiting(Timer(at, request));
    }

    // ---- Callbacks ----

    /** Ends a pending timer and runs the task it resumes. */
    method CompleteTimer(timer: Timer, reason: Reason) returns (r: Status)
      requires Held() && timer in timers
      requires reason != Cancelled ==> IsFirst(timer, timers)
      requires reason == Expired ==> timer.expire <= clock
      modifies `timers, `clock, `account, `budget, `inTask,
        engine, engine.sq, engine.sq.entries, engine.cq, engine.cq.entries
      ensures r.Ok? || (r.Abort? && engine.faulted)
      ensures r.Ok? ==> Held() && inTask == old(inTask) && exiting == old(exiting)
      ensures r.Ok? ==> budget + |timers| < old(budget + |timers|)
      ensures r.Ok? ==> CallsOnly(End(old(account), timer, reason, inTask), account)
      ensures r.Ok? ==> EngineCalled(old(Seen()), Seen())
      ensures r.Ok? && exiting ==> Closed(End(old(account), timer, reason, inTask), account)
      decreases budget + |timers|, 0
    {
      hide Balanced, IoUring.Idle;
      EndBalances(account, timer, reason, inTask);
      timers := timers - {timer};
      account := End(account, timer, reason, inTask);
      r := RunTask();
    }

    /** Cancels a timer. One that has ended, or never was, is not found and nothing is completed. */
    method CancelTimer(timer: Timer) returns (r: Status, found: bool)
      requires Held()
      modifies `timers, `clock, `account, `budget, `inTask,
        engine, engine.sq, engine.sq.entries, engine.cq, engine.cq.entries
      ensures r.Ok? || (r.Abort? && engine.faulted)
      ensures found <==> timer in old(timers)
      ensures !found ==> r.Ok? && account == old(account) && timers == old(timers) && engine.world == old(engine.world)
      ensures r.Ok? ==> Held() && inTask == old(inTask) && (inTask ==> TasksRan())
      ensures r.Ok? && found ==> CallsOnly(End(old(account), timer, Cancelled, inTask), account)
      ensures r.Ok? && found ==> EngineCalled(old(Seen()), Seen())
      decreases budget + |timers|, 1
    {
      hide Balanced, IoUring.Idle;
      found := timer in timers;
      if !found {
        return Ok, found;
      }
      r := CompleteTimer(timer, Cancelled);
    }

    /** One call of a resumed task: to the engine, to start a timer, or to cancel one. */
    method TaskCall() returns (r: Status)
      requires Held() && inTask
      modifies `timers, `clock, `account, `budget, `inTask,
        engine, engine.sq, engine.sq.entries, engine.cq, engine.cq.entries
      ensures r.Ok? || (r.Abort? && engine.faulted)
      ensures r.Ok? ==> Held() && inTask == old(inTask) && TasksRan()
      decreases budget + |timers|, 2
    {
      hide Balanced, IoUring.Idle;
      if {
        case true =>
          r := engine.ResumeBetweenTurns();
        case budget > 0 =>
          budget := budget - 1;
          var expire: nat, absolute: bool, request: nat := *, *, *;
          var started := StartTimeout(expire, absolute, request);
          r := Ok;
        case true =>
          var timer: Timer := *;
          var found;
          r, found := CancelTimer(timer);
      }
    }

    /** A resumed task makes any finite number of calls. */
    method RunTask() returns (r: Status)
      requires Held()
      modifies `timers, `clock, `account, `budget, `inTask,
        engine, engine.sq, engine.sq.entries, engine.cq, engine.cq.entries
      ensures r.Ok? || (r.Abort? && engine.faulted)
      ensures r.Ok? ==> Held() && inTask == old(inTask) && TasksRan()
      decreases budget + |timers|, 3
    {
      hide Balanced, IoUring.Idle;
      inTask := true;
      var calls: nat :| true;
      for k := 0 to calls
        invariant Held() && inTask && TasksRan()
      {
        :- TaskCall();
      }
      inTask := old(inTask);
      r := Ok;
    }

    // ---- The loop ----

    /** The first pending timer. */
    method First() returns (timer: Timer)
      requires timers != {}
      ensures timer in timers && IsFirst(timer, timers)
    {
      FirstExists(timers);
      timer :| timer in timers && IsFirst(timer, timers);
    }

    /**
     Completes due timers, the first pending one at a time, and returns how long the loop may wait. The ghost
     result is the clock reading the pass went by.
     */
    method RunTimers() returns (r: Status, timeout: nat, ghost at: nat)
      requires Inv()
      modifies `timers, `clock, `account, `budget, `inTask,
        engine, engine.sq, engine.sq.entries, engine.cq, engine.cq.entries
      ensures r.Ok? || (r.Abort? && engine.faulted)
      ensures r.Ok? ==> Inv() && exiting == old(exiting) && old(clock) <= at <= clock
      ensures r.Ok? ==> PassOnly(old(account), account, at) && (exiting ==> Closed(old(account), account))
      ensures r.Ok? && exiting && old(timers) == {} ==> account == AtReading(old(account), clock, false)
      ensures r.Ok? ==> forall t | t in timers :: t.expire > at
      ensures r.Ok? && (exists t | t in old(timers) :: t.expire <= at) ==> FirstEndedBy(old(account), account, Expired)
      ensures r.Ok? ==> forall t | t in old(timers) && t.expire <= at :: EndedAfter(old(account), account, t)
      ensures r.Ok? ==> AtReading(old(account), at, false).readings <= account.readings
      ensures r.Ok? ==> EngineCalled(old(Seen()), Seen())
      ensures r.Ok? && old(timers) == {} ==> unchanged(engine) && unchanged(engine.sq) && unchanged(engine.cq)
      ensures r.Ok? && timers != {} ==> account.readings[|account.readings| - 1] == Reading(clock, false)
      ensures r.Ok? ==> Exact(clock, timeout, timers)
    {
      hide Balanced, IoUring.Idle, Exact, EndedAfter, Pass, EngineCalled, CallsOnly, IsFirst;
      budget := *;
      timeout := HOUR;
      var now := Time();
      at := now;
      PassBegins(old(account), at);
      ReadingIsNoCall(old(Seen()), Seen());
      var ran := false;
      while true
        invariant Inv() && exiting == old(exiting) && old(clock) <= at == now <= clock
        invariant Pass(old(account), account, at) && (ran <==> account.log != old(account).log)
        invariant exiting ==> Closed(old(account), account)
        invariant !ran ==> unchanged(engine) && unchanged(engine.sq) && unchanged(engine.cq)
        invariant timeout == HOUR && EngineCalled(old(Seen()), Seen())
        decreases budget + |timers|
      {
        if timers == {} {
          NoneIsExact(clock);
          PassEnds(old(account), account, at);
          return Ok, timeout, at;
        }
        var timer := First();
        ghost var before, view := account, Seen();
        if timer.expire > now {
          if ran {
            now := Time();
            PassReads(old(account), before, at, now);
            ReadingIsNoCall(view, Seen());
            CallsTransitive(old(Seen()), view, Seen());
          }
          FirstIsExact(now, timer, timers);
          NoneDue(timer, timers, at);
          PassEnds(old(account), account, at);
          timeout := if timer.expire > now then timer.expire - now else 0;
          return Ok, timeout, at;
        }
        ran := true;
        :- CompleteTimer(timer, Expired);
        PassContinues(old(account), before, timer, account, at);
        if exiting {
          ClosedContinues(old(account), before, timer, account);
        }
        CallsTransitive(old(Seen()), view, Seen());
      }
    }

    /** Waits in the engine, and runs what completed; `pass` is which clock reading the pass before it went by. */
    method Wait(timeout: nat, ghost pass: nat) returns (r: Status)
      requires Inv()
      modifies `timers, `clock, `account, `budget, `inTask, `parks,
        engine, engine.sq, engine.sq.entries, engine.cq, engine.cq.entries
      ensures r.Ok? || (r.Abort? && engine.faulted)
      ensures r.Ok? ==> Inv() && exiting == old(exiting) && CallsOnly(old(account), account)
      ensures r.Ok? && exiting ==> Closed(old(account), account)
      ensures r.Ok? ==> |parks| == |old(parks)| + 1
      ensures r.Ok? ==>
                var slept := parks[|old(parks)|].slept;
                parks == old(parks) + [Park(old(clock), timeout, old(timers), slept, pass, |old(account.readings)|)]
      ensures r.Ok? ==> engine.waits == old(engine.waits) + parks[|old(parks)|].slept && Shortened(parks[|old(parks)|])
      ensures r.Ok? ==> |old(engine.Ops().pushed)| <= engine.Ops().consumed && TurnServed(old(Seen()), Seen())
      ensures r.Ok? && timeout > 0 && engine.cq.head == old(engine.cq.head) ==> engine.waits != old(engine.waits)
    {
      hide Balanced, IoUring.Idle;
      ghost var pending := timers;
      r := engine.Work(timeout);
      if !r.Ok? {
        return Abort;
      }
      parks := parks + [Park(clock, timeout, pending, engine.waits[|old(engine.waits)|..], pass, |account.readings|)];
      budget := *;
      r := RunTask();
    }

    /**
     The blocking loop: due timers, then a wait that ends by the first expiry, while the condition holds. The
     condition is asked before and after each wait; `answers` is what it says, for as many turns as are looked at.
     */
    method BlockWhile(answers: seq<bool>) returns (r: Status, stopped: bool)
      requires Inv()
      modifies `timers, `clock, `account, `budget, `inTask, `parks,
        engine, engine.sq, engine.sq.entries, engine.cq, engine.cq.entries
      ensures r.Ok? || (r.Abort? && engine.faulted)
      ensures r.Ok? ==> Inv() && exiting == old(exiting)
      ensures r.Ok? ==> old(account.log) <= account.log && old(account.starts) <= account.starts
      ensures r.Ok? ==> PassOnly(old(account), account, clock)
      ensures r.Ok? ==> old(clock) <= clock && LoopRan(old(Seen()), Seen())
      ensures r.Ok? ==> (stopped <==> Holds(answers) < |answers| / 2 * 2)
      ensures r.Ok? ==> |parks| == |old(parks)| + if stopped then (Holds(answers) + 1) / 2 else |answers| / 2
    {
      hide Balanced, IoUring.Idle, LoopRan, EngineCalled, HistoryGrew, TurnServed, Exact, Shortened, ParkSound;
      hide EndedAfter, FirstEndedBy, Closed;
      engine.HeadInRange();
      LoopStarts(Seen());
      for k := 0 to |answers| / 2
        invariant Inv() && exiting == old(exiting)
        invariant old(account.log) <= account.log && old(account.starts) <= account.starts
        invariant PassOnly(old(account), account, clock)
        invariant old(clock) <= clock && LoopRan(old(Seen()), Seen())
        invariant |parks| == |old(parks)| + k && Holds(answers) >= 2 * k
      {
        var timeout;
        ghost var at;
        ghost var before := Seen();
        r, timeout, at := RunTimers();
        if r.Abort? {
          return r, false;
        }
        LoopThenCalls(old(Seen()), before, Seen());
        CallsKeepPace(before, Seen());
        if !answers[2 * k] {
          return Ok, true;
        }
        ghost var after := Seen();
        r := Wait(timeout, |before.readings|);
        if r.Abort? {
          return r, false;
        }
        ExactIsSound(parks[|before.parks|]);
        LoopThenTurn(old(Seen()), before, after, Seen());
        if !answers[2 * k + 1] {
          return Ok, true;
        }
      }
      return Ok, false;
    }

    /** Shuts every pending timer down, the first one at a time, although the tasks resumed cancel others. */
    method ShutTimersDown() returns (r: Status)
      requires Inv() && exiting
      modifies `timers, `clock, `account, `budget, `inTask,
        engine, engine.sq, engine.sq.entries, engine.cq, engine.cq.entries
      ensures r.Ok? || (r.Abort? && engine.faulted)
      ensures r.Ok? ==> Inv() && exiting && timers == {} && DrainOnly(old(account), account)
      ensures r.Ok? && old(timers) != {} ==> FirstEndedBy(old(account), account, ShutDown)
      ensures r.Ok? ==> forall t | t in old(timers) :: EndedAfter(old(account), account, t)
      ensures r.Ok? ==> EngineCalled(old(Seen()), Seen())
    {
      hide Balanced, IoUring.Idle, EngineCalled, Draining, EndedAfter, FirstEndedBy, CallsOnly, IsFirst;
      DrainingBegins(account);
      ReadingIsNoCall(Seen(), Seen());
      while timers != {}
        invariant Inv() && exiting && Draining(old(account), account) && EngineCalled(old(Seen()), Seen())
        decreases timers
      {
        var timer := First();
        ghost var before, view := account, Seen();
        :- CompleteTimer(timer, ShutDown);
        DrainingContinues(old(account), before, timer, account);
        CallsTransitive(old(Seen()), view, Seen());
      }
      DrainingEnds(old(account), account);
      r := Ok;
    }

    /** Waits until the engine has no work left, with no timer pending. Looks at `patience` turns. */
    method DrainEngine(patience: nat) returns (r: Status, drained: bool)
      requires Inv() && exiting && timers == {}
      modifies `timers, `clock, `account, `budget, `inTask, `parks,
        engine, engine.sq, engine.sq.entries, engine.cq, engine.cq.entries
      ensures r.Ok? || (r.Abort? && engine.faulted)
      ensures r.Ok? ==> Inv() && exiting && timers == {} && DrainOnly(old(account), account)
      ensures r.Ok? ==> LoopRan(old(Seen()), Seen())
      ensures r.Ok? && drained ==> EngineDrained()
      ensures r.Ok? ==> old(parks) <= parks
      ensures r.Ok? && !drained ==> |parks| == |old(parks)| + patience
      ensures old(EngineDrained()) && patience > 0 && r.Ok? ==> drained && parks == old(parks)
    {
      hide Balanced, IoUring.Idle, Owners, Targets, Outstanding, LoopRan, EngineCalled, HistoryGrew, TurnServed;
      hide Exact, Shortened, ParkSound, EndedAfter, FirstEndedBy;
      engine.HeadInRange();
      LoopStarts(Seen());
      for k := 0 to patience
        invariant Inv() && exiting && timers == {} && DrainOnly(old(account), account)
        invariant old(parks) <= parks && |parks| == |old(parks)| + k && LoopRan(old(Seen()), Seen())
        invariant old(EngineDrained()) ==> k == 0 && EngineDrained() && parks == old(parks)
      {
        var timeout;
        ghost var at;
        ghost var before := Seen();
        r, timeout, at := RunTimers();
        if r.Abort? {
          return r, false;
        }
        LoopThenCalls(old(Seen()), before, Seen());
        CallsKeepPace(before, Seen());
        var work := engine.HasWork();
        if !work {
          return Ok, true;
        }
        ghost var after := Seen();
        r := Wait(timeout, |before.readings|);
        if r.Abort? {
          return r, false;
        }
        ExactIsSound(parks[|before.parks|]);
        LoopThenTurn(old(Seen()), before, after, Seen());
      }
      return Ok, false;
    }

    /** Nothing started is outstanding anywhere, and no wake is expected or queued. */
    ghost predicate EngineDrained()
      reads engine, engine.sq, engine.cq
    {
      && Owners(engine.sq.pushed) == Targets(engine.world.traffic.completed)
      && engine.toSubmit == engine.toComplete == 0
      && engine.expectedWakes == 0 && engine.wakeQueue == [] && engine.world.wakes.prepared == 0
    }

    /**
     Drains the driver: when it returns nothing is pending in it or its engine, and no timer was started meanwhile. A
     thread whose wake was completed may still be about to write the event fd.
     */
    method Exit(patience: nat) returns (r: Status, returned: bool)
      requires Inv()
      modifies `timers, `clock, `account, `budget, `inTask, `parks, `exiting,
        engine, engine.sq, engine.sq.entries, engine.cq, engine.cq.entries
      ensures r.Ok? || (r.Abort? && engine.faulted)
      ensures r.Ok? ==> DrainOnly(old(account), account) && timers == {}
      ensures r.Ok? && old(timers) != {} ==> FirstEndedBy(old(account), account, ShutDown)
      ensures r.Ok? ==> forall t | t in old(timers) :: EndedAfter(old(account), account, t)
      ensures r.Ok? ==> LoopRan(old(Seen()), Seen())
      ensures r.Ok? && returned ==> Inv() && !exiting && EngineDrained()
      ensures r.Ok? && returned ==> (Touchable(engine.world) <==> engine.world.wakes.writers > 0)
      ensures r.Ok? ==> old(parks) <= parks
      ensures r.Ok? && !returned ==> exiting && |parks| == |old(parks)| + patience
    {
      hide Balanced, IoUring.Idle, Owners, Targets, Touchable, LoopRan, EngineCalled, HistoryGrew;
      hide DrainOnly, EndedAfter, FirstEndedBy;
      returned := false;
      engine.HeadInRange();
      exiting := true;
      :- ShutTimersDown();
      ghost var before, view := account, Seen();
      r, returned := DrainEngine(patience);
      if r.Ok? {
        DrainExtends(old(account), before, account);
        CallsThenLoop(old(Seen()), view, Seen());
      }
      if r.Ok? && returned {
        TouchableIffWriters(engine.world);
        exiting := false;
      }
    }
  }

  /**
   Over every run, each timer ended once for each time it was started, short of the one still pending, exactly when it
   was never started while pending; and each that ended well was due at a clock reading already taken.
   */
  lemma {:induction false} TimersEndOnce(d: Driver, t: Timer)
    requires d.Inv()
    ensures Launched(d.account.starts)[t] == Ended(d.account.log)[t] + (if t in d.timers then 1 else 0) <==>
            Apart(d.account.starts, t)
    ensures Ended(d.account.log)[t] + (if t in d.timers then 1 else 0) <= Launched(d.account.starts)[t]
    ensures forall e | e in d.account.log && e.timer == t && e.reason == Expired :: t.expire <= e.clock <= d.clock
  {
    hide IoUring.Idle, Launched, Ended, Admitted, Apart;
    EndsOncePerStartIffApart(d.account, t);
    assert forall e | e in d.account.log :: EndingSound(e, d.account.clock);
  }

  /** The case the condition shuts out: a request used again while pending, with the same expiry. */
  method SharedTimer(engine: IoUring) returns (d: Driver)
    requires engine.Idle()
    ensures d.Inv() && d.account.log == [] && d.timers == {Timer(1, 0)}
    ensures Launched(d.account.starts)[Timer(1, 0)] == 2
  {
    hide Balanced, IoUring.Idle;
    d := new Driver(engine);
    var first := d.StartTimeout(1, true, 0);
    var second := d.StartTimeout(1, true, 0);
    AdmittedAppend([], Launch(Timer(1, 0), {}));
    AdmittedAppend([Launch(Timer(1, 0), {})], Launch(Timer(1, 0), {Timer(1, 0)}));
  }
}

/** Ticks: an interval awaited through the driver. */
module Ticks {
  import opened Engine
  import opened Timers
  import opened Drivers
  import opened Intervals

  /** How a tick ended, if it has. */
  datatype Tick = Succeeded | Failed | Crashed | Unfinished

  /**
   How a tick that sleeps stands: it succeeded if the first ending of its timer since then was an expiry, which a
   clock reading taken by then had reached; it failed if that ending was another; and else its timer is pending.
   */
  ghost predicate TickStands(tick: Tick, a: Account, timer: Timer, from: nat) {
    match tick
    case Succeeded =>
      exists i: nat ::
        EndsAt(a.log, timer, from, i) && a.log[i].reason == Expired && timer.expire <= a.log[i].clock <= a.clock
    case Failed => exists i: nat :: EndsAt(a.log, timer, from, i) && a.log[i].reason != Expired
    case Unfinished => timer in a.pending && forall i | from <= i < |a.log| :: a.log[i].timer != timer
    case Crashed => false
  }

  /** How a timer pending at `from` has ended since, if it has. */
  ghost function EndedSince(log: seq<Ending>, timer: Timer, from: nat): Tick
    requires from <= |log|
    decreases |log| - from
  {
    if from == |log| then Unfinished
    else if log[from].timer == timer then (if log[from].reason == Expired then Succeeded else Failed)
    else EndedSince(log, timer, from + 1)
  }

  /** A timer that ended well had expired by the clock reading under which it ended. */
  lemma {:induction false} NeverEarly(was: Account, a: Account, timer: Timer, from: nat)
    requires Balanced(was) && Balanced(a) && timer in was.pending && was.starts <= a.starts && was.log <= a.log
    requires |was.log| <= from <= |a.log| && forall j | |was.log| <= j < from :: a.log[j].timer != timer
    ensures TickStands(EndedSince(a.log, timer, from), a, timer, |was.log|)
    decreases |a.log| - from
  {
    hide Balanced;
    if from == |a.log| {
      UnendedIsPending(was, a, timer);
    } else if a.log[from].timer == timer {
      assert EndingSound(a.log[from], a.clock) by { EndingsAreSound(a, from); }
      assert EndsAt(a.log, timer, |was.log|, from);
    } else {
      NeverEarly(was, a, timer, from + 1);
    }
  }

  lemma EndingsAreSound(a: Account, i: nat)
    requires Balanced(a) && i < |a.log|
    ensures EndingSound(a.log[i], a.clock)
  {
  }

  /**
   One tick of an interval: advance it by a clock reading, start a timer if the expiry is ahead, and run the loop
   for as many turns as there are pairs of `answers`. A tick that succeeds does not do so before its expiry. The
   ghost result `now` is the clock reading the tick went by.
   */
  method Next(interval: Interval, driver: Driver, request: nat, interrupted: bool, answers: seq<bool>)
    returns (r: Status, ghost tick: Tick, ghost now: nat)
    requires driver.Inv()
    modifies interval, driver, driver.engine, driver.engine.sq, driver.engine.sq.entries,
             driver.engine.cq, driver.engine.cq.entries
    ensures r.Ok? || (r.Abort? && driver.engine.faulted)
    ensures r.Ok? ==> driver.Inv() && driver.exiting == old(driver.exiting) && old(driver.clock) <= now <= driver.clock
    ensures interval.delay == 0 ==>
              r.Ok? && tick == Succeeded && interval.expire == old(interval.expire) &&
              driver.account == old(driver.account)
    ensures interval.delay > 0 ==>
              NextExpiry(interval.behavior, old(interval.expire), interval.delay, now) ==
              if tick == Crashed then None else Some(interval.expire)
    ensures tick == Crashed ==> r.Ok? && driver.account == AtReading(old(driver.account), now, false)
    ensures interval.delay > 0 && tick != Crashed && interval.expire <= now ==>
              r.Ok? && tick == Succeeded && driver.account == AtReading(old(driver.account), now, false)
    ensures r.Ok? && interval.delay > 0 && tick != Crashed && interval.expire > now &&
            (interrupted || driver.exiting) ==>
              tick == Failed && driver.account == AtReading(old(driver.account), now, false)
    ensures r.Ok? && interval.delay > 0 && tick != Crashed && interval.expire > now &&
            !interrupted && !driver.exiting ==>
              TickStands(tick, driver.account, Timer(interval.expire, request), |old(driver.account.log)|)
  {
    hide IoUring.Idle, Balanced;
    now := driver.clock;
    if interval.delay == 0 {
      return Ok, Succeeded, now;
    }
    var reading := driver.Time();
    now := reading;
    var outcome := interval.Advance(reading);
    match outcome {
      case Panicked =>
        return Ok, Crashed, now;
      case Ready =>
        return Ok, Succeeded, now;
      case Sleep(until) =>
        if interrupted {
          return Ok, Failed, now;
        }
        var started := driver.StartTimeout(until, true, request);
        if !started.Waiting? {
          return Ok, Failed, now;
        }
        ghost var was := driver.account;
        var stopped;
        r, stopped := driver.BlockWhile(answers);
        tick := Unfinished;
        if r.Ok? {
          tick := EndedSince(driver.account.log, started.timer, |was.log|);
          NeverEarly(was, driver.account, started.timer, |was.log|);
        }
    }
  }
}

/** Timers as values: their order, how each one ends, and the account of all of them. */
module Timers {
  import opened Entries

  const MAX_U64: nat := 0xffff_ffff_ffff_ffff

  /** The longest the loop waits when no timer is pending, in nanoseconds. */
  const HOUR: nat := 3_600_000_000_000

  /** A pending timer; the request breaks ties between equal expiries. */
  datatype Timer = Timer(expire: nat, request: nat)

  /** A timer that was started, with those pending then. */
  datatype Launch = Launch(timer: Timer, others: set<Timer>)

  datatype Reason = Expired | Cancelled | ShutDown

  /**
   A timer that ended: why, under which clock reading, with which others still pending, and whether a call of a
   task made it end, or else the loop itself.
   */
  datatype Ending = Ending(timer: Timer, reason: Reason, clock: nat, others: set<Timer>, called: bool)

  /** A reading of the clock, by a task or else by the loop itself. */
  datatype Reading = Reading(clock: nat, called: bool)

  /**
   One wait of the loop: the clock last read, the timeout asked for, the timers pending, the kernel waits made, the
   clock reading the timer pass before it went by, and how many readings there were in all.
   */
  datatype Park = Park(clock: nat, timeout: nat, pending: set<Timer>, slept: seq<Bound>, pass: nat, read: nat)

  predicate Before(a: Timer, b: Timer) {
    a.expire < b.expire || (a.expire == b.expire && a.request < b.request)
  }

  /** Nothing in `s` comes before `t`. */
  predicate IsFirst(t: Timer, s: set<Timer>) {
    forall u | u in s :: u == t || Before(t, u)
  }

  /** A nonempty set of timers has a first one. */
  lemma {:induction false} FirstExists(s: set<Timer>)
    requires s != {}
    ensures exists t | t in s :: IsFirst(t, s)
    decreases |s|
  {
    var t :| t in s;
    var rest := s - {t};
    assert s == rest + {t};
    if rest == {} {
      assert IsFirst(t, s);
    } else {
      FirstExists(rest);
      var u :| u in rest && IsFirst(u, rest);
      assert IsFirst(if Before(t, u) then t else u, s);
    }
  }

  /** How often each timer has ended. */
  ghost function Ended(log: seq<Ending>): multiset<Timer> {
    if log == [] then multiset{} else Ended(log[..|log| - 1]) + multiset{log[|log| - 1].timer}
  }

  lemma {:induction false} EndedAppend(log: seq<Ending>, e: Ending)
    ensures Ended(log + [e]) == Ended(log) + multiset{e.timer}
  {
    assert (log + [e])[..|log|] == log;
  }

  /** A timer not cancelled was the first pending one; an expired one was due at a clock reading already taken. */
  ghost predicate EndingSound(e: Ending, clock: nat) {
    && e.clock <= clock
    && (e.reason != Cancelled ==> IsFirst(e.timer, e.others))
    && (e.reason == Expired ==> e.timer.expire <= e.clock)
  }

  /** A wait never lasts past the first pending expiry, by the last clock reading; the kernel only shortens it. */
  ghost predicate ParkSound(p: Park) {
    && (p.timeout > 0 ==> forall t | t in p.pending :: p.clock + p.timeout <= t.expire)
    && Shortened(p)
  }

  /** The kernel waited at most once, and no longer than asked. */
  ghost predicate Shortened(p: Park) {
    |p.slept| <= 1 && forall s | s in p.slept :: s.AtMost? && s.nanos <= p.timeout
  }

  /** The timeout is exactly the time from the clock reading to the first pending expiry, or an hour. */
  ghost predicate Exact(clock: nat, timeout: nat, pending: set<Timer>) {
    && (pending == {} ==> timeout == HOUR)
    && forall t | t in pending && IsFirst(t, pending) :: timeout == if t.expire > clock then t.expire - clock else 0
  }

  ghost predicate ParkExact(p: Park) {
    Exact(p.clock, p.timeout, p.pending)
  }

  /** The pass before a wait went by a reading of the loop no older than the `from`-th, and left nothing due. */
  ghost predicate Swept(p: Park, readings: seq<Reading>, from: nat) {
    && from <= p.pass < p.read <= |readings| && !readings[p.pass].called
    && forall t | t in p.pending :: t.expire > readings[p.pass].clock
  }

  lemma {:induction false} FirstIsExact(clock: nat, t: Timer, pending: set<Timer>)
    requires t in pending && IsFirst(t, pending)
    ensures Exact(clock, if t.expire > clock then t.expire - clock else 0, pending)
  {
  }

  lemma {:induction false} NoneIsExact(clock: nat)
    ensures Exact(clock, HOUR, {})
  {
  }

  lemma {:induction false} ExactIsSound(p: Park)
    requires ParkExact(p) && Shortened(p)
    ensures ParkSound(p)
  {
    if p.pending != {} {
      FirstExists(p.pending);
    }
  }

  /** The kernel waits of all of `parks`. */
  ghost function Slept(parks: seq<Park>): seq<Bound> {
    if parks == [] then [] else Slept(parks[..|parks| - 1]) + parks[|parks| - 1].slept
  }

  lemma {:induction false} SleptAppend(parks: seq<Park>, p: Park, from: nat)
    requires from <= |parks|
    ensures Slept((parks + [p])[from..]) == Slept(parks[from..]) + p.slept
  {
    assert (parks + [p])[from..] == parks[from..] + [p];
    assert (parks[from..] + [p])[..|parks[from..]|] == parks[from..];
  }

  /** How often each timer was started. */
  ghost function Launched(starts: seq<Launch>): multiset<Timer> {
    if starts == [] then multiset{}
    else Launched(starts[..|starts| - 1]) + multiset{starts[|starts| - 1].timer}
  }

  /** How often each timer was started while no equal one was pending. */
  ghost function Admitted(starts: seq<Launch>): multiset<Timer> {
    if starts == [] then multiset{}
    else
      var s := starts[|starts| - 1];
      Admitted(starts[..|starts| - 1]) + if s.timer in s.others then multiset{} else multiset{s.timer}
  }

  lemma {:induction false} AdmittedAppend(starts: seq<Launch>, s: Launch)
    ensures Admitted(starts + [s]) == Admitted(starts) + if s.timer in s.others then multiset{} else multiset{s.timer}
    ensures Launched(starts + [s]) == Launched(starts) + multiset{s.timer}
  {
    assert (starts + [s])[..|starts|] == starts;
  }

  lemma {:induction false} AdmittedGrows(a: seq<Launch>, b: seq<Launch>)
    requires a <= b
    ensures Admitted(a) <= Admitted(b)
    decreases |b|
  {
    if |a| == |b| {
      assert a == b;
    } else {
      var c := b[..|b| - 1];
      assert a <= c;
      AdmittedGrows(a, c);
    }
  }

  /** No start of `t` met an equal timer pending. */
  ghost predicate Apart(starts: seq<Launch>, t: Timer) {
    forall s | s in starts && s.timer == t :: t !in s.others
  }

  /** A timer was admitted as often as it was started exactly when none of its starts met it pending. */
  lemma {:induction false} AdmittedIffApart(starts: seq<Launch>, t: Timer)
    ensures Admitted(starts)[t] <= Launched(starts)[t]
    ensures Admitted(starts)[t] == Launched(starts)[t] <==> Apart(starts, t)
    decreases |starts|
  {
    if starts != [] {
      var n := |starts| - 1;
      assert starts == starts[..n] + [starts[n]];
      AdmittedIffApart(starts[..n], t);
    }
  }

  /** The timers started so far, those pending, how the others ended, and the clock as it was read. */
  datatype Account = Account(
    starts: seq<Launch>, pending: set<Timer>, log: seq<Ending>, clock: nat, readings: seq<Reading>)

  /** Every admission of a timer has ended exactly once, for one reason, or is still pending. */
  ghost predicate Balanced(a: Account) {
    && Admitted(a.starts) == Ended(a.log) + multiset(a.pending)
    && (forall e | e in a.log :: EndingSound(e, a.clock))
  }

  /** Starting a timer puts it among the pending ones, which are a set. */
  function Begin(a: Account, t: Timer): Account {
    a.(starts := a.starts + [Launch(t, a.pending)], pending := a.pending + {t})
  }

  function End(a: Account, t: Timer, reason: Reason, called: bool): Account {
    a.(pending := a.pending - {t}, log := a.log + [Ending(t, reason, a.clock, a.pending - {t}, called)])
  }

  /** Reading the clock. */
  function AtReading(a: Account, now: nat, called: bool): Account {
    a.(clock := now, readings := a.readings + [Reading(now, called)])
  }

  /**
   A timer has one ending, or is pending, for each of its starts exactly when none of them met it pending: the set
   drops a second timer with the same expiry and request, and the two starts share one ending.
   */
  lemma {:induction false} EndsOncePerStartIffApart(a: Account, t: Timer)
    requires Balanced(a)
    ensures Ended(a.log)[t] + (if t in a.pending then 1 else 0) <= Launched(a.starts)[t]
    ensures Launched(a.starts)[t] == Ended(a.log)[t] + (if t in a.pending then 1 else 0) <==> Apart(a.starts, t)
  {
    hide Ended, Launched, Admitted;
    AdmittedIffApart(a.starts, t);
  }

  lemma {:induction false} BeginBalances(a: Account, t: Timer)
    requires Balanced(a)
    ensures Balanced(Begin(a, t))
  {
    hide Ended, Admitted, Launched;
    AdmittedAppend(a.starts, Launch(t, a.pending));
    if t in a.pending {
      assert a.pending + {t} == a.pending;
    } else {
      assert multiset(a.pending + {t}) == multiset(a.pending) + multiset{t};
    }
  }

  lemma {:induction false} EndBalances(a: Account, t: Timer, reason: Reason, called: bool)
    requires Balanced(a) && t in a.pending
    requires reason != Cancelled ==> IsFirst(t, a.pending)
    requires reason == Expired ==> t.expire <= a.clock
    ensures Balanced(End(a, t, reason, called))
  {
    hide Ended, Admitted;
    EndedAppend(a.log, Ending(t, reason, a.clock, a.pending - {t}, called));
    assert multiset(a.pending - {t}) + multiset{t} == multiset(a.pending);
  }

  lemma {:induction false} ReadingBalances(a: Account, now: nat, called: bool)
    requires Balanced(a) && a.clock <= now
    ensures Balanced(AtReading(a, now, called))
  {
    hide Ended, Admitted;
  }

  /** What the calls of resumed tasks may do to timers: cancel some, start some, never expire or shut down. */
  ghost predicate CallsOnly(a: Account, b: Account) {
    && a.log <= b.log && a.clock <= b.clock && a.starts <= b.starts && a.readings <= b.readings
    && forall i | |a.log| <= i < |b.log| :: b.log[i].reason == Cancelled && b.log[i].called
  }

  /** While the driver exits, tasks start nothing. */
  ghost predicate Closed(a: Account, b: Account) {
    b.pending <= a.pending && b.starts == a.starts
  }

  /** A timer pass itself only expires timers due at its clock reading; the calls of tasks only cancel. */
  ghost predicate PassOnly(a: Account, b: Account, now: nat) {
    && a.log <= b.log && a.clock <= b.clock && a.starts <= b.starts && a.readings <= b.readings
    && forall i | |a.log| <= i < |b.log| ::
         if b.log[i].called then b.log[i].reason == Cancelled
         else b.log[i].reason == Expired && b.log[i].timer.expire <= now
  }

  /** Draining at exit itself only shuts timers down; the calls of tasks only cancel. */
  ghost predicate DrainOnly(a: Account, b: Account) {
    && Closed(a, b) && a.log <= b.log && a.clock <= b.clock && a.readings <= b.readings
    && forall i | |a.log| <= i < |b.log| :: b.log[i].reason == if b.log[i].called then Cancelled else ShutDown
  }

  /** The first new ending since the log of `a` was made by the loop: that of the first timer pending then. */
  ghost predicate FirstEndedBy(a: Account, b: Account, reason: Reason) {
    && |a.log| < |b.log|
    && b.log[|a.log|].timer in a.pending && IsFirst(b.log[|a.log|].timer, a.pending)
    && b.log[|a.log|].reason == reason && !b.log[|a.log|].called
  }

  /** `timer` ended at entry `i` of the log, for the first time since it had `from` entries. */
  ghost predicate EndsAt(log: seq<Ending>, timer: Timer, from: nat, i: nat) {
    from <= i < |log| && log[i].timer == timer && forall j | from <= j < i :: log[j].timer != timer
  }

  /** How often a timer that ended nowhere in the rest of the log has ended. */
  lemma {:induction false} EndedBefore(log: seq<Ending>, more: seq<Ending>, t: Timer)
    requires log <= more && forall i | |log| <= i < |more| :: more[i].timer != t
    ensures Ended(more)[t] == Ended(log)[t]
    decreases |more|
  {
    if |log| == |more| {
      assert log == more;
    } else {
      EndedBefore(log, more[..|more| - 1], t);
    }
  }

  /** A pending timer that has not ended since is still pending. */
  lemma {:induction false} UnendedIsPending(a: Account, b: Account, t: Timer)
    requires Balanced(a) && Balanced(b) && t in a.pending
    requires a.starts <= b.starts && a.log <= b.log
    requires forall i | |a.log| <= i < |b.log| :: b.log[i].timer != t
    ensures t in b.pending
  {
    hide Ended, Admitted;
    EndedBefore(a.log, b.log, t);
    AdmittedGrows(a.starts, b.starts);
    assert multiset(a.pending)[t] == 1;
    assert Admitted(a.starts)[t] <= Admitted(b.starts)[t];
    assert multiset(b.pending)[t] >= 1;
  }

  /** `t` ended since the log of `a`. */
  ghost predicate EndedAfter(a: Account, b: Account, t: Timer) {
    exists i | |a.log| <= i < |b.log| :: b.log[i].timer == t
  }

  /** What was pending and is not has ended. */
  lemma {:induction false} GoneHasEnded(a: Account, b: Account, t: Timer)
    requires Balanced(a) && Balanced(b) && t in a.pending && t !in b.pending
    requires a.starts <= b.starts && a.log <= b.log
    ensures EndedAfter(a, b, t)
  {
    hide Balanced;
    if !EndedAfter(a, b, t) {
      UnendedIsPending(a, b, t);
    }
  }

  /** After a pass every timer that was due when it began has ended. */
  lemma {:induction false} DueHaveEnded(a: Account, b: Account, at: nat)
    requires Balanced(a) && Balanced(b) && a.starts <= b.starts && a.log <= b.log
    requires forall t | t in b.pending :: t.expire > at
    ensures forall t | t in a.pending && t.expire <= at :: EndedAfter(a, b, t)
  {
    hide Balanced, EndedAfter;
    forall t | t in a.pending && t.expire <= at ensures EndedAfter(a, b, t) {
      GoneHasEnded(a, b, t);
    }
  }

  /** A timer pass under way: it began with a clock reading, and its first ending was that of the first timer. */
  ghost predicate Pass(a: Account, b: Account, at: nat) {
    && PassOnly(a, b, at) && AtReading(a, at, false).readings <= b.readings
    && (b.log == a.log ==> b == AtReading(a, at, false))
    && (b.log != a.log ==> a.pending != {} && FirstEndedBy(a, b, Expired))
  }

  lemma {:induction false} PassBegins(a: Account, at: nat)
    requires a.clock <= at
    ensures Pass(a, AtReading(a, at, false), at)
  {
  }

  /** The pass expires the first pending timer, which is due, and the task it resumes makes its calls. */
  lemma {:induction false} PassContinues(a: Account, b: Account, t: Timer, c: Account, at: nat)
    requires Pass(a, b, at) && t in b.pending && IsFirst(t, b.pending) && t.expire <= at
    requires CallsOnly(End(b, t, Expired, false), c)
    ensures Pass(a, c, at) && c.log != a.log && b.clock <= c.clock
  {
    var b' := End(b, t, Expired, false);
    assert forall i | 0 <= i < |b'.log| :: c.log[i] == b'.log[i];
    assert forall i | 0 <= i < |b.log| :: b'.log[i] == b.log[i];
    assert c.readings[|a.readings|] == b.readings[|a.readings|];
  }

  lemma {:induction false} PassReads(a: Account, b: Account, at: nat, now: nat)
    requires Pass(a, b, at) && b.log != a.log && b.clock <= now
    ensures Pass(a, AtReading(b, now, false), at)
  {
  }

  /** While the driver exits, a pass starts nothing. */
  lemma {:induction false} ClosedContinues(a: Account, b: Account, t: Timer, c: Account)
    requires Closed(a, b) && Closed(End(b, t, Expired, false), c)
    ensures Closed(a, c)
  {
  }

  lemma {:induction false} NoneDue(t: Timer, pending: set<Timer>, at: nat)
    requires t in pending && IsFirst(t, pending) && t.expire > at
    ensures forall u | u in pending :: u.expire > at
  {
  }

  /** What a pass leaves: every timer that was due has ended, the first of them first. */
  lemma {:induction false} PassEnds(a: Account, b: Account, at: nat)
    requires Balanced(a) && Balanced(b) && Pass(a, b, at) && forall t | t in b.pending :: t.expire > at
    ensures PassOnly(a, b, at) && AtReading(a, at, false).readings <= b.readings
    ensures forall t | t in a.pending && t.expire <= at :: EndedAfter(a, b, t)
    ensures (exists t | t in a.pending :: t.expire <= at) ==> FirstEndedBy(a, b, Expired)
    ensures a.pending == {} ==> b == AtReading(a, at, false)
    ensures b.log == a.log ==> b == AtReading(a, at, false)
  {
    hide Balanced, EndedAfter, FirstEndedBy;
    DueHaveEnded(a, b, at);
  }

  /** Shutting timers down, under way: the first ending was that of the first timer. */
  ghost predicate Draining(a: Account, b: Account) {
    && DrainOnly(a, b) && (b.log == a.log ==> b == a)
    && (b.log != a.log ==> FirstEndedBy(a, b, ShutDown))
  }

  lemma {:induction false} DrainingBegins(a: Account)
    ensures Draining(a, a)
  {
  }

  lemma {:induction false} DrainingContinues(a: Account, b: Account, t: Timer, c: Account)
    requires Draining(a, b) && t in b.pending && IsFirst(t, b.pending)
    requires CallsOnly(End(b, t, ShutDown, false), c) && Closed(End(b, t, ShutDown, false), c)
    ensures Draining(a, c)
  {
    var b' := End(b, t, ShutDown, false);
    assert forall i | 0 <= i < |b'.log| :: c.log[i] == b'.log[i];
    assert forall i | 0 <= i < |b.log| :: b'.log[i] == b.log[i];
  }

  /** Once none is pending, all that were have ended, the first of them first. */
  lemma {:induction false} DrainingEnds(a: Account, b: Account)
    requires Balanced(a) && Balanced(b) && Draining(a, b) && b.pending == {}
    ensures DrainOnly(a, b) && (a.pending != {} ==> FirstEndedBy(a, b, ShutDown))
    ensures forall t | t in a.pending :: EndedAfter(a, b, t)
  {
    hide Balanced, EndedAfter, FirstEndedBy;
    forall t | t in a.pending ensures EndedAfter(a, b, t) {
      GoneHasEnded(a, b, t);
    }
  }

  /** Endings are not taken back. */
  lemma {:induction false} DrainExtends(a: Account, b: Account, c: Account)
    requires DrainOnly(a, b) && DrainOnly(b, c)
    ensures DrainOnly(a, c)
    ensures FirstEndedBy(a, b, ShutDown) ==> FirstEndedBy(a, c, ShutDown)
    ensures forall t | EndedAfter(a, b, t) :: EndedAfter(a, c, t)
  {
  }
}

/** Interval schedules. */
module Intervals {
  import opened Timers

  datatype Option<T> = None | Some(value: T)

  datatype Behavior = Burst | Delay | Skip

  /** The `n`-th point of the schedule that starts at `start`. */
  function Grid(start: nat, delay: nat, n: nat): (g: nat)
    ensures g >= start
  {
    if n == 0 then start else Grid(start, delay, n - 1) + delay
  }

  lemma {:induction false} GridIsLinear(start: nat, delay: nat, n: nat)
    ensures Grid(start, delay, n) == start + n * delay
  {
    if n > 0 {
      GridIsLinear(start, delay, n - 1);
      assert n * delay == (n - 1) * delay + delay;
    }
  }

  lemma {:induction false} GridShifts(start: nat, delay: nat, n: nat, m: nat)
    ensures Grid(Grid(start, delay, n), delay, m) == Grid(start, delay, n + m)
    decreases m
  {
    if m > 0 {
      GridShifts(start, delay, n, m - 1);
    }
  }

  /** The first schedule point strictly after `now`, found by stepping. */
  function FirstAfter(expire: nat, delay: nat, now: nat): (g: nat)
    requires delay > 0
    ensures g > now && g >= expire
    decreases if expire > now then 0 else now - expire + 1
  {
    if expire > now then expire else FirstAfter(expire + delay, delay, now)
  }

  lemma {:induction false} MultipleIsAtLeast(k: nat, d: nat)
    requires k >= 1
    ensures k * d >= d
  {
    if k > 1 {
      MultipleIsAtLeast(k - 1, d);
      assert k * d == (k - 1) * d + d;
    }
  }

  lemma {:induction false} RemaindersAgree(q: int, k: nat, r: nat, r': nat, d: nat)
    requires r < d && r' < d && q * d + r == (q + k) * d + r'
    ensures k == 0 && r == r'
  {
    assert (q + k) * d == q * d + k * d;
    if k >= 1 {
      MultipleIsAtLeast(k, d);
    }
  }

  lemma {:induction false} RemainderOfStep(x: nat, d: nat)
    requires 0 < d <= x
    ensures x % d == (x - d) % d
  {
    var y := x - d;
    assert x == (x / d) * d + x % d;
    assert y == (y / d) * d + y % d;
    assert (y / d + 1) * d == (y / d) * d + d;
    if x / d <= y / d + 1 {
      RemaindersAgree(x / d, y / d + 1 - x / d, x % d, y % d, d);
    } else {
      RemaindersAgree(y / d + 1, x / d - (y / d + 1), y % d, x % d, d);
    }
  }

  /** The alignment formula finds the same point without stepping. */
  lemma {:induction false} AlignmentIsStepping(expire: nat, delay: nat, now: nat)
    requires delay > 0 && expire <= now
    ensures now + delay - (now - expire) % delay == FirstAfter(expire, delay, now)
    decreases now - expire
  {
    if expire + delay <= now {
      AlignmentIsStepping(expire + delay, delay, now);
      RemainderOfStep(now - expire, delay);
    }
  }

  /** That point is a whole number of delays away, and at most one delay after `now`. */
  lemma {:induction false} AlignedOnGrid(expire: nat, delay: nat, now: nat)
    requires delay > 0 && expire <= now
    ensures FirstAfter(expire, delay, now) <= now + delay
    ensures (FirstAfter(expire, delay, now) - expire) % delay == 0
    decreases now - expire
  {
    if expire + delay <= now {
      AlignedOnGrid(expire + delay, delay, now);
    }
    RemainderOfStep(FirstAfter(expire, delay, now) - expire, delay);
  }

  lemma {:induction false} FirstAfterIsOnGrid(expire: nat, delay: nat, now: nat) returns (k: nat)
    requires delay > 0
    ensures FirstAfter(expire, delay, now) == Grid(expire, delay, k)
    ensures expire > now <==> k == 0
    ensures k > 0 ==> Grid(expire, delay, k - 1) <= now
    decreases if expire > now then 0 else now - expire + 1
  {
    if expire > now {
      k := 0;
    } else {
      k := FirstAfterIsOnGrid(expire + delay, delay, now);
      assert Grid(expire, delay, 1) == expire + delay by { assert Grid(expire, delay, 0) == expire; }
      GridShifts(expire, delay, 1, k);
      if k > 0 {
        GridShifts(expire, delay, 1, k - 1);
      }
      k := k + 1;
    }
  }

  /** Where the next tick is due, or nothing when the 64-bit addition overflows. An expiry of 0 means unstarted. */
  ghost function NextExpiry(behavior: Behavior, expire: nat, delay: nat, now: nat): Option<nat>
    requires delay > 0
  {
    var base := if expire == 0 then now else expire;
    match behavior
    case Burst => if base + delay > MAX_U64 then None else Some(base + delay)
    case Delay => if now + delay > MAX_U64 then None else Some(now + delay)
    case Skip =>
      if base + delay > MAX_U64 || (now > base + delay && now + delay > MAX_U64) then None
      else if now > base + delay then Some(FirstAfter(base, delay, now))
      else Some(base + delay)
  }

  /** What a tick does: return at once, sleep until a time, or panic. */
  datatype Outcome = Ready | Sleep(until: nat) | Panicked

  class Interval {
    var expire: nat
    const delay: nat
    var behavior: Behavior

    constructor (delay: nat)
      requires delay <= MAX_U64
      ensures this.delay == delay && expire == 0 && behavior == Burst
    {
      this.delay, expire, behavior := delay, 0, Burst;
    }

    method SetMissedTickBehavior(b: Behavior)
      modifies `behavior
      ensures behavior == b
    {
      behavior := b;
    }

    /** Moves to the next expiry, given a clock reading. */
    method Advance(now: nat) returns (o: Outcome)
      requires now <= MAX_U64
      modifies `expire
      ensures delay == 0 ==> o == Ready && expire == old(expire)
      ensures delay > 0 ==>
                match NextExpiry(behavior, old(expire), delay, now)
                case None => o == Panicked
                case Some(next) => expire == next && o == if next > now then Sleep(next) else Ready
      ensures var base := if old(expire) == 0 then now else old(expire);
        delay > 0 ==>
          (o == Panicked ==> expire == base) &&
          match behavior
          case Burst =>
            && (o == Panicked <==> base + delay > MAX_U64)
            && (o != Panicked ==> expire == base + delay)
          case Delay =>
            && (o == Panicked <==> now + delay > MAX_U64)
            && (o != Panicked ==> expire == now + delay)
          case Skip =>
            && (o == Panicked <==> base + delay > MAX_U64 || (now > base + delay && now + delay > MAX_U64))
            && (o != Panicked && now <= base + delay ==> expire == base + delay)
            && (o != Panicked && now > base + delay ==>
                now < expire <= now + delay && (expire - base) % delay == 0)
    {
      if delay == 0 {
        return Ready;
      }
      if expire == 0 {
        expire := now;
      }
      match behavior {
        case Burst =>
          if expire + delay > MAX_U64 {
            return Panicked;
          }
          expire := expire + delay;
        case Delay =>
          if now + delay > MAX_U64 {
            return Panicked;
          }
          expire := now + delay;
        case Skip =>
          if expire + delay > MAX_U64 {
            return Panicked;
          }
          var next: nat := expire + delay;
          if now > next {
            if now + delay > MAX_U64 {
              return Panicked;
            }
            AlignmentIsStepping(expire, delay, now);
            AlignedOnGrid(expire, delay, now);
            next := now + delay;
            var align := (now - expire) % delay;
            next := next - align;
          }
          expire := next;
      }
      o := if expire > now then Sleep(expire) else Ready;
    }
  }

  /** A run of ticks: the behavior, the clock reading and the resulting expiry of each, from a fresh interval. */
  ghost predicate IsRun(delay: nat, modes: seq<Behavior>, readings: seq<nat>, expiries: seq<nat>)
    requires delay > 0
    ensures IsRun(delay, modes, readings, expiries) ==> |modes| == |readings| == |expiries|
  {
    && |modes| == |readings| == |expiries|
    && forall i | 0 <= i < |expiries| ::
         NextExpiry(modes[i], Previous(expiries, i), delay, readings[i]) == Some(expiries[i])
  }

  function Previous(expiries: seq<nat>, i: nat): nat
    requires i <= |expiries|
  {
    if i == 0 then 0 else expiries[i - 1]
  }

  /** Where the schedule stands before tick `i`: at the first reading, then at the previous expiry. */
  ghost function Base(readings: seq<nat>, expiries: seq<nat>, i: nat): nat
    requires i < |readings| == |expiries|
  {
    if i == 0 then readings[0] else expiries[i - 1]
  }

  /** A started interval stays started, so each tick steps from the one before. */
  lemma {:induction false} RunSteps(
    delay: nat, modes: seq<Behavior>, readings: seq<nat>, expiries: seq<nat>, i: nat)
    requires delay > 0 && IsRun(delay, modes, readings, expiries) && i < |expiries|
    ensures var base, now := Base(readings, expiries, i), readings[i];
      && (modes[i] == Delay ==> expiries[i] == now + delay)
      && (modes[i] == Burst ==> expiries[i] == base + delay)
      && (modes[i] == Skip ==> expiries[i] == if now > base + delay then FirstAfter(base, delay, now) else base + delay)
  {
    assert NextExpiry(modes[i], Previous(expiries, i), delay, readings[i]) == Some(expiries[i]);
    if i > 0 {
      assert NextExpiry(modes[i - 1], Previous(expiries, i - 1), delay, readings[i - 1]) == Some(expiries[i - 1]);
    }
  }

  ghost predicate NoDelayMode(modes: seq<Behavior>) {
    forall i | 0 <= i < |modes| :: modes[i] != Delay
  }

  lemma {:induction false} BurstIsOnGrid(
    delay: nat, modes: seq<Behavior>, readings: seq<nat>, expiries: seq<nat>, n: nat)
    requires delay > 0 && IsRun(delay, modes, readings, expiries) && n < |expiries|
    requires forall i | 0 <= i <= n :: modes[i] == Burst
    ensures expiries[n] == Grid(readings[0], delay, n + 1)
  {
    hide IsRun;
    RunSteps(delay, modes, readings, expiries, n);
    if n > 0 {
      BurstIsOnGrid(delay, modes, readings, expiries, n - 1);
    } else {
      assert Grid(readings[0], delay, 0) == readings[0];
    }
  }

  /** Burst does not drift: the n-th expiry depends on the first reading only. */
  lemma {:induction false} BurstHasNoDrift(
    delay: nat, modes: seq<Behavior>, readings: seq<nat>, expiries: seq<nat>, n: nat)
    requires delay > 0 && IsRun(delay, modes, readings, expiries) && n < |expiries|
    requires forall i | 0 <= i <= n :: modes[i] == Burst
    ensures expiries[n] == readings[0] + (n + 1) * delay
  {
    hide IsRun;
    BurstIsOnGrid(delay, modes, readings, expiries, n);
    GridIsLinear(readings[0], delay, n + 1);
  }

  /**
   Burst and Skip, mixed at will and under any clock, tick on the schedule of the first reading and in its order:
   their expiries are a subsequence of what Burst alone would give.
   */
  lemma {:induction false} ExpiriesAreASubsequence(
    delay: nat, modes: seq<Behavior>, readings: seq<nat>, expiries: seq<nat>, n: nat)
    returns (positions: seq<nat>)
    requires delay > 0 && IsRun(delay, modes, readings, expiries) && NoDelayMode(modes) && n <= |expiries|
    ensures |positions| == n
    ensures forall i | 0 <= i < n :: positions[i] >= 1 && expiries[i] == Grid(readings[0], delay, positions[i])
    ensures forall i | 0 < i < n :: positions[i - 1] < positions[i]
  {
    hide IsRun;
    if n == 0 {
      return [];
    }
    positions := ExpiriesAreASubsequence(delay, modes, readings, expiries, n - 1);
    var at := if n == 1 then 0 else positions[n - 2];
    RunSteps(delay, modes, readings, expiries, n - 1);
    var k := StepOnGrid(Base(readings, expiries, n - 1), delay, readings[n - 1], modes[n - 1], expiries[n - 1]);
    GridShifts(readings[0], delay, at, k);
    positions := positions + [at + k];
  }

  /** One Burst or Skip step moves forward on the grid. */
  lemma {:induction false} StepOnGrid(base: nat, delay: nat, now: nat, mode: Behavior, next: nat) returns (k: nat)
    requires delay > 0 && mode != Delay
    requires next == base + delay || (mode == Skip && now > base + delay && next == FirstAfter(base, delay, now))
    ensures k >= 1 && next == Grid(base, delay, k)
    ensures k == 1 <==> next == base + delay
  {
    assert Grid(base, delay, 1) == base + delay by { assert Grid(base, delay, 0) == base; }
    if next == base + delay {
      k := 1;
    } else {
      k := FirstAfterIsOnGrid(base, delay, now);
    }
  }

  /** A Skip call made more than one period late. */
  ghost predicate LateAt(delay: nat, readings: seq<nat>, expiries: seq<nat>, i: nat)
    requires i < |expiries| == |readings|
  {
    i > 0 && readings[i] > expiries[i - 1] + delay
  }

  /** Skip gives the expiries of Burst exactly when no call is more than one period late. */
  lemma {:induction false} SkipIsBurstIffNeverLate(
    delay: nat, modes: seq<Behavior>, readings: seq<nat>, expiries: seq<nat>)
    requires delay > 0 && IsRun(delay, modes, readings, expiries)
    requires forall i | 0 <= i < |modes| :: modes[i] == Skip
    ensures (forall i | 0 <= i < |expiries| :: expiries[i] == Grid(readings[0], delay, i + 1)) <==>
            (forall i | 0 <= i < |expiries| :: !LateAt(delay, readings, expiries, i))
  {
    if forall i | 0 <= i < |expiries| :: !LateAt(delay, readings, expiries, i) {
      forall i | 0 <= i < |expiries| ensures expiries[i] == Grid(readings[0], delay, i + 1) {
        OnTimeIsBurst(delay, modes, readings, expiries, i);
      }
    } else {
      var i :| 0 <= i < |expiries| && LateAt(delay, readings, expiries, i);
      SkipCatchesUp(delay, modes, readings, expiries, i);
      assert Grid(readings[0], delay, i + 1) == Grid(readings[0], delay, i) + delay;
      if expiries[i] == Grid(readings[0], delay, i + 1) {
        assert expiries[i - 1] != Grid(readings[0], delay, i - 1 + 1);
      }
    }
  }

  lemma {:induction false} OnTimeIsBurst(
    delay: nat, modes: seq<Behavior>, readings: seq<nat>, expiries: seq<nat>, n: nat)
    requires delay > 0 && IsRun(delay, modes, readings, expiries) && n < |expiries|
    requires forall i | 0 <= i <= n :: modes[i] == Skip && !LateAt(delay, readings, expiries, i)
    ensures expiries[n] == Grid(readings[0], delay, n + 1)
  {
    hide IsRun;
    RunSteps(delay, modes, readings, expiries, n);
    if n > 0 {
      assert !LateAt(delay, readings, expiries, n);
      OnTimeIsBurst(delay, modes, readings, expiries, n - 1);
    } else {
      assert Grid(readings[0], delay, 0) == readings[0];
    }
  }

  /**
   A Skip tick is never due before its reading. On time it is one period on; when late it is the first schedule
   point strictly after the reading: at most one period away, with none between.
   */
  lemma {:induction false} SkipCatchesUp(
    delay: nat, modes: seq<Behavior>, readings: seq<nat>, expiries: seq<nat>, i: nat)
    requires delay > 0 && IsRun(delay, modes, readings, expiries) && i < |expiries| && modes[i] == Skip
    ensures var base := Base(readings, expiries, i);
      if LateAt(delay, readings, expiries, i)
      then
        && readings[i] < expiries[i] <= readings[i] + delay
        && expiries[i] > base + delay && (expiries[i] - base) % delay == 0
      else expiries[i] == base + delay >= readings[i]
  {
    hide IsRun;
    RunSteps(delay, modes, readings, expiries, i);
    if LateAt(delay, readings, expiries, i) {
      var base := expiries[i - 1];
      AlignmentIsStepping(base, delay, readings[i]);
      var k := FirstAfterIsOnGrid(base, delay, readings[i]);
      GridIsLinear(base, delay, k);
      MultipleHasNoRemainder(k, delay);
    }
  }

  lemma {:induction false} MultipleHasNoRemainder(k: nat, d: nat)
    requires d > 0
    ensures k * d >= 0 && (k * d) % d == 0
  {
    if k > 0 {
      MultipleHasNoRemainder(k - 1, d);
      MultipleIsAtLeast(k, d);
      assert k * d - d == (k - 1) * d;
      RemainderOfStep(k * d, d);
    }
  }
}

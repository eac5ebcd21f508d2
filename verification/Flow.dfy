/** Where started operations are, as values: what each step of the engine or the kernel does to them. */
module Flow {
  import opened Entries

  /** The poll result the wake path expects, and the error bit it refuses (poll(2)). */
  const POLL_IN: int := 1
  const POLL_ERROR: int := 8

  /** A poll result that is an error, or carries the error flag. */
  predicate PollFailed(events: int) {
    events < 0 || (events / POLL_ERROR) % 2 == 1
  }

  /** A poll of the event fd that ended in error. */
  predicate BadPoll(c: Cqe) {
    c.userData == Event && PollFailed(c.result)
  }

  /** No failed poll goes unnoticed. */
  ghost predicate Noticed(posted: seq<Cqe>, overflow: seq<Cqe>, faulted: bool) {
    && (forall c | c in posted :: BadPoll(c) ==> faulted)
    && (forall c | c in overflow :: BadPoll(c) ==> faulted)
  }

  lemma {:induction false} NoticedAppend(posted: seq<Cqe>, overflow: seq<Cqe>, faulted: bool, c: Cqe)
    requires Noticed(posted, overflow, faulted)
    ensures Noticed(posted + [c], overflow, faulted || BadPoll(c))
    ensures Noticed(posted, overflow + [c], faulted || BadPoll(c))
    ensures Noticed(posted, overflow, true)
    ensures overflow != [] ==> Noticed(posted + [overflow[0]], overflow[1..], faulted)
  {
  }

  lemma {:induction false} NoticedAt(posted: seq<Cqe>, overflow: seq<Cqe>, faulted: bool, i: nat)
    requires Noticed(posted, overflow, faulted) && i < |posted| && BadPoll(posted[i])
    ensures faulted
  {
  }

  const READY: Cqe := Cqe(Event, POLL_IN)

  /**
   Every place a started operation can be: pushed and not consumed, held by the kernel,
   overflowed, posted and not claimed by a batch, or claimed and not yet delivered.
   */
  datatype Places = Places(
    pushed: seq<Sqe>, consumed: nat, held: multiset<Request>, overflow: seq<Cqe>,
    posted: seq<Cqe>, claimed: nat, batch: seq<Cqe>)

  ghost predicate InRange(p: Places) {
    p.consumed <= |p.pushed| && p.claimed <= |p.posted|
  }

  /** The requests of all operations started and not delivered. */
  ghost function Outstanding(p: Places): multiset<Request>
    requires InRange(p)
  {
    Owners(p.pushed[p.consumed..]) + p.held + Targets(p.overflow) + Targets(p.posted[p.claimed..]) + Targets(p.batch)
  }

  /** The event-fd poll has fired ready and its completion is still to be delivered. */
  ghost predicate Fired(p: Places)
    requires InRange(p)
  {
    READY in p.overflow || READY in p.posted[p.claimed..] || READY in p.batch
  }

  lemma {:induction false} PushStarts(p: Places, e: Sqe)
    requires InRange(p)
    ensures var p' := p.(pushed := p.pushed + [e]);
      && InRange(p')
      && Outstanding(p') == Outstanding(p) + multiset{e.userData}
      && Owners(p'.pushed) == Owners(p.pushed) + multiset{e.userData}
      && (Fired(p') <==> Fired(p))
  {
    hide Owners, Targets;
    OwnersAppend(p.pushed, e, p.consumed);
  }

  lemma {:induction false} ConsumeMoves(p: Places, n: nat)
    requires InRange(p) && p.consumed + n <= |p.pushed|
    ensures
      var p' := p.(consumed := p.consumed + n, held := p.held + Owners(p.pushed[p.consumed..p.consumed + n]));
      && InRange(p')
      && Outstanding(p') == Outstanding(p)
      && (Fired(p') <==> Fired(p))
      && |p'.held| == |p.held| + n
  {
    hide Owners, Targets;
    OwnersSplit(p.pushed, p.consumed, p.consumed + n);
    OwnersSize(p.pushed[p.consumed..p.consumed + n]);
  }

  lemma {:induction false} PostMoves(p: Places, c: Cqe)
    requires InRange(p) && c.userData in p.held
    ensures var p' := p.(held := p.held - multiset{c.userData}, posted := p.posted + [c]);
      && InRange(p')
      && Outstanding(p') == Outstanding(p)
      && (Fired(p') ==> Fired(p) || c == READY)
      && |p'.held| == |p.held| - 1
  {
    hide Owners, Targets;
    TargetsAppend(p.posted, c, p.claimed);
  }

  lemma {:induction false} OverflowMoves(p: Places, c: Cqe)
    requires InRange(p) && c.userData in p.held
    ensures var p' := p.(held := p.held - multiset{c.userData}, overflow := p.overflow + [c]);
      && InRange(p')
      && Outstanding(p') == Outstanding(p)
      && (Fired(p') ==> Fired(p) || c == READY)
      && |p'.held| == |p.held| - 1
  {
    hide Owners, Targets;
    TargetsAppend(p.overflow, c, 0);
  }

  lemma {:induction false} FlushMoves(p: Places)
    requires InRange(p) && p.overflow != []
    ensures var p' := p.(overflow := p.overflow[1..], posted := p.posted + [p.overflow[0]]);
      && InRange(p')
      && Outstanding(p') == Outstanding(p)
      && (Fired(p') ==> Fired(p))
  {
    hide Owners, Targets;
    TargetsAppend(p.posted, p.overflow[0], p.claimed);
    TargetsTakeFirst(p.overflow);
  }

  lemma {:induction false} ClaimMoves(p: Places, t: nat)
    requires InRange(p) && p.claimed < t <= |p.posted| && p.batch == []
    ensures var p' := p.(claimed := t, batch := Rotation(p.posted[p.claimed..t]));
      && InRange(p')
      && Outstanding(p') == Outstanding(p)
      && (Fired(p') ==> Fired(p))
  {
    hide Owners, Targets;
    var window := p.posted[p.claimed..t];
    TargetsSplit(p.posted, p.claimed, t);
    RotationPermutes(window);
    assert Targets([]) == multiset{} by { TargetsEmpty(); }
    assert p.posted[p.claimed..] == window + p.posted[t..];
    assert READY in Rotation(window) ==> READY in window;
  }

  lemma {:induction false} DeliverFinishes(p: Places)
    requires InRange(p) && p.batch != []
    ensures var p' := p.(batch := p.batch[1..]);
      && InRange(p')
      && Outstanding(p) == Outstanding(p') + multiset{p.batch[0].userData}
      && (Fired(p') ==> Fired(p))
      && (p.batch[0] == READY ==> Fired(p))
  {
    hide Owners, Targets;
    TargetsTakeFirst(p.batch);
  }

  /** With no poll outstanding, none has fired. */
  lemma {:induction false} NoPollNotFired(p: Places)
    requires InRange(p) && Outstanding(p)[Event] == 0
    ensures !Fired(p)
  {
    hide Owners, Targets;
    if READY in p.overflow {
      TargetsCounts(p.overflow, READY);
    } else if READY in p.posted[p.claimed..] {
      TargetsCounts(p.posted[p.claimed..], READY);
    } else if READY in p.batch {
      TargetsCounts(p.batch, READY);
    }
  }

  /** Outstanding operations are counted place by place. */
  lemma {:induction false} OutstandingSize(p: Places)
    requires InRange(p)
    ensures |Outstanding(p)| == |p.pushed| - p.consumed + |p.held| + |p.overflow| + (|p.posted| - p.claimed) + |p.batch|
  {
    hide Owners, Targets;
    OwnersSize(p.pushed[p.consumed..]);
    TargetsSize(p.overflow);
    TargetsSize(p.posted[p.claimed..]);
    TargetsSize(p.batch);
  }
}

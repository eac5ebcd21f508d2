/** The io_uring engine: submission, completion and cross-thread wakes. */
module Engine {
  import opened Word32
  import opened Entries
  import opened Flow
  import opened Machine
  import opened SubmissionRing
  import opened CompletionRing

  datatype OsError = Time | Intr | Busy | Again | Other(code: nat)

  datatype Failure = OutOfMemory | Os(error: OsError)

  /** How a call ends: normally, with an error for its caller, or by aborting the process. */
  datatype Status = Ok | Err(failure: Failure) | Abort {
    predicate IsFailure() {
      !Ok?
    }

    function PropagateFailure(): Status
      requires IsFailure()
    {
      this
    }
  }

  /** What io_uring_enter(2) returns. */
  datatype SysResult = Accepted(n: nat) | Refused(error: OsError)

  /** How an issued operation stands. */
  datatype Progress = Pending | Done(result: int)

  /** Tasks resumed between two reads of the wake queue. */
  const MAX_RESUME: nat := 4

  /** The longest wait of the compatibility path, in nanoseconds. */
  const COMPAT_LIMIT: nat := 1_000_000_000

  /** The timeout the compatibility path submits. */
  function CompatLimit(timeout: nat): (limit: nat)
    ensures limit <= timeout && limit <= COMPAT_LIMIT && (limit == timeout || limit == COMPAT_LIMIT)
  {
    if timeout < COMPAT_LIMIT then timeout else COMPAT_LIMIT
  }

  class IoUring {
    const sq: SubmissionQueue
    const cq: CompletionQueue
    const submitAll: bool
    const extArg: bool
    const unsupported: set<Operation>

    var toSubmit: nat
    var toComplete: nat
    var expectedWakes: nat
    var wakeQueue: seq<nat>
    var eventCount: nat

    // Everything the program does not store: the kernel, the waking threads, where control is, and history.
    var world: World

    // How many wakes the tasks resumed by the current callback will still prepare.
    var prepareBudget: nat

    // Whether the kernel ever failed the program: it faulted submissions, took only some although it takes all
    // or none, or ended a poll of the event fd in error.
    var faulted: bool

    // History: how often the kernel was entered, the waits made in it, the completions handed to tasks, the released
    // index at each callback of a completion, and the wake requests completed.
    ghost var enters: nat
    ghost var waits: seq<Bound>
    ghost var handed: seq<Cqe>
    ghost var heads: seq<nat>
    ghost var woken: seq<nat>

    /** The rings are well formed and the program's own variables agree with the machine. */
    ghost predicate Coupled()
      reads this, sq, sq.entries, sq.index, cq, cq.entries
    {
      && sq.Valid() && cq.Valid()
      && sq.entries as object != cq.entries && sq.index as object != sq.entries && sq.index as object != cq.entries
      && sq.pushed == Ops().pushed && sq.consumed == Ops().consumed && cq.posted == Ops().posted
      && cq.head <= Ops().claimed <= |cq.posted| && Noticed(cq.posted, Ops().overflow, faulted)
      && toSubmit == world.traffic.toSubmit && toComplete == world.traffic.toComplete
      && expectedWakes == world.wakes.expected && wakeQueue == world.wakes.queue && eventCount == world.wakes.count
    }

    function Ops(): Places
      reads `world
    {
      world.traffic.places
    }

    /** Holds whenever another thread or the kernel can step. */
    ghost predicate Inv()
      reads this, sq, sq.entries, sq.index, cq, cq.entries
    {
      Coupled() && Reachable(world)
    }

    /** The loop thread may call the engine: no `enter` is in progress and the ring has room. */
    ghost predicate Ready()
      reads this, sq, sq.entries, sq.index, cq, cq.entries
    {
      Inv() && world.traffic.entering == 0 && toSubmit < sq.Capacity()
    }

    /** Between calls of `work` from the loop: nothing is half done. */
    ghost predicate Idle()
      reads this, sq, sq.entries, sq.index, cq, cq.entries
    {
      && Ready()
      && Ops().claimed == cq.head && Ops().batch == []
      && !world.wakes.owed && !world.wakes.ready && world.wakes.drained == [] && world.wakes.woken == 0
      && Handed()
    }

    /** Every completion of a task's operation was handed to the task, and every wake taken was completed, in order. */
    ghost predicate Handed()
      reads this
    {
      handed == TaskPart(world.traffic.completed) && woken == world.wakes.done
    }

    lemma HeadInRange()
      requires Idle()
      ensures cq.head <= |cq.posted|
    {
    }

    /** Running completions, with no callback running. */
    ghost predicate Between()
      reads this, sq, sq.entries, sq.index, cq, cq.entries
    {
      Ready() && BetweenCallbacks(world) && Handed()
    }

    /** Overflowed completions wait behind a ring with nothing to read. */
    ghost predicate Stranded()
      reads this, cq
    {
      Ops().overflow != [] && |cq.posted| == cq.head
    }

    /** Only the kernel and waking threads stepped, and they stranded no completion. */
    twostate predicate Interfered()
      reads this, sq, cq
    {
      Interference(old(world), world) && (Stranded() ==> old(Stranded())) && (old(faulted) ==> faulted)
    }

    /** Only engine calls and enters were made, with whatever the kernel and waking threads did meanwhile. */
    twostate predicate Entered()
      reads this, sq, cq
    {
      CallEffect(old(world), world) && (Stranded() ==> old(Stranded())) && (old(faulted) ==> faulted)
    }

    /** Only engine calls were made, none of which waited. */
    twostate predicate Called()
      reads this, sq, cq
    {
      CalledFrom(old(world))
    }

    /** The same, had the machine been in state `w` at first. */
    twostate predicate CalledFrom(w: World)
      reads this, sq, cq
    {
      CallEffect(w, world) && (Stranded() ==> old(Stranded())) && (old(faulted) ==> faulted) && waits == old(waits)
    }

    constructor (submissionBits: nat, completionBits: nat, submitAll: bool, extArg: bool, unsupported: set<Operation>)
      requires submissionBits <= 32 && Pow2(submissionBits) < TWO_32
      requires completionBits <= 32 && Pow2(completionBits) < TWO_32
      ensures Idle() && world == Start() && toSubmit == 0 && !faulted && waits == []
      ensures sq.bits == submissionBits && cq.bits == completionBits && this.unsupported == unsupported
      ensures fresh(sq) && fresh(sq.entries) && fresh(sq.index) && fresh(cq) && fresh(cq.entries)
    {
      sq := new SubmissionQueue(submissionBits);
      cq := new CompletionQueue(completionBits);
      this.submitAll, this.extArg, this.unsupported := submitAll, extArg, unsupported;
      toSubmit, toComplete, expectedWakes, wakeQueue, eventCount, prepareBudget, faulted := 0, 0, 0, [], 0, 0, false;
      world := Start();
      enters, waits, handed, heads, woken := 0, [], [], [], [];
      new;
      hide Reachable;
      StartIsReachable();
    }

    // ---- The kernel and other threads ----

    /** The kernel posts a completion to a free slot of the ring. */
    method KernelPost(c: Cqe)
      requires Inv() && c.userData in Ops().held && (c == READY ==> eventCount > 0)
      requires |cq.posted| < cq.head + Pow2(cq.bits)
      modifies `world, `faulted, cq`ktail, cq`posted, cq.entries
      ensures Inv() && Interfered()
    {
      hide Reachable, Noticed, Owners, Targets, TaskPart, SubmissionQueue.Valid, CompletionQueue.Valid;
      NoticedAppend(cq.posted, Ops().overflow, faulted, c);
      faulted := faulted || BadPoll(c);
      cq.Post(c);
      StepReaches(world, Step.Post(c));
      world := Apply(world, Step.Post(c));
    }

    /** The kernel keeps a completion that finds the ring full, or others overflowed before it. */
    method KernelSpill(c: Cqe)
      requires Inv() && c.userData in Ops().held && (c == READY ==> eventCount > 0)
      requires Ops().overflow != [] || |cq.posted| == cq.head + Pow2(cq.bits)
      modifies `world, `faulted
      ensures Inv() && Interfered()
    {
      hide Reachable, Noticed, Owners, Targets, TaskPart, SubmissionQueue.Valid, CompletionQueue.Valid;
      NoticedAppend(cq.posted, Ops().overflow, faulted, c);
      faulted := faulted || BadPoll(c);
      StepReaches(world, Spill(c));
      world := Apply(world, Spill(c));
    }

    /** The kernel completes an operation it holds. */
    method KernelComplete(c: Cqe)
      requires Inv() && c.userData in Ops().held && (c == READY ==> eventCount > 0)
      modifies `world, `faulted, cq`ktail, cq`posted, cq.entries
      ensures Inv() && Interfered()
    {
      hide Reachable, Noticed, Apply, Enabled, Owners, Targets, TaskPart, SubmissionQueue.Valid, CompletionQueue.Valid;
      var room := cq.HasRoom();
      if Ops().overflow == [] && room {
        KernelPost(c);
      } else {
        KernelSpill(c);
      }
    }

    /** The locked half of `wake`: the request is queued, and the caller must signal an empty queue. */
    method WakeEnqueue(request: nat) returns (signal: bool)
      requires Inv() && world.wakes.prepared > 0
      modifies `world, `wakeQueue
      ensures Inv() && Interfered()
      ensures wakeQueue == old(wakeQueue) + [request]
      ensures signal <==> old(wakeQueue) == []
      ensures world.wakes.prepared == old(world.wakes.prepared) - 1
      ensures world.wakes.writers == old(world.wakes.writers) + if signal then 1 else 0
    {
      hide Reachable, Noticed, Owners, Targets, TaskPart, SubmissionQueue.Valid, CompletionQueue.Valid;
      signal := wakeQueue == [];
      wakeQueue := wakeQueue + [request];
      StepReaches(world, Enqueue(request));
      world := Apply(world, Enqueue(request));
    }

    /** The unlocked half of `wake`: the event fd is written. */
    method WakeSignal()
      requires Inv() && world.wakes.writers > 0
      modifies `world, `eventCount
      ensures Inv() && Interfered() && eventCount == old(eventCount) + 1
      ensures world.wakes.writers == old(world.wakes.writers) - 1
    {
      hide Reachable, Noticed, Owners, Targets, TaskPart, SubmissionQueue.Valid, CompletionQueue.Valid;
      eventCount := eventCount + 1;
      StepReaches(world, Signal);
      world := Apply(world, Signal);
    }

    /** Any number of steps of the kernel and of waking threads; none enqueues while the lock is held. */
    method Interfere(locked: bool)
      requires Inv()
      modifies `world, `wakeQueue, `eventCount, `faulted, cq`ktail, cq`posted, cq.entries
      ensures Inv() && Interfered()
      ensures locked ==> wakeQueue == old(wakeQueue)
    {
      hide Reachable, Noticed, Apply, Enabled, Owners, Targets, TaskPart, SubmissionQueue.Valid, CompletionQueue.Valid;
      var steps: nat :| true;
      for k := 0 to steps
        invariant Inv() && Interfered()
        invariant locked ==> wakeQueue == old(wakeQueue)
      {
        if {
          case Ops().held != multiset{} =>
            // Any held operation, with any result; a poll of the event fd reports data only if there is some.
            var request :| request in Ops().held;
            var result: int := *;
            if Cqe(request, result) != READY || eventCount > 0 {
              KernelComplete(Cqe(request, result));
            }
          case !locked && world.wakes.prepared > 0 =>
            var request: nat := *;
            var signal := WakeEnqueue(request);
          case world.wakes.writers > 0 =>
            WakeSignal();
          case true =>
        }
      }
    }

    /** The kernel moves overflowed completions into free slots. */
    method KernelUnspill()
      requires Inv()
      modifies `world, cq`ktail, cq`posted, cq.entries
      ensures Inv() && Interfered() && !Stranded()
    {
      hide Reachable, Noticed, Owners, Targets, TaskPart, SubmissionQueue.Valid, CompletionQueue.Valid;
      var room := cq.HasRoom();
      while Ops().overflow != [] && room
        invariant Inv() && Interfered()
        invariant room <==> |cq.posted| < cq.head + Pow2(cq.bits)
        decreases |Ops().overflow|
      {
        NoticedAppend(cq.posted, Ops().overflow, faulted, Ops().overflow[0]);
        cq.Post(Ops().overflow[0]);
        StepReaches(world, Unspill);
        world := Apply(world, Unspill);
        room := cq.HasRoom();
      }
    }

    /** The kernel takes the next `n` entries of the submission ring. */
    method KernelAccept(n: nat)
      requires Inv() && n <= world.traffic.entering && sq.consumed + n <= sq.published
      modifies `world, sq`khead, sq`consumed
      ensures Inv() && Called() && world.traffic.entering == old(world.traffic.entering) - n
      ensures sq.consumed == old(sq.consumed) + n
      ensures Ops().held == old(Ops().held) + Owners(sq.pushed[old(sq.consumed)..sq.consumed])
    {
      hide Reachable, Noticed, Owners, Targets, TaskPart, SubmissionQueue.Valid, CompletionQueue.Valid;
      var taken := sq.Consume(n);
      assert taken == Ops().pushed[Ops().consumed..Ops().consumed + n];
      StepReaches(world, Step.Accept(n));
      world := Apply(world, Step.Accept(n));
    }

    /** The rest of an enter whose submissions were all accepted: flush if asked, and wait if asked. */
    method KernelWait(minComplete: nat, getEvents: bool, limit: Bound)
      requires Inv()
      modifies `world, `wakeQueue, `eventCount, `faulted, `waits, cq`ktail, cq`posted, cq.entries
      ensures Inv() && Interfered() && (getEvents ==> !Stranded())
      ensures waits == old(waits) + if minComplete > 0 then [WaitBound(limit, sq.pushed)] else []
    {
      hide Reachable, Noticed, Apply, Enabled, Owners, Targets, TaskPart, SubmissionQueue.Valid, CompletionQueue.Valid;
      if getEvents {
        KernelUnspill();
      }
      waits := waits + if minComplete > 0 then [WaitBound(limit, sq.pushed)] else [];
      Interfere(false);
    }

    method Fault()
      requires Inv()
      modifies `faulted
      ensures Inv() && Interfered() && faulted
    {
      hide Reachable, Noticed, Apply, Enabled, Owners, Targets, TaskPart, SubmissionQueue.Valid, CompletionQueue.Valid;
      NoticedAppend(cq.posted, Ops().overflow, faulted, READY);
      faulted := true;
    }

    /** The submission half of an enter: the kernel refuses the `n` entries offered, or accepts the first few. */
    method KernelOffer(n: nat) returns (result: SysResult)
      requires Inv() && n == world.traffic.entering > 0 && sq.published == |sq.pushed|
      modifies `world, `faulted, sq`khead, sq`consumed
      ensures Inv() && Called()
      ensures result.Accepted? ==> 0 < result.n <= n && world.traffic.entering == n - result.n
      ensures result.Refused? ==> world.traffic.entering == n && faulted
      ensures result.Accepted? && result.n < n && submitAll ==> faulted
    {
      hide Reachable, Noticed, Apply, Enabled, Owners, Targets, TaskPart, SubmissionQueue.Valid, CompletionQueue.Valid;
      Counts(world);
      if * {
        var error: OsError := *;
        Fault();
        return Refused(error);
      }
      var accepted: nat :| 1 <= accepted <= n;
      KernelAccept(accepted);
      if accepted < n && submitAll {
        Fault();
      }
      result := Accepted(accepted);
    }

    /**
     io_uring_enter(2). The kernel accepts a nonempty prefix of what it is offered, or refuses all of it;
     it waits, until `limit` or a submitted timeout ends that, only when everything offered was accepted.
     */
    method KernelEnter(n: nat, minComplete: nat, getEvents: bool, limit: Bound)
      returns (result: SysResult)
      requires Inv() && n == world.traffic.entering && sq.published == |sq.pushed|
      modifies `world, `wakeQueue, `eventCount, `faulted, `waits, `enters, cq`ktail, cq`posted, cq.entries,
        sq`khead, sq`consumed
      ensures Inv() && Entered() && enters == old(enters) + 1
      ensures result.Accepted? ==> result.n <= n && world.traffic.entering == n - result.n && (n > 0 ==> result.n > 0)
      ensures result.Refused? ==> world.traffic.entering == n
      ensures waits == old(waits) +
                if minComplete > 0 && world.traffic.entering == 0 &&
                   (result.Refused? ==> result.error in {Time, Intr, Busy})
                then [WaitBound(limit, sq.pushed)] else []
      ensures result.Refused? && (n > 0 || result.error !in {Time, Intr, Busy}) ==> faulted
      ensures result.Accepted? && result.n < n && submitAll ==> faulted
      ensures getEvents && world.traffic.entering == 0 && (result.Refused? ==> result.error in {Time, Intr, Busy}) ==>
                !Stranded()
    {
      hide Reachable, Noticed, Apply, Enabled, Owners, Targets, TaskPart, SubmissionQueue.Valid, CompletionQueue.Valid;
      Interfere(false);
      enters := enters + 1;
      result := Accepted(0);
      if n > 0 {
        result := KernelOffer(n);
        if result != Accepted(n) {
          Interfere(false);
          return;
        }
      } else if * {
        var error: OsError := *;
        result := Refused(error);
        if error !in {Time, Intr, Busy} {
          Fault();
          return;
        }
      }
      KernelWait(minComplete, getEvents, limit);
    }

    // ---- Submission ----

    /**
     Publishes the tail and offers every queued entry to the kernel until all are accepted.
     The ghost result is the last answer of the kernel.
     */
    method Enter(minComplete: nat, getEvents: bool, limit: Bound)
      returns (r: Status, ghost last: SysResult)
      requires Inv() && world.traffic.entering == 0
      modifies `world, `wakeQueue, `eventCount, `faulted, `waits, `enters, `toSubmit, `toComplete,
        cq`ktail, cq`posted, cq.entries, sq`ktail, sq`published, sq`khead, sq`consumed
      ensures Inv() && Entered() && toSubmit == 0 && !r.Abort?
      ensures r.Ok? <==> world.traffic.entering == 0 && (last.Refused? ==> last.error in {Time, Intr, Busy})
      ensures r.Ok? ==> sq.consumed == sq.published == |sq.pushed|
      ensures r.Err? ==> faulted
      ensures r.Err? ==> r.failure == if last.Refused? && last.error != Again then Os(last.error) else OutOfMemory
      ensures last.Accepted? && world.traffic.entering > 0 ==> submitAll
      ensures waits == old(waits) + if r.Ok? && minComplete > 0 then [WaitBound(limit, sq.pushed)] else []
      ensures r.Ok? && getEvents ==> !Stranded()
    {
      hide Reachable, Noticed, Apply, Enabled, Owners, Targets, TaskPart, SubmissionQueue.Valid, CompletionQueue.Valid;
      sq.Sync();
      var remaining := BeginEntering();
      last := Accepted(0);
      while true
        invariant Inv() && Called() && world.traffic.entering == remaining && toSubmit == 0
        invariant sq.published == |sq.pushed|
        decreases remaining
      {
        var result;
        result := KernelEnter(remaining, minComplete, getEvents, limit);
        last := result;
        Counts(world);
        match result
        case Accepted(n) =>
          remaining := remaining - n;
          if remaining == 0 {
            r := Ok;
            return;
          }
          if !submitAll {
            continue;
          }
          r := Err(OutOfMemory);
          return;
        case Refused(error) =>
          if error in {Time, Intr, Busy} && remaining == 0 {
            r := Ok;
          } else if error == Again {
            r := Err(OutOfMemory);
          } else {
            r := Err(Os(error));
          }
          return;
      }
    }

    /** Everything queued becomes in flight; the caller must get it accepted. */
    method BeginEntering() returns (n: nat)
      requires Inv() && world.traffic.entering == 0
      modifies `world, `toSubmit, `toComplete
      ensures Inv() && Called() && toSubmit == 0 && n == old(toSubmit) == world.traffic.entering
      ensures toComplete == old(toComplete) + n
    {
      hide Reachable, Noticed, Owners, Targets, TaskPart, SubmissionQueue.Valid, CompletionQueue.Valid;
      n := toSubmit;
      toSubmit := 0;
      toComplete := toComplete + n;
      StepReaches(world, BeginEnter);
      world := Apply(world, BeginEnter);
    }

    /** Submits what is queued without waiting, and has the kernel flush overflowed completions. */
    method Flush() returns (r: Status)
      requires Inv() && world.traffic.entering == 0
      modifies `world, `wakeQueue, `eventCount, `faulted, `waits, `enters, `toSubmit, `toComplete,
        cq`ktail, cq`posted, cq.entries, sq`ktail, sq`published, sq`khead, sq`consumed
      ensures Inv() && Called() && toSubmit == 0 && !r.Abort? && (r.Err? ==> faulted)
      ensures r.Ok? ==> world.traffic.entering == 0 && !Stranded() && sq.consumed == |sq.pushed|
    {
      hide Reachable, Noticed, Apply, Enabled, Owners, Targets, TaskPart, SubmissionQueue.Valid, CompletionQueue.Valid;
      var needsFlush := Ops().overflow != [];
      ghost var last;
      r, last := Enter(0, needsFlush, Unbounded);
    }

    /** Queues one entry; a full ring is flushed at once, and failing that aborts. */
    method Push(entry: Sqe) returns (r: Status)
      requires Ready() && (entry.userData == Event ==> world.wakes.owed && !world.wakes.ready)
      modifies `world, `wakeQueue, `eventCount, `faulted, `waits, `enters, `toSubmit, `toComplete,
        cq`ktail, cq`posted, cq.entries, sq, sq.entries
      ensures r.Ok? || (r.Abort? && faulted)
      ensures r.Ok? ==> Ready() && sq.pushed == old(sq.pushed) + [entry]
      ensures r.Ok? ==> toSubmit == if old(toSubmit) + 1 < sq.Capacity() then old(toSubmit) + 1 else 0
      ensures old(toSubmit) + 1 < sq.Capacity() ==> r.Ok? && enters == old(enters)
      ensures r.Ok? ==> CalledFrom(Settled(old(world), entry))
    {
      hide Reachable, Noticed, Owners, Targets, TaskPart, SubmissionQueue.Valid, CompletionQueue.Valid;
      Counts(world);
      sq.Push(entry);
      toSubmit := toSubmit + 1;
      StepReaches(world, Step.Push(entry));
      world := Apply(world, Step.Push(entry));
      if toSubmit < Pow2(sq.bits) {
        return Ok;
      }
      r := Flush();
      if r.Err? {
        r := Abort;
      }
    }

    /** Starts an asynchronous operation: exactly one entry, carrying the request. */
    method StartAsync(opcode: Opcode, request: Request) returns (r: Status)
      requires Ready() && (request == Event ==> world.wakes.owed && !world.wakes.ready)
      modifies `world, `wakeQueue, `eventCount, `faulted, `waits, `enters, `toSubmit, `toComplete,
        cq`ktail, cq`posted, cq.entries, sq, sq.entries
      ensures r.Ok? || (r.Abort? && faulted)
      ensures old(toSubmit) + 1 < sq.Capacity() ==> r.Ok?
      ensures r.Ok? ==> Ready() && sq.pushed == old(sq.pushed) + [Sqe(opcode, request)]
      ensures r.Ok? ==> CalledFrom(Settled(old(world), Sqe(opcode, request)))
    {
      hide Reachable, Noticed, Apply, Enabled, Owners, Targets, TaskPart, SubmissionQueue.Valid, CompletionQueue.Valid;
      r := Push(Sqe(opcode, request));
    }

    /** Operations done by a plain system call: two always, three when the kernel lacks the opcode. */
    predicate IsSynchronous(operation: Operation) {
      operation in {Bind, Listen} || (operation in {Close, Socket, Shutdown} && operation in unsupported)
    }

    /**
     Issues an operation for a task. It is done at once, with the result of the system call and nothing
     queued, or it is pending behind exactly one entry that carries its request.
     */
    method Issue(operation: Operation, task: nat, result: int) returns (r: Status, progress: Progress)
      requires Ready()
      modifies `world, `wakeQueue, `eventCount, `faulted, `waits, `enters, `toSubmit, `toComplete,
        cq`ktail, cq`posted, cq.entries, sq, sq.entries
      ensures r.Ok? || (r.Abort? && faulted)
      ensures r.Ok? ==> Ready() && Called()
      ensures old(toSubmit) + 1 < sq.Capacity() ==> r.Ok?
      ensures operation in {Bind, Listen} || (operation in {Close, Socket, Shutdown} && operation in unsupported) ==>
                r.Ok? && progress == Done(result) && world == old(world) && toSubmit == old(toSubmit)
      ensures operation !in {Bind, Listen} && (operation in {Close, Socket, Shutdown} ==> operation !in unsupported) ==>
                r.Ok? ==>
                progress == Pending && sq.pushed == old(sq.pushed) + [Sqe(Perform(operation), Task(task))]
    {
      hide Reachable, Noticed, Apply, Enabled, Owners, Targets, TaskPart, SubmissionQueue.Valid, CompletionQueue.Valid;
      if IsSynchronous(operation) {
        return Ok, Done(result);
      }
      r := StartAsync(Perform(operation), Task(task));
      progress := Pending;
    }

    /** Cancels a request: one entry of the shared no-op request, whatever the target. */
    method Cancel(target: Request) returns (r: Status)
      requires Ready()
      modifies `world, `wakeQueue, `eventCount, `faulted, `waits, `enters, `toSubmit, `toComplete,
        cq`ktail, cq`posted, cq.entries, sq, sq.entries
      ensures r.Ok? || (r.Abort? && faulted)
      ensures r.Ok? ==> Ready() && Called() && sq.pushed == old(sq.pushed) + [Sqe(CancelRequest(target), NoOp)]
      ensures r.Ok? ==> forall q | q != NoOp :: Owners(sq.pushed)[q] == Owners(old(sq.pushed))[q]
      ensures old(toSubmit) + 1 < sq.Capacity() ==> r.Ok?
    {
      hide Reachable, Noticed, Apply, Enabled, Owners, Targets, TaskPart, SubmissionQueue.Valid, CompletionQueue.Valid;
      OwnersAppend(sq.pushed, Sqe(CancelRequest(target), NoOp), 0);
      r := StartAsync(CancelRequest(target), NoOp);
    }

    // ---- Wakes ----

    /** Arms the one-shot poll of the event fd. */
    method PollWake() returns (r: Status)
      requires Ready() && world.wakes.owed && !world.wakes.ready
      modifies `world, `wakeQueue, `eventCount, `faulted, `waits, `enters, `toSubmit, `toComplete,
        cq`ktail, cq`posted, cq.entries, sq, sq.entries
      ensures r.Ok? || (r.Abort? && faulted)
      ensures r.Ok? ==> Ready() && sq.pushed == old(sq.pushed) + [Sqe(PollEventFd, Event)]
      ensures r.Ok? ==> CalledFrom(Settled(old(world), Sqe(PollEventFd, Event)))
    {
      hide Reachable, Noticed, Apply, Enabled, Owners, Targets, TaskPart, SubmissionQueue.Valid, CompletionQueue.Valid;
      r := StartAsync(PollEventFd, Event);
    }

    /** Expects one more wake; the first one arms the poll, unless a pass is running. */
    method PrepareWake() returns (r: Status)
      requires Ready()
      modifies `world, `wakeQueue, `eventCount, `faulted, `waits, `enters, `toSubmit, `toComplete, `expectedWakes,
        cq`ktail, cq`posted, cq.entries, sq, sq.entries
      ensures r.Ok? || (r.Abort? && faulted)
      ensures r.Ok? ==> Ready() && Called() && expectedWakes == old(expectedWakes) + 1
      ensures r.Ok? ==> sq.pushed == old(sq.pushed) + if old(expectedWakes) == 0 then [Sqe(PollEventFd, Event)] else []
    {
      hide Reachable, Noticed, Owners, Targets, TaskPart, SubmissionQueue.Valid, CompletionQueue.Valid;
      Counts(world);
      expectedWakes := expectedWakes + 1;
      StepReaches(world, Prepare);
      world := Apply(world, Prepare);
      if expectedWakes == 1 {
        r := PollWake();
      } else {
        r := Ok;
      }
    }

    /** One engine call of a resumed task: it starts an operation, cancels, or prepares a wake. */
    method TaskCall() returns (r: Status)
      requires Ready()
      modifies `world, `wakeQueue, `eventCount, `faulted, `waits, `enters, `toSubmit, `toComplete, `expectedWakes,
        `prepareBudget, cq`ktail, cq`posted, cq.entries, sq, sq.entries
      ensures r.Ok? || (r.Abort? && faulted)
      ensures r.Ok? ==> Ready() && Called() && prepareBudget + expectedWakes <= old(prepareBudget + expectedWakes)
    {
      hide Reachable, Noticed, Apply, Enabled, Owners, Targets, TaskPart, SubmissionQueue.Valid, CompletionQueue.Valid;
      if {
        case true =>
          var operation: Operation, task: nat, result: int := *, *, *;
          var progress;
          r, progress := Issue(operation, task, result);
        case true =>
          var target: Request := *;
          r := Cancel(target);
        case prepareBudget > 0 =>
          prepareBudget := prepareBudget - 1;
          r := PrepareWake();
      }
    }

    /** Resumes a task, which makes any finite number of engine calls. */
    method ResumeTask() returns (r: Status)
      requires Ready()
      modifies `world, `wakeQueue, `eventCount, `faulted, `waits, `enters, `toSubmit, `toComplete, `expectedWakes,
        `prepareBudget, cq`ktail, cq`posted, cq.entries, sq, sq.entries
      ensures r.Ok? || (r.Abort? && faulted)
      ensures r.Ok? ==> Ready() && Called() && prepareBudget + expectedWakes <= old(prepareBudget + expectedWakes)
    {
      hide Reachable, Noticed, Apply, Enabled, Owners, Targets, TaskPart, SubmissionQueue.Valid, CompletionQueue.Valid;
      var calls: nat :| true;
      for k := 0 to calls
        invariant Ready() && Called() && prepareBudget + expectedWakes <= old(prepareBudget + expectedWakes)
      {
        Interfere(false);
        :- TaskCall();
      }
      r := Ok;
    }

    /** The poll ended without data: an error aborts, anything else arms the poll again. */
    method ProcessWakeCold(events: int) returns (r: Status)
      requires Ready() && world.wakes.owed && !world.wakes.ready && world.wakes.drained == [] && world.wakes.woken == 0
      requires PollFailed(events) ==> faulted
      modifies `world, `wakeQueue, `eventCount, `faulted, `waits, `enters, `toSubmit, `toComplete,
        cq`ktail, cq`posted, cq.entries, sq, sq.entries
      ensures r.Ok? || (r.Abort? && faulted)
      ensures r.Ok? ==> events >= 0 && (events / 8) % 2 == 0
      ensures r.Ok? ==> Ready() && PassEffect(old(world), world) && world.wakes.done == old(world.wakes.done)
      ensures r.Ok? ==> waits == old(waits)
    {
      hide Reachable, Noticed, Apply, Enabled, Owners, Targets, TaskPart, SubmissionQueue.Valid, CompletionQueue.Valid;
      if PollFailed(events) {
        return Abort;
      }
      Interfere(false);
      r := PollWake();
    }

    /** Reads and clears the event fd; a nonblocking read of zero fails. */
    method ReadEvent() returns (ok: bool)
      requires Inv() && world.wakes.ready && wakeQueue == []
      modifies `world, `eventCount
      ensures Inv() && ok && eventCount == 0
      ensures Interference(old(world).(wakes := old(world).wakes.(ready := false, count := 0)), world)
      ensures Stranded() ==> old(Stranded())
    {
      hide Reachable, Noticed, Owners, Targets, TaskPart, SubmissionQueue.Valid, CompletionQueue.Valid;
      Counts(world);
      ok := eventCount > 0;
      eventCount := 0;
      StepReaches(world, ClearEvent);
      world := Apply(world, ClearEvent);
    }

    /** Under the lock, takes up to four requests off the queue. */
    method DrainQueue() returns (requests: seq<nat>)
      requires Inv() && world.wakes.ready && world.wakes.drained == [] && wakeQueue != []
      modifies `world, `wakeQueue
      ensures Inv() && old(wakeQueue) == requests + wakeQueue
      ensures |requests| == if |old(wakeQueue)| < 4 then |old(wakeQueue)| else 4
      ensures CallEffect(old(world).(wakes := old(world).wakes.(drained := requests)), world)
      ensures world.traffic == old(world.traffic)
    {
      hide Reachable, Noticed, Owners, Targets, TaskPart, SubmissionQueue.Valid, CompletionQueue.Valid;
      var amount := if |wakeQueue| < MAX_RESUME then |wakeQueue| else MAX_RESUME;
      requests := wakeQueue[..amount];
      wakeQueue := wakeQueue[amount..];
      StepReaches(world, Drain(amount));
      world := Apply(world, Drain(amount));
    }

    /** Completes the next drained wake request, and runs the task it resumes. */
    method CompleteWake(request: nat) returns (r: Status)
      requires Ready() && world.wakes.drained != [] && request == world.wakes.drained[0] && woken == world.wakes.done
      modifies `world, `wakeQueue, `eventCount, `faulted, `waits, `enters, `toSubmit, `toComplete, `expectedWakes,
        `prepareBudget, `woken, cq`ktail, cq`posted, cq.entries, sq, sq.entries
      ensures r.Ok? || (r.Abort? && faulted)
      ensures r.Ok? ==> Ready() && CalledFrom(Resumed(old(world)))
      ensures r.Ok? ==> woken == old(woken) + [request] == world.wakes.done
      ensures r.Ok? ==> prepareBudget + expectedWakes <= old(prepareBudget + expectedWakes)
    {
      hide Reachable, Noticed, Owners, Targets, TaskPart, SubmissionQueue.Valid, CompletionQueue.Valid;
      Interfere(false);
      StepReaches(world, Step.Resume);
      world := Apply(world, Step.Resume);
      woken := woken + [request];
      r := ResumeTask();
    }

    /** Completes all drained requests, in the order they were queued. */
    method CompleteWakes(requests: seq<nat>) returns (r: Status)
      requires Ready() && requests == world.wakes.drained && woken == world.wakes.done
      modifies `world, `wakeQueue, `eventCount, `faulted, `waits, `enters, `toSubmit, `toComplete, `expectedWakes,
        `prepareBudget, `woken, cq`ktail, cq`posted, cq.entries, sq, sq.entries
      ensures r.Ok? || (r.Abort? && faulted)
      ensures r.Ok? ==> Ready() && CalledFrom(AllResumed(old(world)))
      ensures r.Ok? ==> woken == old(woken) + requests == world.wakes.done
      ensures r.Ok? ==> prepareBudget + expectedWakes <= old(prepareBudget + expectedWakes)
    {
      hide Reachable, Noticed, Apply, Enabled, Owners, Targets, TaskPart, SubmissionQueue.Valid, CompletionQueue.Valid;
      hide ResumedBy, Resumed, AllResumed, CallEffect;
      ResumedByEnds(world);
      CallEffectReflexive(world);
      for k := 0 to |requests|
        invariant woken == old(woken) + requests[..k] == world.wakes.done
        invariant Ready() && prepareBudget + expectedWakes <= old(prepareBudget + expectedWakes)
        invariant CalledFrom(ResumedBy(old(world), k))
      {
        StillDrained(old(world), k, world);
        assert requests[..k] + [requests[k]] == requests[..k + 1];
        ghost var before := world;
        :- CompleteWake(requests[k]);
        ResumesCompose(old(world), k, before, world);
      }
      r := Ok;
    }

    /**
     One turn of a wake pass. Under the lock it takes a batch, and completes it without the lock; or, when the
     queue is empty, clears the event fd with the lock still held and reports zero.
     */
    method WakeRound() returns (r: Status, amount: nat)
      requires woken == world.wakes.done
      requires Ready() && world.wakes.ready && world.wakes.drained == []
      modifies `world, `wakeQueue, `eventCount, `faulted, `waits, `enters, `toSubmit, `toComplete, `expectedWakes,
        `prepareBudget, `woken, cq`ktail, cq`posted, cq.entries, sq, sq.entries
      ensures r.Ok? || (r.Abort? && faulted)
      ensures r.Ok? ==> Ready() && PassProgress(old(world), world) && woken == world.wakes.done && waits == old(waits)
      ensures r.Ok? ==> world.wakes.woken == old(world.wakes.woken) + amount && (world.wakes.ready <==> amount > 0)
      ensures r.Ok? ==> prepareBudget + expectedWakes <= old(prepareBudget + expectedWakes)
      ensures r.Ok? && amount == 0 ==> eventCount == 0 && |old(world.wakes.pushed)| <= |world.wakes.done|
    {
      hide Reachable, Noticed, Apply, Enabled, Owners, Targets, TaskPart, SubmissionQueue.Valid, CompletionQueue.Valid;
      Interfere(false);
      Counts(world);
      if wakeQueue == [] {
        Interfere(true);
        Counts(world);
        var ok := ReadEvent();
        return if ok then Ok else Abort, 0;
      }
      var requests := DrainQueue();
      amount := |requests|;
      r := CompleteWakes(requests);
    }

    /** Runs turns until the queue was found empty; returns how many requests were completed. */
    method RunPass() returns (r: Status, done: nat)
      requires woken == world.wakes.done
      requires Ready() && world.wakes.ready && world.wakes.drained == [] && world.wakes.woken == 0
      modifies `world, `wakeQueue, `eventCount, `faulted, `waits, `enters, `toSubmit, `toComplete, `expectedWakes,
        `prepareBudget, `woken, cq`ktail, cq`posted, cq.entries, sq, sq.entries
      ensures r.Ok? || (r.Abort? && faulted)
      ensures r.Ok? ==> Ready() && world.wakes.woken == done && !world.wakes.ready
      ensures r.Ok? ==> PassProgress(old(world), world) && woken == world.wakes.done && waits == old(waits)
      ensures r.Ok? ==> |old(world.wakes.pushed)| <= |world.wakes.done|
    {
      hide Reachable, Noticed, Apply, Enabled, Owners, Targets, TaskPart, SubmissionQueue.Valid, CompletionQueue.Valid;
      Counts(world);
      done := 0;
      while true
        invariant Ready() && world.wakes.woken == done && world.wakes.ready
        invariant PassProgress(old(world), world) && woken == world.wakes.done && waits == old(waits)
        decreases prepareBudget + expectedWakes - done
      {
        Counts(world);
        var amount;
        r, amount := WakeRound();
        if r.Abort? || amount == 0 {
          return;
        }
        Counts(world);
        done := done + amount;
      }
    }

    /** Takes the completed wakes off the expected ones, and arms the poll if some remain. */
    method EndWakePass(done: nat) returns (r: Status)
      requires Ready() && world.wakes.owed && !world.wakes.ready
      requires world.wakes.drained == [] && world.wakes.woken == done
      modifies `world, `wakeQueue, `eventCount, `faulted, `waits, `enters, `toSubmit, `toComplete, `expectedWakes,
        `prepareBudget, cq`ktail, cq`posted, cq.entries, sq, sq.entries
      ensures r.Ok? || (r.Abort? && faulted)
      ensures r.Ok? ==> Ready() && PassEffect(old(world), world) && world.wakes.done == old(world.wakes.done)
      ensures r.Ok? ==> waits == old(waits)
      ensures r.Ok? ==> expectedWakes == old(expectedWakes) - done
    {
      hide Reachable, Noticed, Owners, Targets, TaskPart, SubmissionQueue.Valid, CompletionQueue.Valid;
      Interfere(false);
      Counts(world);
      expectedWakes := expectedWakes - done;
      StepReaches(world, EndPass);
      world := Apply(world, EndPass);
      r := Ok;
      if expectedWakes != 0 {
        r := PollWake();
      }
    }

    /** Handles the completion of the event-fd poll: it runs a pass, then arms the poll while wakes are expected. */
    method ProcessWake(events: int) returns (r: Status)
      requires woken == world.wakes.done
      requires Ready() && world.wakes.owed && world.wakes.drained == [] && world.wakes.woken == 0
      requires world.wakes.ready <==> events == POLL_IN
      requires PollFailed(events) ==> faulted
      modifies `world, `wakeQueue, `eventCount, `faulted, `waits, `enters, `toSubmit, `toComplete, `expectedWakes,
        `prepareBudget, `woken, cq`ktail, cq`posted, cq.entries, sq, sq.entries
      ensures r.Ok? || (r.Abort? && faulted)
      ensures r.Ok? ==> Ready() && PassEffect(old(world), world) && woken == world.wakes.done && waits == old(waits)
      ensures r.Ok? && events == POLL_IN ==> |old(world.wakes.pushed)| <= |world.wakes.done|
      ensures r.Ok? && events != POLL_IN ==> world.wakes.done == old(world.wakes.done)
    {
      hide Reachable, Noticed, Apply, Enabled, Owners, Targets, TaskPart, SubmissionQueue.Valid, CompletionQueue.Valid;
      if events != POLL_IN {
        r := ProcessWakeCold(events);
        return;
      }
      prepareBudget := *;
      var done;
      r, done := RunPass();
      if r.Ok? {
        r := EndWakePass(done);
      }
    }

    // ---- Completion ----

    /** Hands a completion to the task that waits for it, and resumes the task. */
    method CompleteTask(c: Cqe) returns (r: Status)
      requires Ready()
      modifies `world, `wakeQueue, `eventCount, `faulted, `waits, `enters, `toSubmit, `toComplete, `expectedWakes,
        `prepareBudget, `handed, cq`ktail, cq`posted, cq.entries, sq, sq.entries
      ensures r.Ok? || (r.Abort? && faulted)
      ensures r.Ok? ==> Ready() && Called() && handed == old(handed) + [c]
    {
      hide Reachable, Noticed, Apply, Enabled, Owners, Targets, TaskPart, SubmissionQueue.Valid, CompletionQueue.Valid;
      prepareBudget := *;
      handed := handed + [c];
      r := ResumeTask();
    }

    /** Runs the callback of a completion: a wake pass, nothing, or a task. */
    method Dispatch(c: Cqe) returns (r: Status)
      requires Ready() && world.wakes.drained == [] && world.wakes.woken == 0
      requires world.wakes.owed <==> c.userData == Event
      requires world.wakes.ready <==> c == READY
      requires BadPoll(c) ==> faulted
      requires woken == world.wakes.done
      requires TaskPart(world.traffic.completed) == handed + if c.userData.Task? then [c] else []
      modifies `world, `wakeQueue, `eventCount, `faulted, `waits, `enters, `toSubmit, `toComplete, `expectedWakes,
        `prepareBudget, `woken, `handed, cq`ktail, cq`posted, cq.entries, sq, sq.entries
      ensures r.Ok? || (r.Abort? && faulted)
      ensures r.Ok? ==> Ready() && PassEffect(old(world), world) && Handed() && waits == old(waits)
    {
      hide Reachable, Noticed, Apply, Enabled, Owners, Targets, TaskPart, SubmissionQueue.Valid, CompletionQueue.Valid;
      match c.userData
      case Event =>
        r := ProcessWake(c.result);
      case NoOp =>
        r := Ok;
      case Task(_) =>
        r := CompleteTask(c);
    }

    /** Takes the next completion of the batch off it and runs its callback. */
    method Deliver(c: Cqe) returns (r: Status)
      requires Between() && Ops().batch != [] && c == Ops().batch[0]
      requires BadPoll(c) ==> faulted
      modifies `world, `wakeQueue, `eventCount, `faulted, `waits, `enters, `toSubmit, `toComplete, `expectedWakes,
        `prepareBudget, `woken, `handed, `heads, cq`ktail, cq`posted, cq.entries, sq, sq.entries
      ensures r.Ok? || (r.Abort? && faulted)
      ensures r.Ok? ==> Between() && PassEffect(Delivered(old(world)), world) && waits == old(waits)
      ensures r.Ok? ==> heads == old(heads) + [cq.head]
    {
      hide Reachable, Noticed, Owners, Targets, TaskPart, SubmissionQueue.Valid, CompletionQueue.Valid;
      TaskPartAppend(world.traffic.completed, c);
      heads := heads + [cq.head];
      StepReaches(world, Step.Deliver);
      world := Apply(world, Step.Deliver);
      r := Dispatch(c);
    }

    /** Claims the completions up to `end` for a batch: `to_complete` gives them up before any is delivered. */
    method ClaimBatch(count: nat, ghost end: nat)
      requires Ready() && Ops().batch == [] && cq.head == Ops().claimed < end <= |cq.posted| && count == end - cq.head
      modifies `world, `toComplete
      ensures Ready() && Ops().claimed == end && Ops().batch == Batch(cq.posted, cq.head, end)
      ensures toComplete == old(toComplete) - count
      ensures world.wakes == old(world.wakes) && world.traffic.completed == old(world.traffic.completed)
    {
      hide Reachable, Noticed, Owners, Targets, TaskPart, SubmissionQueue.Valid, CompletionQueue.Valid;
      Counts(world);
      toComplete := toComplete - count;
      var e := Ops().claimed + count;
      StepReaches(world, Claim(e));
      world := Apply(world, Claim(e));
    }

    /**
     Completes one entry of the batch: it is read from the ring, its slot is released first if `advance`,
     and its callback runs. Returns the moved head.
     */
    method CompleteEntry(word: u32, ghost i: nat, advance: bool) returns (r: Status, next: u32)
      requires Between() && word == Word(i)
      requires cq.head <= i < Ops().claimed && Ops().batch != [] && Ops().batch[0] == cq.posted[i]
      requires advance ==> i == cq.head
      modifies this, sq, sq.entries, cq, cq.entries
      ensures r.Ok? || (r.Abort? && faulted)
      ensures r.Ok? ==> Between() && HistoryGrew(old(world), world) && waits == old(waits)
      ensures r.Ok? ==> Ops().claimed == old(Ops().claimed) && Ops().batch == old(Ops().batch)[1..]
      ensures r.Ok? ==> world.traffic.completed == old(world.traffic.completed) + old(Ops().batch)[..1]
      ensures r.Ok? ==> old(cq.posted) <= cq.posted && cq.head == old(cq.head) + if advance then 1 else 0
      ensures r.Ok? ==> heads == old(heads) + [cq.head]
      ensures advance ==> next == Word(i + 1)
    {
      hide Reachable, Noticed, Apply, Enabled, Owners, Targets, TaskPart, SubmissionQueue.Valid, CompletionQueue.Valid;
      Interfere(false);
      var c := cq.Read(word, i);
      next := word;
      if advance {
        WordsTrackIndices(i, i + 1);
        next := WrappingAdd(word, 1);
        cq.Release(next, i + 1);
      }
      if BadPoll(c) {
        NoticedAt(cq.posted, Ops().overflow, faulted, i);
      }
      r := Deliver(c);
    }

    /** The next entry of a batch whose last one is done. */
    method CompleteNext(at: u32, ghost end: nat) returns (r: Status, next: u32)
      requires cq.head < end - 1 && end == Ops().claimed && at == Word(cq.head)
      requires Between() && Ops().batch == cq.posted[cq.head..end - 1]
      modifies this, sq, sq.entries, cq, cq.entries
      ensures r.Ok? || (r.Abort? && faulted)
      ensures r.Ok? ==> cq.head == old(cq.head) + 1 && Ops().claimed == end && next == Word(cq.head)
      ensures r.Ok? ==> heads == old(heads) + [cq.head]
      ensures r.Ok? ==> Between() && HistoryGrew(old(world), world) && waits == old(waits)
      ensures r.Ok? ==> end <= |cq.posted| && Ops().batch == cq.posted[cq.head..end - 1]
      ensures r.Ok? ==> world.traffic.completed + Ops().batch == old(world.traffic.completed + Ops().batch)
    {
      hide Reachable, Noticed, Apply, Enabled, Owners, Targets, TaskPart, SubmissionQueue.Valid, CompletionQueue.Valid;
      ghost var batch := Ops().batch;
      assert batch == batch[..1] + batch[1..];
      assert batch[1..] == cq.posted[cq.head + 1..end - 1];
      r, next := CompleteEntry(at, cq.head, true);
    }

    /** Runs a batch whose last entry is done: the others in order, each slot released before its callback. */
    method RunRest(head: u32, last: u32, ghost end: nat) returns (r: Status, at: u32)
      requires cq.head < end == Ops().claimed && head == Word(cq.head) && last == Word(end - 1)
      requires Between() && Ops().batch == cq.posted[cq.head..end - 1]
      modifies this, sq, sq.entries, cq, cq.entries
      ensures r.Ok? || (r.Abort? && faulted)
      ensures r.Ok? ==> Between() && HistoryGrew(old(world), world) && waits == old(waits)
      ensures r.Ok? ==> cq.head == end - 1 && at == last && Ops().claimed == end && Ops().batch == []
      ensures r.Ok? ==> Rose(old(heads), heads, old(cq.head) + 1, end - 1 - old(cq.head))
      ensures r.Ok? ==> world.traffic.completed == old(world.traffic.completed) + old(Ops().batch)
    {
      hide Reachable, Noticed, Apply, Enabled, Owners, Targets, TaskPart, HistoryGrew;
      hide SubmissionQueue.Valid, CompletionQueue.Valid;
      at, r := head, Ok;
      HistoryGrewReflexive(world);
      while at != last
        invariant r.Ok? && Between() && HistoryGrew(old(world), world) && waits == old(waits)
        invariant cq.head < end == Ops().claimed && at == Word(cq.head)
        invariant Ops().batch == cq.posted[cq.head..end - 1]
        invariant old(cq.head) <= cq.head && Rose(old(heads), heads, old(cq.head) + 1, cq.head - old(cq.head))
        invariant world.traffic.completed + Ops().batch == old(world.traffic.completed + Ops().batch)
        decreases end - cq.head
      {
        ghost var before := world;
        r, at := CompleteNext(at, end);
        if r.Abort? {
          return;
        }
        HistoryGrewTransitive(old(world), before, world);
      }
      WordsTrackIndices(cq.head, end - 1);
    }

    /** Runs a claimed batch. The published head never passes an entry still to be read, and ends at its end. */
    method RunBatch(head: u32, tail: u32, ghost end: nat) returns (r: Status)
      requires Between() && head == Word(cq.head) && tail == Word(end)
      requires cq.head < end == Ops().claimed && Ops().batch == Batch(cq.posted, cq.head, end)
      modifies this, sq, sq.entries, cq, cq.entries
      ensures r.Ok? || (r.Abort? && faulted)
      ensures r.Ok? ==> Idle() && cq.head == end && HistoryGrew(old(world), world) && waits == old(waits)
      ensures r.Ok? ==> Rose(old(heads), heads, old(cq.head), end - old(cq.head))
      ensures r.Ok? ==>
                world.traffic.completed ==
                old(world.traffic.completed) + [old(cq.posted)[end - 1]] + old(cq.posted)[old(cq.head)..end - 1]
    {
      hide Reachable, Noticed, Apply, Enabled, Owners, Targets, TaskPart, HistoryGrew;
      hide SubmissionQueue.Valid, CompletionQueue.Valid;
      WordsTrackIndices(cq.head, end);
      var last := WrappingSub(tail, 1);
      var at;
      r, at := CompleteEntry(last, end - 1, false);
      if r.Abort? {
        return;
      }
      ghost var before := world;
      r, at := RunRest(head, last, end);
      if r.Abort? {
        return;
      }
      HistoryGrewTransitive(old(world), before, world);
      WordsTrackIndices(cq.head, end - 1);
      cq.Release(WrappingAdd(at, 1), end);
    }

    /**
     Runs the completions of the window `[head, end)`, the last one first and then the rest in order, while
     callbacks submit more work and the kernel posts more completions.
     */
    method RunEvents(head: u32, tail: u32, ghost end: nat) returns (r: Status)
      requires Idle() && head == Word(cq.head) && tail == Word(end) && cq.head <= end <= |cq.posted|
      modifies this, sq, sq.entries, cq, cq.entries
      ensures r.Ok? || (r.Abort? && faulted)
      ensures r.Ok? ==> Idle() && cq.head == end && HistoryGrew(old(world), world)
      ensures r.Ok? ==> waits == old(waits) && Rose(old(heads), heads, old(cq.head), end - old(cq.head))
      ensures r.Ok? && old(cq.head) == end ==> world.traffic.completed == old(world.traffic.completed)
      ensures r.Ok? && old(cq.head) < end ==>
                world.traffic.completed ==
                old(world.traffic.completed) + [old(cq.posted)[end - 1]] + old(cq.posted)[old(cq.head)..end - 1]
    {
      hide Reachable, Noticed, Apply, Enabled, Owners, Targets, TaskPart, SubmissionQueue.Valid, CompletionQueue.Valid;
      ghost var first := cq.head;
      WordsTrackIndices(first, end);
      var count := WrappingSub(tail, head);
      if count == 0 {
        return Ok;
      }
      ClaimBatch(count, end);
      r := RunBatch(head, tail, end);
    }

    // ---- The loop's interface ----

    /** Submits a no-op timeout and waits, without a limit, for one completion; failing to submit it aborts. */
    method WaitBehindTimeout(limit: nat) returns (r: Status)
      requires Ready()
      modifies `world, `wakeQueue, `eventCount, `faulted, `waits, `enters, `toSubmit, `toComplete,
        cq`ktail, cq`posted, cq.entries, sq, sq.entries
      ensures r.Ok? || (r.Abort? && faulted)
      ensures r.Ok? ==> Ready() && Entered() && !Stranded() && sq.consumed == |sq.pushed|
      ensures r.Ok? ==> sq.pushed == old(sq.pushed) + [Sqe(Opcode.Timeout(limit), NoOp)]
      ensures r.Ok? ==> waits == old(waits) + [AtMost(limit)]
    {
      hide Reachable, Noticed, Apply, Enabled, Owners, Targets, TaskPart, SubmissionQueue.Valid, CompletionQueue.Valid;
      r := StartAsync(Opcode.Timeout(limit), NoOp);
      if !r.Ok? {
        return;
      }
      ghost var last;
      r, last := Enter(1, true, Unbounded);
      if r.Err? {
        r := Abort;
      }
    }

    /**
     After the flush of a wait without timed enters: completions that arrived since `tail` was read end it, and
     otherwise a no-op timeout, of at most a second, is submitted to bound it.
     */
    method WaitUnlessArrived(tail: u32, ghost seen: nat, timeout: nat) returns (r: Status)
      requires Ready() && !Stranded() && sq.consumed == |sq.pushed|
      requires cq.head <= seen <= |cq.posted| && tail == Word(seen)
      modifies `world, `wakeQueue, `eventCount, `faulted, `waits, `enters, `toSubmit, `toComplete,
        cq`ktail, cq`posted, cq.entries, sq, sq.entries
      ensures r.Ok? || (r.Abort? && faulted)
      ensures r.Ok? ==> Ready() && Entered() && !Stranded() && |old(sq.pushed)| <= sq.consumed
      ensures seen < |old(cq.posted)| ==> r.Ok? && waits == old(waits) && world == old(world)
      ensures seen == |old(cq.posted)| && r.Ok? ==>
                sq.pushed == old(sq.pushed) + [Sqe(Opcode.Timeout(CompatLimit(timeout)), NoOp)]
      ensures seen == |old(cq.posted)| && r.Ok? ==> sq.consumed == |sq.pushed|
      ensures seen == |old(cq.posted)| && r.Ok? ==> waits == old(waits) + [AtMost(CompatLimit(timeout))]
    {
      hide Reachable, Noticed, Apply, Enabled, Owners, Targets, TaskPart, SubmissionQueue.Valid, CompletionQueue.Valid;
      var head', tail' := cq.ReadRing();
      cq.TailsDiffer(seen);
      if tail' != tail {
        return Ok;
      }
      r := WaitBehindTimeout(CompatLimit(timeout));
    }

    /** Waiting without timed enters: flushes, and waits unless that brought completions. */
    method SubmitAndWaitCompat(timeout: nat) returns (r: Status)
      requires Ready()
      modifies `world, `wakeQueue, `eventCount, `faulted, `waits, `enters, `toSubmit, `toComplete,
        cq`ktail, cq`posted, cq.entries, sq, sq.entries
      ensures r.Ok? || faulted
      ensures r.Ok? ==> Ready() && Entered() && !Stranded() && |old(sq.pushed)| <= sq.consumed
      ensures r.Err? ==> waits == old(waits)
      ensures r.Ok? ==> (waits == old(waits) && |old(cq.posted)| < |cq.posted|)
                        || waits == old(waits) + [AtMost(CompatLimit(timeout))]
    {
      hide Reachable, Noticed, Apply, Enabled, Owners, Targets, TaskPart, SubmissionQueue.Valid, CompletionQueue.Valid;
      var head, tail := cq.ReadRing();
      ghost var seen := |cq.posted|;
      r := Flush();
      if !r.Ok? {
        return;
      }
      Interfere(false);
      r := WaitUnlessArrived(tail, seen, timeout);
    }

    /** Enters the kernel for completions, with a timed enter where the kernel has them. */
    method EnterAndWait(timeout: nat) returns (r: Status)
      requires Ready()
      modifies `world, `wakeQueue, `eventCount, `faulted, `waits, `enters, `toSubmit, `toComplete,
        cq`ktail, cq`posted, cq.entries, sq, sq.entries
      ensures r.Ok? || faulted
      ensures r.Ok? ==> Ready() && Entered() && !Stranded() && |old(sq.pushed)| <= sq.consumed
      ensures r.Err? ==> waits == old(waits)
      ensures r.Ok? && extArg ==> waits == old(waits) + if timeout > 0 then [AtMost(timeout)] else []
      ensures r.Ok? && !extArg ==> (waits == old(waits) && |old(cq.posted)| < |cq.posted|)
                                   || waits == old(waits) + [AtMost(CompatLimit(timeout))]
    {
      hide Reachable, Noticed, Apply, Enabled, Owners, Targets, TaskPart, SubmissionQueue.Valid, CompletionQueue.Valid;
      ghost var last;
      if extArg {
        r, last := Enter(if timeout != 0 then 1 else 0, true, AtMost(timeout));
      } else {
        r := SubmitAndWaitCompat(timeout);
      }
    }

    /** The window of completions there is to run. */
    method ReadWindow() returns (head: u32, tail: u32, ghost end: nat)
      requires Idle()
      modifies `world, `wakeQueue, `eventCount, `faulted, cq`ktail, cq`posted, cq.entries
      ensures Idle() && Called() && head == Word(cq.head) && tail == Word(end) && end == |cq.posted|
      ensures head == tail <==> cq.head == end
    {
      hide Reachable, Noticed, Apply, Enabled, Owners, Targets, TaskPart, SubmissionQueue.Valid, CompletionQueue.Valid;
      Interfere(false);
      head, tail := cq.ReadRing();
      end := |cq.posted|;
    }

    /** Enters the kernel for completions and reads the window it leaves. */
    method EnterAndRead(timeout: nat) returns (r: Status, head: u32, tail: u32, ghost end: nat)
      requires Idle()
      modifies `world, `wakeQueue, `eventCount, `faulted, `waits, `enters, `toSubmit, `toComplete,
        cq`ktail, cq`posted, cq.entries, sq, sq.entries
      ensures r.Ok? || faulted
      ensures r.Ok? ==> Idle() && Entered() && !Stranded() && head == Word(cq.head) && tail == Word(end)
      ensures r.Ok? ==> end == |cq.posted| && |old(sq.pushed)| <= sq.consumed
      ensures r.Err? ==> waits == old(waits)
      ensures r.Ok? && extArg ==> waits == old(waits) + if timeout > 0 then [AtMost(timeout)] else []
      ensures r.Ok? && !extArg ==> (waits == old(waits) && |old(cq.posted)| < end)
                                   || waits == old(waits) + [AtMost(CompatLimit(timeout))]
    {
      hide Reachable, Noticed, Apply, Enabled, Owners, Targets, TaskPart, SubmissionQueue.Valid, CompletionQueue.Valid;
      head, tail, end := 0, 0, 0;
      r := EnterAndWait(timeout);
      if r.Ok? {
        head, tail, end := ReadWindow();
      }
    }

    /**
     Submits everything queued and waits for completions, at most `timeout`, unless some are there already.
     Returns the window to run; an empty one means nothing is overflowed either. The ghost result is whether the
     kernel had flagged that it wants to be entered.
     */
    method SubmitAndWait(timeout: nat)
      returns (r: Status, head: u32, tail: u32, ghost end: nat, ghost flagged: bool)
      requires Idle()
      modifies `world, `wakeQueue, `eventCount, `faulted, `waits, `enters, `toSubmit, `toComplete,
        cq`ktail, cq`posted, cq.entries, sq, sq.entries
      ensures r.Ok? || faulted
      ensures r.Ok? ==> Idle() && Entered() && head == Word(cq.head) && tail == Word(end)
      ensures r.Ok? ==> cq.head <= end <= |cq.posted| && (end == cq.head ==> Ops().overflow == [])
      ensures r.Ok? ==> |old(sq.pushed)| <= sq.consumed && |old(cq.posted)| <= end
      ensures old(toSubmit) == 0 && old(cq.head) < |old(cq.posted)| ==>
                r.Ok? && enters == old(enters) && waits == old(waits)
      ensures old(toSubmit) == 0 && timeout == 0 && !flagged ==> r.Ok? && enters == old(enters)
      ensures r.Err? ==> waits == old(waits)
      ensures r.Ok? && extArg ==> waits == old(waits) || (waits == old(waits) + [AtMost(timeout)] && timeout > 0)
      ensures r.Ok? && !extArg ==> waits == old(waits) || waits == old(waits) + [AtMost(CompatLimit(timeout))]
      ensures r.Ok? && waits == old(waits) && timeout > 0 ==> cq.head < end
      ensures r.Ok? && extArg && timeout > 0 && old(toSubmit) > 0 ==> waits == old(waits) + [AtMost(timeout)]
    {
      hide Reachable, Noticed, Apply, Enabled, Owners, Targets, TaskPart, SubmissionQueue.Valid, CompletionQueue.Valid;
      Counts(world);
      head, tail, end, flagged := 0, 0, 0, false;
      var wait := timeout != 0;
      if toSubmit == 0 {
        head, tail, end := ReadWindow();
        if head != tail {
          return Ok, head, tail, end, flagged;
        }
        var taskRun: bool := *;
        var needsEnter := Ops().overflow != [] || taskRun;
        flagged := needsEnter;
        if !needsEnter && !wait {
          return Ok, head, tail, end, flagged;
        }
      }
      r, head, tail, end := EnterAndRead(timeout);
    }

    /** One turn of the engine: submit, wait, and run what completed. */
    method Work(timeout: nat) returns (r: Status)
      requires Idle()
      modifies this, sq, sq.entries, cq, cq.entries
      ensures r.Ok? || faulted
      ensures r.Ok? ==> Idle() && HistoryGrew(old(world), world) && |old(Ops().pushed)| <= Ops().consumed
      ensures r.Ok? ==> old(cq.head) <= |old(cq.posted)| <= cq.head <= |cq.posted| && old(cq.posted) <= cq.posted
      ensures r.Ok? && cq.head == old(cq.head) ==> world.traffic.completed == old(world.traffic.completed)
      ensures r.Ok? && cq.head > old(cq.head) ==>
                world.traffic.completed ==
                old(world.traffic.completed) + [cq.posted[cq.head - 1]] + cq.posted[old(cq.head)..cq.head - 1]
      ensures r.Err? ==> waits == old(waits)
      ensures r.Ok? ==> waits == old(waits) ||
                        exists nanos | 0 <= nanos <= timeout :: waits == old(waits) + [AtMost(nanos)]
      ensures r.Ok? && waits == old(waits) && timeout > 0 ==> old(cq.head) < cq.head
      ensures old(toSubmit) == 0 && old(cq.head) < |old(cq.posted)| ==> r.Ok? ==> waits == old(waits)
    {
      hide Reachable, Noticed, Apply, Enabled, Owners, Targets, TaskPart, SubmissionQueue.Valid, CompletionQueue.Valid;
      hide HistoryGrew;
      var head, tail;
      ghost var end, flagged;
      r, head, tail, end, flagged := SubmitAndWait(timeout);
      if r.Ok? {
        ghost var before := world;
        ghost var posted := cq.posted;
        r := RunEvents(head, tail, end);
        if r.Ok? {
          CallThenDelivery(old(world), before, world);
          assert posted[old(cq.head)..end] == cq.posted[old(cq.head)..end];
          assert old(cq.head) < end ==> posted[old(cq.head)..end - 1] == cq.posted[old(cq.head)..end - 1];
        }
      }
    }

    /** A task resumed between two turns, by a timer, makes its engine calls. */
    method ResumeBetweenTurns() returns (r: Status)
      requires Idle()
      modifies `world, `wakeQueue, `eventCount, `faulted, `waits, `enters, `toSubmit, `toComplete, `expectedWakes,
        `prepareBudget, cq`ktail, cq`posted, cq.entries, sq, sq.entries
      ensures r.Ok? || (r.Abort? && faulted)
      ensures r.Ok? ==> Idle() && HistoryGrew(old(world), world)
      ensures r.Ok? ==> world.traffic.completed == old(world.traffic.completed) && waits == old(waits)
      ensures r.Ok? ==> old(cq.posted) <= cq.posted
    {
      hide Reachable, Noticed, Apply, Enabled, Owners, Targets, TaskPart, SubmissionQueue.Valid, CompletionQueue.Valid;
      prepareBudget := *;
      r := ResumeTask();
    }

    /**
     Whether anything is queued or in flight: exactly whether some started operation was not delivered. With no work
     left, a thread whose wake was completed may still be about to write the event fd; no other can reach the engine.
     */
    method HasWork() returns (work: bool)
      requires Idle()
      ensures work <==> Outstanding(Ops()) != multiset{}
      ensures work <==> Owners(sq.pushed) != Targets(world.traffic.completed)
      ensures !work ==> toSubmit == toComplete == 0 && Ops().overflow == []
      ensures !work ==> expectedWakes == 0 && wakeQueue == [] && world.wakes.prepared == 0
      ensures !work ==> (Touchable(world) <==> world.wakes.writers > 0)
    {
      hide Reachable, Noticed, Owners, Targets, TaskPart, Outstanding, Fired, Touchable, SubmissionQueue.Valid,
        CompletionQueue.Valid;
      work := toComplete != 0 || toSubmit != 0;
      ReachableIsSound(world);
      OutstandingSize(Ops());
      if !work {
        TouchableIffWriters(world);
      }
    }
  }
}

/** Ring entries and what they say about the requests they belong to. */
module Entries {

  /** A request a completion is routed to: the shared no-op, the engine's event-fd poll, or a task's. */
  datatype Request = NoOp | Event | Task(id: nat)

  datatype Operation =
    | Open | Close | Read | Write | Socket | Accept | Connect | Recv | RecvMsg
    | Send | SendMsg | Shutdown | Bind | Listen | FileSync | Statx | Poll

  datatype Opcode =
    | Perform(operation: Operation)
    | PollEventFd
    | CancelRequest(target: Request)
    | Timeout(nanos: nat)

  datatype Sqe = Sqe(opcode: Opcode, userData: Request)

  datatype Cqe = Cqe(userData: Request, result: int)

  /** How long a wait in the kernel can last. */
  datatype Bound = AtMost(nanos: nat) | Unbounded

  /** A wait ends by the limit it was given or, given none, when the timeout submitted last fires. */
  function WaitBound(limit: Bound, pushed: seq<Sqe>): Bound {
    if limit == Unbounded && pushed != [] && pushed[|pushed| - 1].opcode.Timeout?
    then AtMost(pushed[|pushed| - 1].opcode.nanos)
    else limit
  }

  /** How often each request occurs in a run of submissions. */
  function Owners(s: seq<Sqe>): multiset<Request> {
    if s == [] then multiset{} else Owners(s[..|s| - 1]) + multiset{s[|s| - 1].userData}
  }

  /** How often each request occurs in a run of completions. */
  ghost function Targets(s: seq<Cqe>): multiset<Request> {
    if s == [] then multiset{} else Targets(s[..|s| - 1]) + multiset{s[|s| - 1].userData}
  }

  lemma {:induction false} OwnersConcat(a: seq<Sqe>, b: seq<Sqe>)
    ensures Owners(a + b) == Owners(a) + Owners(b)
    decreases |b|
  {
    if b == [] {
      assert a + b == a;
    } else {
      var n := |b| - 1;
      assert (a + b)[..|a| + n] == a + b[..n];
      OwnersConcat(a, b[..n]);
    }
  }

  lemma {:induction false} TargetsConcat(a: seq<Cqe>, b: seq<Cqe>)
    ensures Targets(a + b) == Targets(a) + Targets(b)
    decreases |b|
  {
    if b == [] {
      assert a + b == a;
    } else {
      var n := |b| - 1;
      assert (a + b)[..|a| + n] == a + b[..n];
      TargetsConcat(a, b[..n]);
    }
  }

  lemma {:induction false} OwnersSize(s: seq<Sqe>)
    ensures |Owners(s)| == |s|
  {
    if s != [] {
      OwnersSize(s[..|s| - 1]);
    }
  }

  lemma {:induction false} TargetsSize(s: seq<Cqe>)
    ensures |Targets(s)| == |s|
  {
    if s != [] {
      TargetsSize(s[..|s| - 1]);
    }
  }

  /** A completion that occurs is counted for its request. */
  lemma {:induction false} TargetsCounts(s: seq<Cqe>, c: Cqe)
    requires c in s
    ensures Targets(s)[c.userData] >= 1
  {
    var n := |s| - 1;
    if s[n] != c {
      assert s == s[..n] + [s[n]];
      TargetsCounts(s[..n], c);
    }
  }

  lemma {:induction false} OwnersSplit(s: seq<Sqe>, i: nat, j: nat)
    requires i <= j <= |s|
    ensures Owners(s[..j]) == Owners(s[..i]) + Owners(s[i..j])
    ensures Owners(s[i..]) == Owners(s[i..j]) + Owners(s[j..])
  {
    hide Owners;
    OwnersConcat(s[..i], s[i..j]);
    OwnersConcat(s[i..j], s[j..]);
    assert s[..i] + s[i..j] == s[..j] && s[i..j] + s[j..] == s[i..];
  }

  lemma {:induction false} TargetsSplit(s: seq<Cqe>, i: nat, j: nat)
    requires i <= j <= |s|
    ensures Targets(s[..j]) == Targets(s[..i]) + Targets(s[i..j])
    ensures Targets(s[i..]) == Targets(s[i..j]) + Targets(s[j..])
  {
    hide Targets;
    TargetsConcat(s[..i], s[i..j]);
    TargetsConcat(s[i..j], s[j..]);
    assert s[..i] + s[i..j] == s[..j] && s[i..j] + s[j..] == s[i..];
  }

  /** Appending one completion, seen from any point of the run. */
  lemma {:induction false} TargetsAppend(s: seq<Cqe>, c: Cqe, i: nat)
    requires i <= |s|
    ensures (s + [c])[i..] == s[i..] + [c]
    ensures Targets((s + [c])[i..]) == Targets(s[i..]) + multiset{c.userData}
    ensures Targets(s + [c]) == Targets(s) + multiset{c.userData}
  {
    hide Targets;
    assert (s + [c])[i..] == s[i..] + [c];
    TargetsConcat(s[i..], [c]);
    TargetsConcat(s, [c]);
    TargetsOne(c);
  }

  lemma {:induction false} TargetsOne(c: Cqe)
    ensures Targets([c]) == multiset{c.userData}
  {
    assert [c][..0] == [];
  }

  lemma {:induction false} TargetsEmpty()
    ensures Targets([]) == multiset{}
  {
  }

  /** Taking one completion off the front. */
  lemma {:induction false} TargetsTakeFirst(s: seq<Cqe>)
    requires s != []
    ensures Targets(s) == multiset{s[0].userData} + Targets(s[1..])
  {
    hide Targets;
    TargetsConcat([s[0]], s[1..]);
    TargetsOne(s[0]);
    assert [s[0]] + s[1..] == s;
  }

  /** A batch is run last entry first, then the rest in order. */
  function Rotation(s: seq<Cqe>): (r: seq<Cqe>)
    requires s != []
  {
    [s[|s| - 1]] + s[..|s| - 1]
  }

  /** The rotation of a batch is a permutation of it: the same completions, each as often. */
  lemma {:induction false} RotationPermutes(s: seq<Cqe>)
    requires s != []
    ensures multiset(Rotation(s)) == multiset(s)
    ensures Targets(Rotation(s)) == Targets(s)
    ensures |Rotation(s)| == |s| && Rotation(s)[0] == s[|s| - 1] && Rotation(s)[1..] == s[..|s| - 1]
  {
    var n := |s| - 1;
    assert s == s[..n] + [s[n]];
    TargetsConcat([s[n]], s[..n]);
    TargetsConcat(s[..n], [s[n]]);
  }

  /** The completions that belong to tasks. */
  ghost function TaskPart(s: seq<Cqe>): seq<Cqe> {
    if s == [] then []
    else TaskPart(s[..|s| - 1]) + if s[|s| - 1].userData.Task? then [s[|s| - 1]] else []
  }

  lemma {:induction false} TaskPartAppend(s: seq<Cqe>, c: Cqe)
    ensures TaskPart(s + [c]) == TaskPart(s) + if c.userData.Task? then [c] else []
  {
    assert (s + [c])[..|s|] == s;
  }

  lemma {:induction false} OwnersOne(e: Sqe)
    ensures Owners([e]) == multiset{e.userData}
  {
    assert [e][..0] == [];
  }

  lemma {:induction false} OwnersAppend(s: seq<Sqe>, e: Sqe, i: nat)
    requires i <= |s|
    ensures (s + [e])[..i] == s[..i]
    ensures Owners((s + [e])[i..]) == Owners(s[i..]) + multiset{e.userData}
    ensures Owners(s + [e]) == Owners(s) + multiset{e.userData}
  {
    hide Owners;
    assert (s + [e])[i..] == s[i..] + [e];
    OwnersConcat(s[i..], [e]);
    OwnersConcat(s, [e]);
    OwnersOne(e);
  }
}

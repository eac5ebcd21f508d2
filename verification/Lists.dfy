/** Linked lists of workers as sequences: order-keeping removal. */
module Lists {

  ghost predicate Distinct(s: seq<nat>) {
    forall i, j | 0 <= i < j < |s| :: s[i] != s[j]
  }

  lemma {:induction false} DistinctAppend(s: seq<nat>, x: nat)
    requires Distinct(s) && x !in s
    ensures Distinct(s + [x])
    ensures forall y :: y in s + [x] <==> y in s || y == x
  {
    forall i, j | 0 <= i < j < |s + [x]| ensures (s + [x])[i] != (s + [x])[j] {
      assert (s + [x])[i] == s[i] && s[i] in s;
    }
  }

  lemma {:induction false} DistinctTail(s: seq<nat>)
    requires Distinct(s) && s != []
    ensures Distinct(s[1..]) && s[0] !in s[1..]
    ensures forall y :: y in s <==> y in s[1..] || y == s[0]
  {
    assert s == [s[0]] + s[1..];
  }

  /** `a` is `b` with some elements left out. */
  ghost predicate Within(a: seq<nat>, b: seq<nat>)
    decreases |b|
  {
    || a == []
    || (b != [] && (Within(a, b[1..]) || (a[0] == b[0] && Within(a[1..], b[1..]))))
  }

  lemma {:induction false} WithinItself(a: seq<nat>)
    ensures Within(a, a)
    decreases |a|
  {
    if a != [] {
      WithinItself(a[1..]);
    }
  }

  lemma {:induction false} WithinTransitive(a: seq<nat>, b: seq<nat>, c: seq<nat>)
    requires Within(a, b) && Within(b, c)
    ensures Within(a, c)
    decreases |c|
  {
    if a != [] {
      if Within(b, c[1..]) {
        WithinTransitive(a, b, c[1..]);
      } else if Within(a, b[1..]) {
        WithinTransitive(a, b[1..], c[1..]);
      } else {
        WithinTransitive(a[1..], b[1..], c[1..]);
      }
    }
  }

  lemma {:induction false} WithinPrefixed(p: seq<nat>, a: seq<nat>, b: seq<nat>)
    requires Within(a, b)
    ensures Within(p + a, p + b)
    decreases |p|
  {
    if p == [] {
      assert p + a == a && p + b == b;
    } else {
      WithinPrefixed(p[1..], a, b);
      assert (p + a)[1..] == p[1..] + a && (p + b)[1..] == p[1..] + b;
    }
  }

  lemma {:induction false} WithinShorter(a: seq<nat>, b: seq<nat>)
    requires Within(a, b)
    ensures |a| <= |b|
    decreases |b|
  {
    if a != [] {
      if Within(a, b[1..]) {
        WithinShorter(a, b[1..]);
      } else {
        WithinShorter(a[1..], b[1..]);
      }
    }
  }

  /** Unlinking the element at `i`. */
  function Unlink(s: seq<nat>, i: nat): seq<nat>
    requires i < |s|
  {
    s[..i] + s[i + 1..]
  }

  lemma {:induction false} UnlinkWithin(s: seq<nat>, i: nat)
    requires i < |s|
    ensures Within(Unlink(s, i), s)
  {
    WithinItself(s[i + 1..]);
    assert s[i..][1..] == s[i + 1..];
    assert Within(s[i + 1..], s[i..]);
    WithinPrefixed(s[..i], s[i + 1..], s[i..]);
    assert s[..i] + s[i..] == s;
  }

  /** Unlinking from a list without repetitions removes exactly that element. */
  lemma {:induction false} UnlinkIsRemoval(s: seq<nat>, i: nat)
    requires i < |s| && Distinct(s)
    ensures Distinct(Unlink(s, i))
    ensures forall x :: x in Unlink(s, i) <==> x in s && x != s[i]
  {
    var u := Unlink(s, i);
    forall x | x in s && x != s[i] ensures x in u {
      var j :| 0 <= j < |s| && s[j] == x;
      assert u[if j < i then j else j - 1] == x;
    }
  }

  lemma {:induction false} WithinMembers(a: seq<nat>, b: seq<nat>, x: nat)
    requires Within(a, b) && x in a
    ensures x in b
    decreases |b|
  {
    if Within(a, b[1..]) {
      WithinMembers(a, b[1..], x);
    } else if x != a[0] {
      WithinMembers(a[1..], b[1..], x);
    }
  }

  lemma {:induction false} WithinDistinct(a: seq<nat>, b: seq<nat>)
    requires Within(a, b) && Distinct(b)
    ensures Distinct(a)
    decreases |b|
  {
    if a != [] {
      if Within(a, b[1..]) {
        WithinDistinct(a, b[1..]);
      } else {
        WithinDistinct(a[1..], b[1..]);
        forall x | x in a[1..] ensures x != b[0] {
          WithinMembers(a[1..], b[1..], x);
        }
        forall i, j | 0 <= i < j < |a| ensures a[i] != a[j] {
          assert a[j] == a[1..][j - 1] && a[j] in a[1..] && (i > 0 ==> a[i] == a[1..][i - 1]);
        }
      }
    }
  }

  lemma {:induction false} WithinMembersOfEmpty(a: seq<nat>)
    requires Within(a, [])
    ensures a == []
  {
  }
}

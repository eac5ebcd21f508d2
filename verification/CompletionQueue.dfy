/** The completion ring shared with the kernel. */
module CompletionRing {
  import opened Word32
  import opened Entries

  /**
   The kernel posts at its tail; the program reads and releases slots by moving the head.
   `posted` is every completion ever posted to the ring and `head` the unbounded index of
   the published head.
   */
  class CompletionQueue {
    const bits: nat
    const entries: array<Cqe>
    var khead: u32
    var ktail: u32

    ghost var posted: seq<Cqe>
    ghost var head: nat

    /** Slots from the published head on hold the completions posted there. */
    ghost predicate Valid()
      reads this, entries
      ensures Valid() ==> Pow2(bits) < TWO_32 && head <= |posted| <= head + Pow2(bits)
      ensures Valid() ==> khead == Word(head)
    {
      && bits <= 32 && Pow2(bits) < TWO_32
      && entries.Length == Pow2(bits)
      && head <= |posted| <= head + Pow2(bits)
      && khead == Word(head) && ktail == Word(|posted|)
      && (forall i | head <= i < |posted| :: entries[Low(i, bits)] == posted[i])
    }

    constructor (bits: nat)
      requires bits <= 32 && Pow2(bits) < TWO_32
      ensures Valid() && fresh(entries)
      ensures this.bits == bits && posted == [] && head == 0
    {
      this.bits := bits;
      entries := new Cqe[Pow2(bits)];
      khead, ktail := 0, 0;
      posted, head := [], 0;
    }

    /** Reads the slot of an unreleased completion. */
    method Read(word: u32, ghost i: nat) returns (c: Cqe)
      requires Valid() && head <= i < |posted| && word == Word(i)
      ensures c == posted[i]
    {
      SlotOfIndex(i, bits);
      c := entries[Slot(word, bits)];
    }

    /** Both words of the ring: they are equal exactly when nothing is unread. */
    method ReadRing() returns (h: u32, t: u32)
      requires Valid()
      ensures h == Word(head) && t == Word(|posted|)
      ensures h == t <==> head == |posted|
    {
      h, t := khead, ktail;
      WordsTrackIndices(head, |posted|);
    }

    /** A tail read since the head was last moved equals the present one only if nothing arrived meanwhile. */
    lemma TailsDiffer(seen: nat)
      requires Valid() && head <= seen <= |posted|
      ensures Word(seen) == Word(|posted|) <==> seen == |posted|
    {
      WordsTrackIndices(seen, |posted|);
    }

    /** Releases every slot before index `i`. */
    method Release(word: u32, ghost i: nat)
      requires Valid() && head <= i <= |posted| && word == Word(i)
      modifies `khead, `head
      ensures Valid() && head == i
    {
      khead := word;
      head := i;
    }

    /** The kernel's test for a free slot. */
    method HasRoom() returns (room: bool)
      requires Valid()
      ensures room <==> |posted| < head + Pow2(bits)
    {
      WordsTrackIndices(head, |posted|);
      room := WrappingSub(ktail, khead) < Pow2(bits);
    }

    /** The kernel posts into its free window, which never holds an unreleased completion. */
    method Post(c: Cqe)
      requires Valid() && |posted| < head + Pow2(bits)
      modifies `ktail, `posted, entries
      ensures Valid() && posted == old(posted) + [c]
    {
      hide Word, WrappingAdd, WrappingSub, And, Low, Slot, Pow2;
      ghost var n := |posted|;
      SlotOfIndex(n, bits);
      WordsTrackIndices(n, n + 1);
      forall i | head <= i < n ensures Low(i, bits) != Low(n, bits) {
        NeighboursDifferInLowBits(i, n, bits);
      }
      entries[Slot(ktail, bits)] := c;
      ktail := WrappingAdd(ktail, 1);
      posted := posted + [c];
    }
  }
}

/** The submission ring shared with the kernel. */
module SubmissionRing {
  import opened Word32
  import opened Entries

  /**
   The program writes at a private tail and publishes it in one store; the kernel consumes from
   its head. `pushed` is every entry ever pushed, and the unbounded indices `published`
   and `consumed` stand beside the 32-bit words.
   */
  class SubmissionQueue {
    const bits: nat
    const entries: array<Sqe>
    const index: array<nat>
    var tail: u32
    var ktail: u32
    var khead: u32

    ghost var pushed: seq<Sqe>
    ghost var published: nat
    ghost var consumed: nat

    /** Slots of unconsumed entries hold those entries, and the words track the indices. */
    ghost predicate Valid()
      reads this, entries, index
      ensures Valid() ==> Pow2(bits) < TWO_32 && consumed <= published <= |pushed| <= consumed + Pow2(bits)
    {
      && bits <= 32 && Pow2(bits) < TWO_32
      && entries.Length == Pow2(bits) == index.Length
      && (forall s | 0 <= s < index.Length :: index[s] == s)
      && consumed <= published <= |pushed| <= consumed + Pow2(bits)
      && tail == Word(|pushed|) && ktail == Word(published) && khead == Word(consumed)
      && (forall i | consumed <= i < |pushed| :: entries[Low(i, bits)] == pushed[i])
    }

    ghost function Capacity(): nat {
      Pow2(bits)
    }

    constructor (bits: nat)
      requires bits <= 32 && Pow2(bits) < TWO_32
      ensures Valid() && fresh(entries) && fresh(index)
      ensures this.bits == bits && pushed == [] && published == consumed == 0
    {
      this.bits := bits;
      entries := new Sqe[Pow2(bits)];
      index := new nat[Pow2(bits)](i => i);
      tail, ktail, khead := 0, 0, 0;
      pushed, published, consumed := [], 0, 0;
    }

    /** Writes at the masked private tail. With room in the ring no unconsumed slot is overwritten. */
    method Push(entry: Sqe)
      requires Valid() && |pushed| < consumed + Capacity()
      modifies `tail, `pushed, entries
      ensures Valid() && pushed == old(pushed) + [entry]
    {
      hide Word, WrappingAdd, WrappingSub, And, Low, Slot, Pow2;
      ghost var n := |pushed|;
      var at := tail;
      SlotOfIndex(n, bits);
      WordsTrackIndices(n, n + 1);
      tail := WrappingAdd(tail, 1);
      forall i | consumed <= i < n ensures Low(i, bits) != Low(n, bits) {
        NeighboursDifferInLowBits(i, n, bits);
      }
      entries[Slot(at, bits)] := entry;
      pushed := pushed + [entry];
    }

    /** Publishes the private tail. */
    method Sync()
      requires Valid()
      modifies `ktail, `published
      ensures Valid() && published == |pushed|
    {
      ktail := tail;
      published := |pushed|;
    }

    /** The kernel takes the entry at its head, through the index array. */
    method Take() returns (entry: Sqe)
      requires Valid() && consumed < published
      modifies `khead, `consumed
      ensures Valid() && consumed == old(consumed) + 1 && entry == pushed[old(consumed)]
    {
      SlotOfIndex(consumed, bits);
      WordsTrackIndices(consumed, consumed + 1);
      entry := entries[index[Slot(khead, bits)]];
      khead := WrappingAdd(khead, 1);
      consumed := consumed + 1;
    }

    /** The kernel takes `n` published entries: exactly the next ones pushed, in order. */
    method Consume(n: nat) returns (taken: seq<Sqe>)
      requires Valid() && consumed + n <= published
      modifies `khead, `consumed
      ensures Valid() && consumed == old(consumed) + n
      ensures taken == pushed[old(consumed)..consumed]
    {
      hide Valid;
      taken := [];
      for k := 0 to n
        invariant Valid() && consumed == old(consumed) + k <= published
        invariant taken == pushed[old(consumed)..consumed]
      {
        var entry := Take();
        taken := taken + [entry];
      }
    }
  }
}

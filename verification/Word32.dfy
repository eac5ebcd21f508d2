/**
 Unsigned 32-bit ring arithmetic.

 The rings index their slots with free-running 32-bit counters masked by `capacity - 1`.
 The model keeps an unbounded index beside every such counter; the lemmas here say when
 the wrapped, masked arithmetic of the program agrees with arithmetic on those indices.
 */
module Word32 {

  const TWO_32: nat := 0x1_0000_0000

  type u32 = x: nat | x < 0x1_0000_0000

  /** The 32-bit counter that stands for an unbounded index. */
  function Word(i: nat): (w: u32) {
    i % TWO_32
  }

  function WrappingAdd(a: u32, b: u32): u32 {
    (a + b) % TWO_32
  }

  function WrappingSub(a: u32, b: u32): u32 {
    (a - b) % TWO_32
  }

  /** Bitwise conjunction, bit by bit. */
  function And(a: nat, b: nat): nat
    decreases a
  {
    if a == 0 || b == 0 then 0 else (a % 2) * (b % 2) + 2 * And(a / 2, b / 2)
  }

  function Pow2(k: nat): (p: nat)
    ensures p >= 1
  {
    if k == 0 then 1 else 2 * Pow2(k - 1)
  }

  /** The `k` low bits of `x`. */
  function Low(x: nat, k: nat): (r: nat)
    ensures r < Pow2(k) && r <= x
    decreases k
  {
    if k == 0 then 0 else x % 2 + 2 * Low(x / 2, k - 1)
  }

  /** An odd mask keeps the lowest bit. */
  lemma {:induction false} OddMask(x: nat, m: nat)
    requires m % 2 == 1
    ensures And(x, m) == x % 2 + 2 * And(x / 2, m / 2)
  {
    if x > 0 {
      assert (x % 2) * (m % 2) == x % 2;
    }
  }

  /** Masking with a power of two less one keeps exactly the low bits. */
  lemma {:induction false} MaskKeepsLowBits(x: nat, k: nat)
    ensures And(x, Pow2(k) - 1) == Low(x, k)
    decreases k
  {
    hide And;
    if k == 0 {
      AndZero(x);
    } else {
      var p := Pow2(k - 1);
      assert (2 * p - 1) / 2 == p - 1 && (2 * p - 1) % 2 == 1;
      OddMask(x, 2 * p - 1);
      MaskKeepsLowBits(x / 2, k - 1);
    }
  }

  lemma {:induction false} AndZero(x: nat)
    ensures And(x, 0) == 0
  {
  }

  lemma {:induction false} LowBitsOfLowBits(x: nat, n: nat, k: nat)
    requires k <= n
    ensures Low(Low(x, n), k) == Low(x, k)
    decreases k
  {
    if k > 0 {
      LowBitsOfLowBits(x / 2, n - 1, k - 1);
    }
  }

  /** `Low` is a remainder: what it drops is a multiple of the power of two. */
  lemma {:induction false} LowIsRemainder(x: nat, k: nat) returns (q: nat)
    ensures x == q * Pow2(k) + Low(x, k)
    decreases k
  {
    if k == 0 {
      q := x;
    } else {
      q := LowIsRemainder(x / 2, k - 1);
      var p := Pow2(k - 1);
      assert q * (2 * p) == 2 * (q * p);
    }
  }

  /** Numbers less than `2^k` apart differ in their `k` low bits. */
  lemma {:induction false} NeighboursDifferInLowBits(i: nat, j: nat, k: nat)
    requires i < j < i + Pow2(k)
    ensures Low(i, k) != Low(j, k)
    decreases k
  {
    if k > 0 && i % 2 == j % 2 {
      NeighboursDifferInLowBits(i / 2, j / 2, k - 1);
    }
  }

  lemma {:induction false} Pow2Splits(a: nat, b: nat)
    ensures Pow2(a + b) == Pow2(a) * Pow2(b)
    decreases a
  {
    if a > 0 {
      Pow2Splits(a - 1, b);
      assert Pow2(a) * Pow2(b) == 2 * (Pow2(a - 1) * Pow2(b));
    }
  }

  /** The width of a word. Its value is kept symbolic, so that definitions by bit are not unrolled. */
  lemma {:induction false} WordBits() returns (bits: nat)
    ensures bits >= 32 && Pow2(bits) == TWO_32
  {
    assert Pow2(8) == 0x100;
    Pow2Splits(8, 8);
    Pow2Splits(16, 16);
    bits := 32;
  }

  /** Reducing modulo 2^32 keeps the low bits of a word. */
  lemma {:induction false} WordIsLow(i: nat, bits: nat)
    requires Pow2(bits) == TWO_32
    ensures Word(i) == Low(i, bits)
  {
    var q := LowIsRemainder(i, bits);
    var r := Low(i, bits);
    assert i == q * TWO_32 + r && r < TWO_32;
  }

  /** The slot the program computes from a 32-bit counter. */
  function Slot(i: u32, k: nat): (s: nat) {
    And(i, Pow2(k) - 1)
  }

  /** Slots are in bounds, and wrapping the counter at 2^32 does not disturb them. */
  lemma {:induction false} SlotOfIndex(i: nat, k: nat)
    requires k <= 32
    ensures Slot(Word(i), k) == Low(i, k) < Pow2(k)
  {
    MaskKeepsLowBits(Word(i), k);
    var bits := WordBits();
    WordIsLow(i, bits);
    LowBitsOfLowBits(i, bits, k);
  }

  lemma {:induction false} WordsSubtract(i: nat, j: nat)
    requires i <= j < i + TWO_32
    ensures WrappingSub(Word(j), Word(i)) == j - i
    ensures Word(i) == Word(j) <==> i == j
  {
    assert Word(j) == j - TWO_32 * (j / TWO_32) && Word(i) == i - TWO_32 * (i / TWO_32);
  }

  lemma {:induction false} WordSteps(i: nat)
    ensures WrappingAdd(Word(i), 1) == Word(i + 1)
    ensures i > 0 ==> WrappingSub(Word(i), 1) == Word(i - 1)
  {
    assert Word(i) == i - TWO_32 * (i / TWO_32);
  }

  /** Counters subtract, compare and step as their indices do, while less than 2^32 apart. */
  lemma {:induction false} WordsTrackIndices(i: nat, j: nat)
    requires i <= j < i + TWO_32
    ensures WrappingSub(Word(j), Word(i)) == j - i
    ensures Word(i) == Word(j) <==> i == j
    ensures WrappingAdd(Word(i), 1) == Word(i + 1)
    ensures j > 0 ==> WrappingSub(Word(j), 1) == Word(j - 1)
  {
    hide Word, WrappingAdd, WrappingSub;
    WordsSubtract(i, j);
    WordSteps(i);
    WordSteps(j);
  }
}

/**
 The 32-bit entries of the packed free list (src/util/freelist.rs).

 Every entry is one machine word with two flag bits above a 30-bit field.  The list code
 reads and writes it with masks; the rest of this project works on the record `Word`.
 The lemmas of this module say that each mask operation of the source, on the bits of a
 word, is exactly one update or one projection of the record.
 */
module PackedWord {

  const FAILURE: int := -1
  const MAX_HEADS: int := 128
  const MAX_UNITS: int := LOW_RANGE - 1 - MAX_HEADS - 1

  const I32_MAX: int := 0x7fff_ffff
  const WORD_RANGE: int := 0x1_0000_0000
  const LOW_RANGE: int := 0x4000_0000
  const TOP_FLAG: nat := 0x8000_0000     // FREE_MASK of a lo entry, MULTI_MASK of a hi entry
  const SECOND_FLAG: nat := 0x4000_0000  // COALESC_MASK of a lo entry
  const LOW_MASK: nat := 0x3fff_ffff     // NEXT_MASK, PREV_MASK and SIZE_MASK

  type Low = n: int | 0 <= n < 0x4000_0000

  /** One entry: the two flag bits and the 30-bit field below them. */
  datatype Word = Word(top: bool, second: bool, low: Low)

  const ZERO: Word := Word(false, false, 0)

  /** The machine word of a record, as the unsigned reading of its 32 bits. */
  function Bits(w: Word): (b: nat)
  {
    (if w.top then TOP_FLAG else 0) + (if w.second then SECOND_FLAG else 0) + w.low
  }

  /** The unsigned reading of a two's complement `i32`. */
  function Unsigned(i: int): nat
    requires -0x8000_0000 <= i < 0x8000_0000
  {
    if i < 0 then i + WORD_RANGE else i
  }

  // ---------- bitwise operators ----------

  function And(a: nat, b: nat): nat {
    if a == 0 || b == 0 then 0 else (if a % 2 + b % 2 == 2 then 1 else 0) + 2 * And(a / 2, b / 2)
  }

  function Or(a: nat, b: nat): nat {
    if a == 0 then b else if b == 0 then a else (if a % 2 + b % 2 == 0 then 0 else 1) + 2 * Or(a / 2, b / 2)
  }

  /** Complement within the 32-bit word. */
  function Not(a: nat): nat
    requires a < WORD_RANGE
  {
    WORD_RANGE - 1 - a
  }

  function Pow2(n: nat): nat {
    if n == 0 then 1 else 2 * Pow2(n - 1)
  }

  /** `x << n`. */
  function Shl(x: nat, n: nat): nat {
    if n == 0 then x else 2 * Shl(x, n - 1)
  }

  lemma {:induction false} ShlIsProduct(x: nat, n: nat)
    ensures Shl(x, n) == x * Pow2(n)
  {
    if n > 0 {
      ShlIsProduct(x, n - 1);
      Doubled(x, Pow2(n - 1));
    }
  }

  lemma Doubled(x: nat, p: nat)
    ensures x * (2 * p) == 2 * (x * p)
  {
  }

  /** The operators act on the two halves of a word independently, wherever it is cut. */
  lemma {:induction false} AndCut(n: nat, hi1: nat, lo1: nat, hi2: nat, lo2: nat)
    requires lo1 < Pow2(n) && lo2 < Pow2(n)
    ensures And(Shl(hi1, n) + lo1, Shl(hi2, n) + lo2) == Shl(And(hi1, hi2), n) + And(lo1, lo2)
  {
    if n > 0 {
      hide And;
      AndCut(n - 1, hi1, lo1 / 2, hi2, lo2 / 2);
      AndDoubled(Shl(hi1, n - 1), lo1, Shl(hi2, n - 1), lo2, Shl(And(hi1, hi2), n - 1));
    }
  }

  lemma {:induction false} OrCut(n: nat, hi1: nat, lo1: nat, hi2: nat, lo2: nat)
    requires lo1 < Pow2(n) && lo2 < Pow2(n)
    ensures Or(Shl(hi1, n) + lo1, Shl(hi2, n) + lo2) == Shl(Or(hi1, hi2), n) + Or(lo1, lo2)
  {
    if n > 0 {
      hide Or;
      OrCut(n - 1, hi1, lo1 / 2, hi2, lo2 / 2);
      OrDoubled(Shl(hi1, n - 1), lo1, Shl(hi2, n - 1), lo2, Shl(Or(hi1, hi2), n - 1));
    }
  }

  lemma AndDoubled(h1: nat, lo1: nat, h2: nat, lo2: nat, high: nat)
    requires And(h1 + lo1 / 2, h2 + lo2 / 2) == high + And(lo1 / 2, lo2 / 2)
    ensures And(2 * h1 + lo1, 2 * h2 + lo2) == 2 * high + And(lo1, lo2)
  {
    AndStep(2 * h1 + lo1, 2 * h2 + lo2);
    AndStep(lo1, lo2);
    hide And;
    assert (2 * h1 + lo1) / 2 == h1 + lo1 / 2 && (2 * h2 + lo2) / 2 == h2 + lo2 / 2;
  }

  lemma OrDoubled(h1: nat, lo1: nat, h2: nat, lo2: nat, high: nat)
    requires Or(h1 + lo1 / 2, h2 + lo2 / 2) == high + Or(lo1 / 2, lo2 / 2)
    ensures Or(2 * h1 + lo1, 2 * h2 + lo2) == 2 * high + Or(lo1, lo2)
  {
    OrStep(2 * h1 + lo1, 2 * h2 + lo2);
    OrStep(lo1, lo2);
    hide Or;
    assert (2 * h1 + lo1) / 2 == h1 + lo1 / 2 && (2 * h2 + lo2) / 2 == h2 + lo2 / 2;
  }

  lemma AndStep(a: nat, b: nat)
    ensures And(a, b) == (if a % 2 + b % 2 == 2 then 1 else 0) + 2 * And(a / 2, b / 2)
  {
  }

  lemma OrStep(a: nat, b: nat)
    ensures Or(a, b) == (if a % 2 + b % 2 == 0 then 0 else 1) + 2 * Or(a / 2, b / 2)
  {
  }

  lemma {:induction false} AndOnes(n: nat, a: nat)
    requires a < Pow2(n)
    ensures And(a, Pow2(n) - 1) == a
  {
    if n > 0 {
      AndOnes(n - 1, a / 2);
    }
  }

  lemma Pow2Thirty()
    ensures Pow2(30) == LOW_RANGE
  {
    assert Pow2(10) == 0x400;
    assert Pow2(20) == 0x10_0000;
  }

  /** `AndCut` and `OrCut` at the boundary between the flags and the field. */
  lemma CutWord(f1: nat, l1: Low, f2: nat, l2: Low)
    ensures And(f1 * LOW_RANGE + l1, f2 * LOW_RANGE + l2) == And(f1, f2) * LOW_RANGE + And(l1, l2)
    ensures Or(f1 * LOW_RANGE + l1, f2 * LOW_RANGE + l2) == Or(f1, f2) * LOW_RANGE + Or(l1, l2)
  {
    hide And, Or, Shl, Pow2;
    Pow2Thirty();
    AndCut(30, f1, l1, f2, l2);
    OrCut(30, f1, l1, f2, l2);
    ShlThirty(f1);
    ShlThirty(f2);
    ShlThirty(And(f1, f2));
    ShlThirty(Or(f1, f2));
  }

  lemma ShlThirty(x: nat)
    ensures Shl(x, 30) == x * LOW_RANGE
  {
    hide Shl, Pow2;
    Pow2Thirty();
    ShlIsProduct(x, 30);
  }

  function Flags(w: Word): (f: nat)
    ensures f < 4 && Bits(w) == f * LOW_RANGE + w.low
  {
    (if w.top then 2 else 0) + (if w.second then 1 else 0)
  }

  /** The operators on the flags. */
  lemma SmallFlags(f: nat)
    requires f < 4
    ensures And(f, 1) == f % 2 && And(f, 2) == f / 2 * 2 && And(f, 3) == f && And(f, 0) == 0
    ensures Or(f, 1) == f / 2 * 2 + 1 && Or(f, 2) == f % 2 + 2 && Or(f, 0) == f
  {
  }

  lemma Zeros(a: nat)
    ensures And(a, 0) == 0 == And(0, a) && Or(a, 0) == a == Or(0, a)
  {
  }

  // ---------- the operations of src/util/freelist.rs ----------

  /** `hi & MULTI_MASK == MULTI_MASK`, `lo & FREE_MASK == FREE_MASK`, `lo & COALESC_MASK == 0`. */
  lemma TestFlags(w: Word)
    ensures And(Bits(w), TOP_FLAG) == TOP_FLAG <==> w.top
    ensures And(Bits(w), SECOND_FLAG) == 0 <==> !w.second
  {
    hide And, Or;
    CutWord(Flags(w), w.low, 2, 0);
    CutWord(Flags(w), w.low, 1, 0);
    SmallFlags(Flags(w));
    Zeros(w.low);
  }

  /** `entry & SIZE_MASK`, `entry & NEXT_MASK`, `entry & PREV_MASK`. */
  lemma ReadLow(w: Word)
    ensures And(Bits(w), LOW_MASK) == w.low
  {
    hide And, Or;
    CutWord(Flags(w), w.low, 0, LOW_MASK);
    SmallFlags(Flags(w));
    Pow2Thirty();
    AndOnes(30, w.low);
  }

  /** `entry | FLAG` for both flags. */
  lemma SetFlags(w: Word)
    ensures Or(Bits(w), TOP_FLAG) == Bits(w.(top := true))
    ensures Or(Bits(w), SECOND_FLAG) == Bits(w.(second := true))
  {
    hide And, Or;
    CutWord(Flags(w), w.low, 2, 0);
    CutWord(Flags(w), w.low, 1, 0);
    SmallFlags(Flags(w));
    Zeros(w.low);
  }

  /** `entry & !FLAG` for both flags. */
  lemma ClearFlags(w: Word)
    ensures And(Bits(w), Not(TOP_FLAG)) == Bits(w.(top := false))
    ensures And(Bits(w), Not(SECOND_FLAG)) == Bits(w.(second := false))
  {
    hide And, Or;
    Pow2Thirty();
    AndOnes(30, w.low);
    CutWord(Flags(w), w.low, 1, LOW_MASK);
    CutWord(Flags(w), w.low, 2, LOW_MASK);
    SmallFlags(Flags(w));
  }

  /** The 30-bit field that stands for a link: a unit, or a head as a negative number. */
  function LinkLow(x: int): Low
    requires -LOW_RANGE <= x < LOW_RANGE
  {
    if x < 0 then x + LOW_RANGE else x
  }

  lemma MaskLink(x: int)
    requires -LOW_RANGE <= x < LOW_RANGE
    ensures And(Unsigned(x), LOW_MASK) == LinkLow(x)
  {
    var w := Word(x < 0, x < 0, LinkLow(x));
    assert Unsigned(x) == Bits(w);
    ReadLow(w);
  }

  /** `(old & !MASK) | (link & MASK)`: set_next and set_prev keep both flags. */
  lemma WriteLink(w: Word, x: int)
    requires -LOW_RANGE <= x < LOW_RANGE
    ensures Or(And(Bits(w), Not(LOW_MASK)), And(Unsigned(x), LOW_MASK)) == Bits(w.(low := LinkLow(x)))
  {
    hide And, Or;
    MaskLink(x);
    CutWord(Flags(w), w.low, 3, 0);
    CutWord(Flags(w), 0, 0, LinkLow(x));
    SmallFlags(Flags(w));
    Zeros(w.low);
    Zeros(LinkLow(x));
  }

  /** `MULTI_MASK | size`: the size tag of a block of several units. */
  lemma WriteSizeTag(size: Low)
    ensures Or(TOP_FLAG, size) == Bits(Word(true, false, size))
  {
    hide And, Or;
    CutWord(2, 0, 0, size);
    SmallFlags(2);
    Zeros(size);
  }

  /**
   The guard of get_next and get_prev tells a unit from a head: every link that
   set_next and set_prev accept is recovered, except that the head's number is lost.
   */
  lemma LinkDecodes(x: int)
    requires -MAX_HEADS <= x <= MAX_UNITS
    ensures LinkLow(x) <= MAX_UNITS <==> x >= 0
    ensures LinkLow(x) <= MAX_UNITS ==> LinkLow(x) == x
  {
  }

  /** The entry index of the last unit of the largest table stays inside an `i32`. */
  lemma IndexFits(heads: int, unit: int)
    requires 0 <= heads <= MAX_HEADS && -heads <= unit <= MAX_UNITS
    ensures 0 <= 2 * (unit + heads) && 2 * (unit + heads) + 1 < 0x8000_0000
  {
  }
}

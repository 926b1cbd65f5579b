/** The collector's mark encoding.

    An allocation's `size` field doubles as its mark: a non-negative size means
    "not yet traced in this pass", a negative one means "traced". Marking is the
    C statement `size ^= -1` on a RogueInteger (assumed here to be a 32-bit
    two's-complement integer), i.e. the bitwise complement. This module defines
    that complement twice, once on a bit-level two's-complement picture and
    once arithmetically, proves them equal, and proves the properties the
    collector relies on: the complement of a non-negative size is negative,
    nothing is lost (the original size can be recovered), and marking a second
    time changes nothing. */
module RogueMark {

  // ---------------------------------------------------------------------------
  // A bit-level picture of w-bit two's-complement words (least significant bit first)
  // ---------------------------------------------------------------------------

  function Pow2(w: nat): (p: nat)
    ensures p >= 1
  {
    if w == 0 then 1 else 2 * Pow2(w - 1)
  }

  /** The w low bits of n. */
  function Bits(n: nat, w: nat): (bs: seq<bool>)
    ensures |bs| == w
  {
    if w == 0 then [] else [n % 2 == 1] + Bits(n / 2, w - 1)
  }

  /** The unsigned number a bit string denotes. */
  function Value(bs: seq<bool>): nat
  {
    if bs == [] then 0 else (if bs[0] then 1 else 0) + 2 * Value(bs[1..])
  }

  /** Bitwise exclusive or, the C operator `^`. */
  function Xor(a: seq<bool>, b: seq<bool>): (r: seq<bool>)
    requires |a| == |b|
    ensures |r| == |a|
    ensures forall i :: 0 <= i < |r| ==> r[i] == (a[i] != b[i])
  {
    if a == [] then [] else [a[0] != b[0]] + Xor(a[1..], b[1..])
  }

  predicate AllSet(bs: seq<bool>)
  {
    forall i :: 0 <= i < |bs| ==> bs[i]
  }

  /** x fits in a signed w-bit word. */
  predicate InWidth(x: int, w: nat)
  {
    w >= 1 && -(Pow2(w - 1) as int) <= x < Pow2(w - 1)
  }

  /** The unsigned reading of x's two's-complement word. */
  function Word(x: int, w: nat): (n: nat)
    requires InWidth(x, w)
    ensures n < Pow2(w)
  {
    if x >= 0 then x else x + Pow2(w)
  }

  /** The signed reading of a w-bit word. */
  function Signed(n: nat, w: nat): int
    requires w >= 1
  {
    if n < Pow2(w - 1) then n else n - Pow2(w)
  }

  lemma {:induction false} ValueOfBits(n: nat, w: nat)
    requires n < Pow2(w)
    ensures Value(Bits(n, w)) == n
  {
    if w > 0 {
      ValueOfBits(n / 2, w - 1);
      assert Bits(n, w)[1..] == Bits(n / 2, w - 1);
    }
  }

  lemma {:induction false} AllOnes(w: nat)
    ensures AllSet(Bits(Pow2(w) - 1, w))
  {
    if w > 0 {
      var n := Pow2(w) - 1;
      var m := Pow2(w - 1) - 1;
      assert n == 2 * m + 1;
      assert n % 2 == 1 && n / 2 == m;
      AllOnes(w - 1);
      assert Bits(n, w) == [true] + Bits(m, w - 1);
    }
  }

  /** Exclusive or with all ones flips every bit: the value becomes 2^w - 1 - value. */
  lemma {:induction false} ValueOfFlipped(a: seq<bool>, b: seq<bool>)
    requires |a| == |b| && AllSet(b)
    ensures Value(Xor(a, b)) == Pow2(|a|) - 1 - Value(a)
  {
    if a != [] {
      ValueOfFlipped(a[1..], b[1..]);
      assert Xor(a, b)[1..] == Xor(a[1..], b[1..]);
    }
  }

  // ---------------------------------------------------------------------------
  // RogueInteger and the statement `size ^= -1`
  // ---------------------------------------------------------------------------

  const INTEGER_BITS: nat := 32

  predicate IsInteger(x: int)
  {
    InWidth(x, INTEGER_BITS)
  }

  lemma IntegerRange(x: int)
    ensures Pow2(INTEGER_BITS - 1) == 0x8000_0000
    ensures IsInteger(x) <==> -0x8000_0000 <= x <= 0x7FFF_FFFF
  {
    assert Pow2(4) == 16;
    assert Pow2(8) == 0x100;
    assert Pow2(12) == 0x1000;
    assert Pow2(16) == 0x1_0000;
    assert Pow2(20) == 0x10_0000;
    assert Pow2(24) == 0x100_0000;
    assert Pow2(28) == 0x1000_0000;
    assert Pow2(30) == 0x4000_0000;
  }

  /** `x ^ -1` on RogueIntegers, computed on the two's-complement bits. */
  function XorMinusOne(x: int): (r: int)
    requires IsInteger(x)
  {
    Signed(Value(Xor(Bits(Word(x, INTEGER_BITS), INTEGER_BITS),
                     Bits(Word(-1, INTEGER_BITS), INTEGER_BITS))), INTEGER_BITS)
  }

  /** The bitwise complement in arithmetic form. */
  function Complement(x: int): (r: int)
    ensures x >= 0 <==> r < 0
    ensures IsInteger(x) ==> IsInteger(r)
  {
    -x - 1
  }

  /** The arithmetic complement is exactly what `^ -1` computes on a RogueInteger. */
  lemma ComplementIsXorMinusOne(x: int)
    requires IsInteger(x)
    ensures XorMinusOne(x) == Complement(x)
  {
    var w := INTEGER_BITS;
    assert Pow2(w) == 2 * Pow2(w - 1);
    assert Word(-1, w) == Pow2(w) - 1;
    AllOnes(w);
    ValueOfBits(Word(x, w), w);
    ValueOfFlipped(Bits(Word(x, w), w), Bits(Word(-1, w), w));
  }

  /** Complementing twice gives back the original value: no information is lost. */
  lemma ComplementInvolutive(x: int)
    ensures Complement(Complement(x)) == x
  {
  }

  // ---------------------------------------------------------------------------
  // Marks
  // ---------------------------------------------------------------------------

  predicate IsMarked(size: int)
  {
    size < 0
  }

  /** The allocation size a size field stands for, marked or not. */
  function OriginalSize(size: int): (r: nat)
    ensures !IsMarked(size) ==> r == size
    ensures IsMarked(size) ==> Complement(r) == size
  {
    if IsMarked(size) then Complement(size) else size
  }

  /** The effect of one trace visit on a size field:
      `if (size >= 0) size ^= -1;` */
  function Mark(size: int): (r: int)
    ensures IsMarked(r)
    ensures IsMarked(size) ==> r == size
    ensures !IsMarked(size) ==> r == Complement(size)
    ensures OriginalSize(r) == OriginalSize(size)
    ensures IsInteger(size) ==> IsInteger(r)
  {
    if size >= 0 then Complement(size) else size
  }

  lemma MarkIdempotent(size: int)
    ensures Mark(Mark(size)) == Mark(size)
  {
  }

  /** The size field after n trace visits in one pass (a cyclic graph may
      reach the same object many times). */
  function MarkTimes(size: int, n: nat): int
  {
    if n == 0 then size else Mark(MarkTimes(size, n - 1))
  }

  /** Any positive number of visits has the effect of exactly one. */
  lemma {:induction false} MarkTimesIsMark(size: int, n: nat)
    requires n >= 1
    ensures MarkTimes(size, n) == Mark(size)
  {
    if n > 1 {
      MarkTimesIsMark(size, n - 1);
      MarkIdempotent(size);
    }
  }
}

/** 32-bit words, bit by bit, and their numbers. */
module Words {

  const WIDTH: nat := 32

  /** Bit `i` has the weight 2^i. */
  type Word = w: seq<bool> | |w| == WIDTH witness seq(WIDTH, (i: nat) => false)

  function Zero(): Word {
    seq(WIDTH, (i: nat) => false)
  }

  function Ones(): Word {
    seq(WIDTH, (i: nat) => true)
  }

  function Xor(a: Word, b: Word): Word {
    seq(WIDTH, i requires 0 <= i < WIDTH => a[i] != b[i])
  }

  function ShiftLeft(a: Word, n: nat): Word {
    seq(WIDTH, i requires 0 <= i < WIDTH => i >= n && a[i - n])
  }

  /** Without a sign: the source's `>>>`. */
  function ShiftRight(a: Word, n: nat): Word {
    seq(WIDTH, i requires 0 <= i < WIDTH => i + n < WIDTH && a[i + n])
  }

  // ------------------------------------------- a word mixed with its own shift

  function MixLeft(x: Word, n: nat): Word { Xor(x, ShiftLeft(x, n)) }

  function MixRight(x: Word, n: nat): Word { Xor(x, ShiftRight(x, n)) }

  /** The bit that `MixLeft` started from: the low bits are unchanged, and the others follow from them. */
  function LeftBit(x: Word, n: nat, i: nat): bool
    requires n > 0 && i < WIDTH
  {
    x[i] != (i >= n && LeftBit(x, n, i - n))
  }

  function RightBit(x: Word, n: nat, i: nat): bool
    requires n > 0 && i < WIDTH
    decreases WIDTH - i
  {
    x[i] != (i + n < WIDTH && RightBit(x, n, i + n))
  }

  function UnmixLeft(x: Word, n: nat): Word
    requires n > 0
  {
    seq(WIDTH, i requires 0 <= i < WIDTH => LeftBit(x, n, i))
  }

  function UnmixRight(x: Word, n: nat): Word
    requires n > 0
  {
    seq(WIDTH, i requires 0 <= i < WIDTH => RightBit(x, n, i))
  }

  lemma {:induction false} LeftBitUndoes(x: Word, n: nat, i: nat)
    requires n > 0 && i < WIDTH
    ensures LeftBit(MixLeft(x, n), n, i) == x[i]
  {
    if i >= n {
      LeftBitUndoes(x, n, i - n);
    }
  }

  lemma {:induction false} RightBitUndoes(x: Word, n: nat, i: nat)
    requires n > 0 && i < WIDTH
    ensures RightBit(MixRight(x, n), n, i) == x[i]
    decreases WIDTH - i
  {
    if i + n < WIDTH {
      RightBitUndoes(x, n, i + n);
    }
  }

  /** Mixing a word with its own shift loses nothing, whatever the distance. */
  lemma MixLeftBijective(x: Word, n: nat)
    requires n > 0
    ensures UnmixLeft(MixLeft(x, n), n) == x == MixLeft(UnmixLeft(x, n), n)
  {
    forall i: nat | i < WIDTH
      ensures UnmixLeft(MixLeft(x, n), n)[i] == x[i] == MixLeft(UnmixLeft(x, n), n)[i]
    {
      LeftBitUndoes(x, n, i);
    }
  }

  lemma MixRightBijective(x: Word, n: nat)
    requires n > 0
    ensures UnmixRight(MixRight(x, n), n) == x == MixRight(UnmixRight(x, n), n)
  {
    forall i: nat | i < WIDTH
      ensures UnmixRight(MixRight(x, n), n)[i] == x[i] == MixRight(UnmixRight(x, n), n)[i]
    {
      RightBitUndoes(x, n, i);
    }
  }

  lemma MixZero(n: nat)
    ensures MixLeft(Zero(), n) == Zero() == MixRight(Zero(), n)
  {
  }

  // ------------------------------------------------------------ powers of two

  function Pow2(k: nat): nat {
    if k == 0 then 1 else 2 * Pow2(k - 1)
  }

  lemma FourBits(k: nat)
    ensures Pow2(k + 4) == 16 * Pow2(k)
  {
    assert Pow2(k + 2) == 4 * Pow2(k);
  }

  lemma SixteenBits(k: nat)
    ensures Pow2(k + 16) == 0x1_0000 * Pow2(k)
  {
    FourBits(k);
    FourBits(k + 4);
    FourBits(k + 8);
    FourBits(k + 12);
  }

  lemma ThirtyTwoBits(k: nat)
    requires k == 32
    ensures Pow2(k) == 0x1_0000_0000
  {
    SixteenBits(k - 16);
    SixteenBits(k - 32);
  }

  // ------------------------------------------------------------- their numbers

  function Value(bits: seq<bool>): nat {
    if bits == [] then 0 else (if bits[0] then 1 else 0) + 2 * Value(bits[1..])
  }

  function Bits(n: nat, k: nat): (bits: seq<bool>)
    ensures |bits| == k
  {
    if k == 0 then [] else [n % 2 == 1] + Bits(n / 2, k - 1)
  }

  lemma {:induction false} ValueRange(bits: seq<bool>)
    ensures Value(bits) < Pow2(|bits|)
    ensures Value(bits) == 0 <==> forall i :: 0 <= i < |bits| ==> !bits[i]
    ensures Value(bits) == Pow2(|bits|) - 1 <==> forall i :: 0 <= i < |bits| ==> bits[i]
  {
    if bits != [] {
      ValueRange(bits[1..]);
      assert forall i :: 0 < i < |bits| ==> bits[i] == bits[1..][i - 1];
    }
  }

  lemma {:induction false} BitsOfValue(bits: seq<bool>)
    ensures Bits(Value(bits), |bits|) == bits
  {
    if bits != [] {
      BitsOfValue(bits[1..]);
      assert Value(bits) / 2 == Value(bits[1..]);
    }
  }

  /** A word's number is a 32-bit one, 0 for no bits and the largest for all. */
  lemma WordValue(w: Word)
    ensures Value(w) < 0x1_0000_0000
    ensures Value(w) == 0 <==> w == Zero()
    ensures Value(w) == 0xffff_ffff <==> w == Ones()
    ensures Bits(Value(w), WIDTH) == w
  {
    var k := WIDTH;
    ThirtyTwoBits(k);
    ValueRange(w);
    BitsOfValue(w);
    assert w == Zero() <==> forall i :: 0 <= i < |w| ==> !w[i];
    assert w == Ones() <==> forall i :: 0 <= i < |w| ==> w[i];
  }
}

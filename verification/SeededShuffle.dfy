/** The xorshift32 generator of scripts/eval-learning-surface.ts and the shuffles it drives. */
module SeededShuffle {
  import opened Words
  import opened FisherYates

  const WARM_UP: nat := 16

  // ---------------------------------------------------------- the generator

  /** One xorshift32 round on the 32-bit state. */
  function Step(state: Word): Word {
    MixLeft(MixRight(MixLeft(state, 13), 17), 5)
  }

  /** Undoes the three shifts of `Step`, last one first. */
  function Unstep(state: Word): Word {
    UnmixLeft(UnmixRight(UnmixLeft(state, 5), 17), 13)
  }

  function Iterate(state: Word, rounds: nat): Word {
    if rounds == 0 then state else Step(Iterate(state, rounds - 1))
  }

  function Rewind(state: Word, rounds: nat): Word
    decreases rounds
  {
    if rounds == 0 then state else Rewind(Unstep(state), rounds - 1)
  }

  /** `seed | 0 || 1`. */
  function Start(seed: int): Word {
    var word := Bits(seed % 0x1_0000_0000, WIDTH);
    if word == Zero() then Bits(1, WIDTH) else word
  }

  /** The word behind the k-th number a seeded generator returns; the warm-up words are thrown away. */
  function DrawnWord(seed: int, k: nat): Word {
    Iterate(Start(seed), WARM_UP + 1 + k)
  }

  function Fraction(word: Word): real {
    Value(word) as real / 0xffff_ffff as real
  }

  class Generator {
    var state: Word

    constructor (seed: int)
      ensures state == Iterate(Start(seed), 16)
    {
      var s := Start(seed);
      for i := 0 to WARM_UP
        invariant s == Iterate(Start(seed), i)
      {
        s := Step(s);
      }
      state := s;
    }

    /** `next() / 0xffffffff`: advances the state and scales the new word. */
    method Next() returns (value: real)
      modifies this
      ensures state == Step(old(state)) && value == Fraction(state)
    {
      state := Xor(state, ShiftLeft(state, 13));
      state := Xor(state, ShiftRight(state, 17));
      state := Xor(state, ShiftLeft(state, 5));
      value := Fraction(state);
    }
  }

  /** The word whose ones stand at these places. */
  function WithBits(places: set<nat>): Word {
    seq(WIDTH, i requires 0 <= i < WIDTH => i in places)
  }

  /** What the round makes of the lowest and of the highest bit: the three shifts are 13, 17 and 5. */
  lemma StepOfOneBit()
    ensures Step(WithBits({0})) == WithBits({0, 5, 13, 18})
    ensures Step(WithBits({31})) == WithBits({31, 14, 19})
  {
    assert MixLeft(WithBits({0}), 13) == WithBits({0, 13});
    assert MixRight(WithBits({0, 13}), 17) == WithBits({0, 13});
    assert MixLeft(WithBits({31}), 13) == WithBits({31});
    assert MixRight(WithBits({31}), 17) == WithBits({31, 14});
  }

  /** The round is a bijection on 32-bit words, and it fixes zero. */
  lemma StepBijective(word: Word)
    ensures Unstep(Step(word)) == word && Step(Unstep(word)) == word
    ensures Step(word) == Zero() <==> word == Zero()
  {
    hide *;
    UnstepStep(word);
    StepUnstep(word);
    StepZero();
    if Step(word) == Zero() {
      UnstepStep(Zero());
    }
  }

  lemma UnstepStep(word: Word)
    ensures Unstep(Step(word)) == word
  {
    hide MixLeft, MixRight, UnmixLeft, UnmixRight;
    MixLeftBijective(word, 13);
    MixRightBijective(MixLeft(word, 13), 17);
    MixLeftBijective(MixRight(MixLeft(word, 13), 17), 5);
  }

  lemma StepUnstep(word: Word)
    ensures Step(Unstep(word)) == word
  {
    hide MixLeft, MixRight, UnmixLeft, UnmixRight;
    MixLeftBijective(word, 5);
    MixRightBijective(UnmixLeft(word, 5), 17);
    MixLeftBijective(UnmixRight(UnmixLeft(word, 5), 17), 13);
  }

  lemma StepZero()
    ensures Step(Zero()) == Zero()
  {
    hide MixLeft, MixRight;
    MixZero(13);
    MixZero(17);
    MixZero(5);
  }

  lemma {:induction false} RewindIterate(word: Word, rounds: nat)
    ensures Rewind(Iterate(word, rounds), rounds) == word
    ensures Iterate(Rewind(word, rounds), rounds) == word
    ensures Iterate(word, rounds) == Zero() <==> word == Zero()
    decreases rounds
  {
    hide Step, Unstep;
    if rounds != 0 {
      StepBijective(Iterate(word, rounds - 1));
      RewindIterate(word, rounds - 1);
      RewindIterate(Unstep(word), rounds - 1);
      StepBijective(word);
    }
  }

  lemma StartIsNotZero(seed: int)
    ensures Start(seed) != Zero()
  {
    assert Bits(1, WIDTH)[0];
  }

  /** No seed ever reaches the all-zero state, so every number drawn lies in (0, 1]. */
  lemma DrawsInUnitInterval(seed: int, k: nat)
    ensures DrawnWord(seed, k) != Zero()
    ensures 0.0 < Fraction(DrawnWord(seed, k)) <= 1.0
    ensures Fraction(DrawnWord(seed, k)) == 1.0 <==> DrawnWord(seed, k) == Ones()
  {
    hide Start, Iterate, Value;
    StartIsNotZero(seed);
    RewindIterate(Start(seed), WARM_UP + 1 + k);
    WordValue(DrawnWord(seed, k));
    Quotient(Value(DrawnWord(seed, k)));
  }

  lemma Quotient(n: nat)
    requires 0 < n <= 0xffff_ffff
    ensures 0.0 < n as real / 0xffff_ffff as real <= 1.0
    ensures n as real / 0xffff_ffff as real == 1.0 <==> n == 0xffff_ffff
  {
  }

  // ------------------------------------------------------------ the shuffle

  /** The numbers a seeded generator returns after the first `drawn` of them. */
  function Draws(seed: int, drawn: nat): nat -> real {
    (k: nat) => Fraction(DrawnWord(seed, drawn + k))
  }

  lemma DrawsAreUnit(seed: int, drawn: nat)
    ensures InUnit(Draws(seed, drawn))
  {
    hide Fraction, DrawnWord;
    forall k: nat
      ensures 0.0 < Draws(seed, drawn)(k) <= 1.0
    {
      DrawsInUnitInterval(seed, drawn + k);
    }
  }

  /** The start state from which the draw after the first `drawn` ones is exactly 1. */
  function Spoiler(drawn: nat): Word {
    Rewind(Ones(), WARM_UP + 1 + drawn)
  }

  lemma FirstDrawIsOne(seed: int, drawn: nat)
    ensures Draws(seed, drawn)(0) == 1.0 <==> Start(seed) == Spoiler(drawn)
  {
    hide Start, Rewind, Fraction, Iterate;
    DrawsInUnitInterval(seed, drawn);
    RewindIterate(Start(seed), WARM_UP + 1 + drawn);
    RewindIterate(Ones(), WARM_UP + 1 + drawn);
  }

  /**
   * A shuffle by a seeded generator that has been drawn from `drawn` times rearranges its input for every seed except
   * those with one 32-bit pattern.
   */
  method SeededShuffle<T>(items: seq<T>, seed: int, drawn: nat) returns (out: seq<Slot<T>>)
    ensures |items| < 2 || Start(seed) != Spoiler(drawn) <==> multiset(out) == multiset(Items(items))
    ensures multiset(Items(items)) <= multiset(out)
    ensures InUnit(Draws(seed, drawn)) && out == Shuffled(Items(items), |items|, |items|, Draws(seed, drawn))
  {
    hide *;
    DrawsAreUnit(seed, drawn);
    FirstDrawIsOne(seed, drawn);
    out := Shuffle(items, Draws(seed, drawn));
    ContentsKept(items, Draws(seed, drawn));
    ghost var all := multiset(Items(items));
    assert all + multiset{Hole} != all by {
      assert (all + multiset{Hole})[Hole] == all[Hole] + 1;
    }
  }

  lemma SeedOf(word: Word) returns (seed: int)
    requires word != Zero()
    ensures Start(seed) == word
  {
    hide Bits, Value;
    WordValue(word);
    seed := Value(word);
    InRange(seed);
  }

  lemma InRange(n: int)
    requires 0 <= n < 0x1_0000_0000
    ensures n % 0x1_0000_0000 == n
  {
  }

  lemma OnesIsNotZero()
    ensures Ones() != Zero()
  {
    assert Ones()[0] && !Zero()[0];
  }

  /** Whatever has been drawn before, some seed has the exceptional pattern, so the hole really can appear. */
  lemma SpoilingSeedExists(drawn: nat) returns (seed: int)
    ensures Start(seed) == Spoiler(drawn)
    ensures Draws(seed, drawn)(0) == 1.0
  {
    hide Start, Rewind, Fraction, Iterate;
    RewindIterate(Ones(), WARM_UP + 1 + drawn);
    RewindIterate(Spoiler(drawn), WARM_UP + 1 + drawn);
    OnesIsNotZero();
    seed := SeedOf(Spoiler(drawn));
    FirstDrawIsOne(seed, drawn);
  }
}

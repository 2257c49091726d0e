/** The 64-bit FNV-1a digest of scripts/evaluate-skill-provenance.ts, over UTF-16 code units. */
module Digest {
  import opened Encodings
  import Words

  const MODULUS: nat := 0x1_0000_0000_0000_0000
  const OFFSET_BASIS: nat := 0xcbf2_9ce4_8422_2325
  const PRIME: nat := 0x100_0000_01b3

  /** The multiplicative inverse of PRIME modulo 2^64. */
  const PRIME_INVERSE: nat := 0xce96_5057_aff6_957b

  type CodeUnit = u: nat | u < 0x1_0000
  type Word = w: nat | w < MODULUS witness 0

  // ------------------------------------------------------------ the digest

  /** Bitwise exclusive or of two unbounded naturals. */
  function Xor(a: nat, b: nat): nat
    decreases a + b
  {
    if a == 0 then b
    else if b == 0 then a
    else (a % 2 + b % 2) % 2 + 2 * Xor(a / 2, b / 2)
  }

  function Step(hash: Word, unit: CodeUnit): Word {
    Xor(hash, unit) * PRIME % MODULUS
  }

  function Fold(hash: Word, input: seq<CodeUnit>): Word {
    if input == [] then hash else Step(Fold(hash, input[..|input| - 1]), input[|input| - 1])
  }

  /** Number.prototype.toString(16). */
  function ToHex(n: nat): string {
    if n < 16 then [HexDigit(n)] else ToHex(n / 16) + [HexDigit(n % 16)]
  }

  function PadStart(s: string, width: nat): string
    decreases width - |s|
  {
    if |s| >= width then s else PadStart(['0'] + s, width)
  }

  function Render(hash: Word): string {
    "fnv1a64:" + PadStart(ToHex(hash), 16)
  }

  function DigestOf(input: seq<CodeUnit>): string {
    Render(Fold(OFFSET_BASIS, input))
  }

  method Fnv1a64(input: seq<CodeUnit>) returns (digest: string)
    ensures digest == DigestOf(input)
  {
    var hash: nat := OFFSET_BASIS;
    var index := 0;
    while index < |input|
      invariant 0 <= index <= |input|
      invariant hash == Fold(OFFSET_BASIS, input[..index])
    {
      hash := Xor(hash, input[index]);
      hash := hash * PRIME % MODULUS;
      assert input[..index + 1][..index] == input[..index];
      index := index + 1;
    }
    assert input[..index] == input;
    digest := "fnv1a64:" + PadStart(ToHex(hash), 16);
  }

  lemma HexSnoc(n: nat, d: nat)
    requires n > 0 && d < 16
    ensures ToHex(n * 16 + d) == ToHex(n) + [HexDigit(d)]
  {
    assert (n * 16 + d) / 16 == n && (n * 16 + d) % 16 == d;
  }

  lemma OffsetAgainstA()
    ensures Xor(OFFSET_BASIS, 0x61) == 0xcbf2_9ce4_8422_2344
  {
    hide Xor;
    XorZero(0x197_e539_c908_4446);
    XorUnfolds(0x32f_ca73_9210_888c, 0x1);
    XorUnfolds(0x65f_94e7_2421_1119, 0x3);
    XorUnfolds(0xcbf_29ce_4842_2232, 0x6);
    XorUnfolds(0x197e_539c_9084_4464, 0xc);
    XorUnfolds(0x32fc_a739_2108_88c9, 0x18);
    XorUnfolds(0x65f9_4e72_4211_1192, 0x30);
    XorUnfolds(0xcbf2_9ce4_8422_2325, 0x61);
  }

  lemma OffsetInHex()
    ensures ToHex(0xcbf2_9ce4_8422_2325) == "cbf29ce484222325"
  {
    hide ToHex;
    OneDigit(12);
    HexSnoc(0xc, 11);
    HexSnoc(0xcb, 15);
    HexSnoc(0xcbf, 2);
    HexSnoc(0xcbf2, 9);
    HexSnoc(0xc_bf29, 12);
    HexSnoc(0xcb_f29c, 14);
    HexSnoc(0xcbf_29ce, 4);
    HexSnoc(0xcbf2_9ce4, 8);
    HexSnoc(0xc_bf29_ce48, 4);
    HexSnoc(0xcb_f29c_e484, 2);
    HexSnoc(0xcbf_29ce_4842, 2);
    HexSnoc(0xcbf2_9ce4_8422, 2);
    HexSnoc(0xc_bf29_ce48_4222, 3);
    HexSnoc(0xcb_f29c_e484_2223, 2);
    HexSnoc(0xcbf_29ce_4842_2232, 5);
  }

  lemma OneDigit(n: nat)
    requires n < 16
    ensures ToHex(n) == [HexDigit(n)]
  {
  }

  /** The published 64-bit FNV-1a values of the empty text and of `a`. */
  lemma KnownDigests()
    ensures DigestOf([]) == "fnv1a64:cbf29ce484222325"
    ensures Fold(OFFSET_BASIS, [0x61]) == 0xaf63_dc4c_8601_ec8c
  {
    hide Xor, ToHex;
    OffsetAgainstA();
    OffsetInHex();
    assert [0x61][..0] == [];
  }

  // ------------------------------------------- one step loses no information

  lemma XorHalves(a: nat, b: nat)
    ensures Xor(a, b) % 2 == (a % 2 + b % 2) % 2 && Xor(a, b) / 2 == Xor(a / 2, b / 2)
  {
    hide Xor;
    XorZero(a);
    XorZero(b);
    XorZero(a / 2);
    XorZero(b / 2);
    if a != 0 && b != 0 {
      XorUnfolds(a, b);
      BitAndRest((a % 2 + b % 2) % 2, Xor(a / 2, b / 2));
    }
  }

  lemma XorUnfolds(a: nat, b: nat)
    requires a != 0 && b != 0
    ensures Xor(a, b) == (a % 2 + b % 2) % 2 + 2 * Xor(a / 2, b / 2)
  {
  }

  lemma BitAndRest(bit: nat, rest: nat)
    requires bit < 2
    ensures (bit + 2 * rest) % 2 == bit && (bit + 2 * rest) / 2 == rest
  {
  }

  lemma XorZero(b: nat)
    ensures Xor(0, b) == b == Xor(b, 0)
  {
  }

  lemma {:induction false} XorCancels(a: nat, b: nat)
    ensures Xor(Xor(a, b), b) == a
    decreases a + b
  {
    hide *;
    if a == 0 {
      XorZero(b);
      XorSelf(b);
    } else {
      XorCancels(a / 2, b / 2);
      XorHalves(a, b);
      XorHalves(Xor(a, b), b);
    }
  }

  lemma {:induction false} XorSelf(a: nat)
    ensures Xor(a, a) == 0
  {
    if a != 0 {
      XorSelf(a / 2);
    }
  }

  lemma {:induction false} XorCommutes(a: nat, b: nat)
    ensures Xor(a, b) == Xor(b, a)
    decreases a + b
  {
    if a != 0 && b != 0 {
      XorCommutes(a / 2, b / 2);
    }
  }

  /** An exclusive or of two k-bit words is a k-bit word. */
  lemma {:induction false} XorBound(a: nat, b: nat, k: nat)
    requires a < Words.Pow2(k) && b < Words.Pow2(k)
    ensures Xor(a, b) < Words.Pow2(k)
    decreases k
  {
    if a != 0 && b != 0 {
      XorBound(a / 2, b / 2, k - 1);
    }
  }

  lemma WordSize(k: nat)
    requires k == 64
    ensures Words.Pow2(k) == MODULUS
  {
    Words.SixteenBits(k - 16);
    Words.SixteenBits(k - 32);
    Words.SixteenBits(k - 48);
    Words.SixteenBits(k - 64);
  }

  lemma XorIsWord(hash: Word, unit: CodeUnit)
    ensures Xor(hash, unit) < MODULUS
  {
    var k := 64;
    WordSize(k);
    XorBound(hash, unit, k);
  }

  /** Multiplying by the odd prime can be undone, so it is injective on 64-bit words. */
  lemma MultiplyInvertible(x: Word)
    ensures x * PRIME % MODULUS * PRIME_INVERSE % MODULUS == x
  {
    var q := x * PRIME / MODULUS;
    var j := PRIME * PRIME_INVERSE / MODULUS;
    assert PRIME * PRIME_INVERSE == j * MODULUS + 1;
    assert x * PRIME % MODULUS == x * PRIME - q * MODULUS;
    assert (x * PRIME - q * MODULUS) * PRIME_INVERSE == (x * j - q * PRIME_INVERSE) * MODULUS + x;
    Remainder((x * j - q * PRIME_INVERSE), x);
  }

  lemma Remainder(q: int, x: Word)
    ensures (q * MODULUS + x) % MODULUS == x
  {
  }

  /** The inverse of `Step` for a fixed code unit. */
  function Unstep(hash: Word, unit: CodeUnit): nat {
    Xor(hash * PRIME_INVERSE % MODULUS, unit)
  }

  /** Each step is a bijection of the 64-bit state for a fixed unit. */
  lemma StepBijective(hash: Word, unit: CodeUnit)
    ensures Unstep(Step(hash, unit), unit) == hash
    ensures Unstep(hash, unit) < MODULUS && Step(Unstep(hash, unit), unit) == hash
  {
    XorIsWord(hash, unit);
    MultiplyInvertible(Xor(hash, unit));
    XorCancels(hash, unit);

    var h := hash * PRIME_INVERSE % MODULUS;
    XorIsWord(h, unit);
    XorCancels(h, unit);
    MultiplyBackwards(hash);
  }

  lemma MultiplyBackwards(x: Word)
    ensures x * PRIME_INVERSE % MODULUS * PRIME % MODULUS == x
  {
    var q := x * PRIME_INVERSE / MODULUS;
    var j := PRIME * PRIME_INVERSE / MODULUS;
    assert PRIME * PRIME_INVERSE == j * MODULUS + 1;
    assert x * PRIME_INVERSE % MODULUS == x * PRIME_INVERSE - q * MODULUS;
    assert (x * PRIME_INVERSE - q * MODULUS) * PRIME == (x * j - q * PRIME) * MODULUS + x;
    Remainder(x * j - q * PRIME, x);
  }

  /** Each step is injective in the code unit. */
  lemma StepInjectiveInUnit(hash: Word, u: CodeUnit, v: CodeUnit)
    requires Step(hash, u) == Step(hash, v)
    ensures u == v
  {
    XorIsWord(hash, u);
    XorIsWord(hash, v);
    MultiplyInvertible(Xor(hash, u));
    MultiplyInvertible(Xor(hash, v));
    XorCommutes(hash, u);
    XorCommutes(hash, v);
    XorCancels(u, hash);
    XorCancels(v, hash);
  }

  // ------------------------------------------------------- digest sensitivity

  /** A common suffix never merges two different states. */
  lemma {:induction false} FoldInjective(g: Word, h: Word, suffix: seq<CodeUnit>)
    ensures Fold(g, suffix) == Fold(h, suffix) <==> g == h
  {
    if suffix != [] {
      var front, unit := suffix[..|suffix| - 1], suffix[|suffix| - 1];
      FoldInjective(g, h, front);
      StepBijective(Fold(g, front), unit);
      StepBijective(Fold(h, front), unit);
    }
  }

  lemma {:induction false} FoldConcat(hash: Word, a: seq<CodeUnit>, b: seq<CodeUnit>)
    ensures Fold(hash, a + b) == Fold(Fold(hash, a), b)
  {
    if b == [] {
      assert a + b == a;
    } else {
      FoldConcat(hash, a, b[..|b| - 1]);
      assert (a + b)[..|a + b| - 1] == a + b[..|b| - 1];
    }
  }

  /** Two strings that differ in exactly one code unit have different digests. */
  lemma DigestSensitivity(a: seq<CodeUnit>, b: seq<CodeUnit>, at: nat)
    requires |a| == |b| && at < |a|
    requires a[at] != b[at]
    requires forall i :: 0 <= i < |a| && i != at ==> a[i] == b[i]
    ensures DigestOf(a) != DigestOf(b)
  {
    var prefix, suffix := a[..at], a[at + 1..];
    assert a == prefix + [a[at]] + suffix;
    assert b == prefix + [b[at]] + suffix;
    var g := Fold(OFFSET_BASIS, prefix);
    Spelled(prefix, a[at], suffix);
    Spelled(prefix, b[at], suffix);
    if Step(g, a[at]) == Step(g, b[at]) {
      StepInjectiveInUnit(g, a[at], b[at]);
      assert false;
    }
    FoldInjective(Step(g, a[at]), Step(g, b[at]), suffix);
    RenderInjective(Fold(OFFSET_BASIS, a), Fold(OFFSET_BASIS, b));
  }

  lemma Spelled(prefix: seq<CodeUnit>, unit: CodeUnit, suffix: seq<CodeUnit>)
    ensures Fold(OFFSET_BASIS, prefix + [unit] + suffix) == Fold(Step(Fold(OFFSET_BASIS, prefix), unit), suffix)
  {
    FoldConcat(OFFSET_BASIS, prefix + [unit], suffix);
    assert (prefix + [unit])[..|prefix|] == prefix;
  }

  // -------------------------------------------------- the rendering is faithful

  function DigitValue(c: char): nat {
    if '0' <= c <= '9' then c as nat - '0' as nat
    else if 'a' <= c <= 'f' then 10 + (c as nat - 'a' as nat)
    else 0
  }

  function ParseHex(s: string): nat {
    if s == "" then 0 else 16 * ParseHex(s[..|s| - 1]) + DigitValue(s[|s| - 1])
  }

  lemma DigitRead(d: nat)
    requires d < 16
    ensures DigitValue(HexDigit(d)) == d
  {
  }

  lemma ParseSnoc(s: string, c: char)
    ensures ParseHex(s + [c]) == 16 * ParseHex(s) + DigitValue(c)
  {
    assert (s + [c])[..|s|] == s;
  }

  lemma {:induction false} ParseToHex(n: nat)
    ensures ParseHex(ToHex(n)) == n
  {
    hide HexDigit, DigitValue, ParseHex;
    DigitRead(n % 16);
    if n >= 16 {
      ParseToHex(n / 16);
      ParseSnoc(ToHex(n / 16), HexDigit(n % 16));
    } else {
      ParseSnoc("", HexDigit(n));
      ParseNothing();
      assert "" + [HexDigit(n)] == [HexDigit(n)];
    }
  }

  lemma ParseNothing()
    ensures ParseHex("") == 0
  {
  }

  lemma {:induction false} LeadingZero(s: string)
    ensures ParseHex(['0'] + s) == ParseHex(s)
  {
    if s == "" {
      assert (['0'] + s)[..0] == "";
    } else {
      LeadingZero(s[..|s| - 1]);
      assert (['0'] + s)[..|s|] == ['0'] + s[..|s| - 1];
    }
  }

  lemma {:induction false} ParsePadded(s: string, width: nat)
    ensures ParseHex(PadStart(s, width)) == ParseHex(s)
    decreases width - |s|
  {
    if |s| < width {
      LeadingZero(s);
      ParsePadded(['0'] + s, width);
    }
  }

  function Power16(k: nat): nat {
    if k == 0 then 1 else 16 * Power16(k - 1)
  }

  predicate Digits(s: string) {
    forall i :: 0 <= i < |s| ==> '0' <= s[i] <= '9' || 'a' <= s[i] <= 'f'
  }

  lemma {:induction false} HexLength(n: nat, k: nat)
    requires k >= 1 && n < Power16(k)
    ensures |ToHex(n)| <= k && Digits(ToHex(n))
  {
    if n >= 16 {
      assert k > 1;
      HexLength(n / 16, k - 1);
    }
  }

  lemma {:induction false} PaddedShape(s: string, width: nat)
    requires |s| <= width && Digits(s)
    ensures |PadStart(s, width)| == width && Digits(PadStart(s, width))
    decreases width - |s|
  {
    if |s| < width {
      PaddedShape(['0'] + s, width);
    }
  }

  lemma SixteenDigits()
    ensures Power16(16) == MODULUS
  {
    assert Power16(4) == 0x1_0000;
    assert Power16(8) == 0x1_0000_0000;
    assert Power16(12) == 0x1_0000_0000_0000;
  }

  /** The printed digest is the prefix and sixteen hexadecimal digits, and they spell the state. */
  lemma RenderShape(hash: Word)
    ensures |Render(hash)| == 24 && Render(hash)[..8] == "fnv1a64:"
    ensures Digits(Render(hash)[8..]) && ParseHex(Render(hash)[8..]) == hash
  {
    SixteenDigits();
    HexLength(hash, 16);
    PaddedShape(ToHex(hash), 16);
    ParsePadded(ToHex(hash), 16);
    ParseToHex(hash);
    hide ToHex, PadStart, Digits, ParseHex;
    assert Render(hash)[8..] == PadStart(ToHex(hash), 16);
  }

  /** The printed digest determines the 64-bit state. */
  lemma RenderInjective(g: Word, h: Word)
    ensures Render(g) == Render(h) <==> g == h
  {
    if Render(g) == Render(h) {
      assert Render(g)[8..] == PadStart(ToHex(g), 16);
      assert Render(h)[8..] == PadStart(ToHex(h), 16);
      ParsePadded(ToHex(g), 16);
      ParsePadded(ToHex(h), 16);
      ParseToHex(g);
      ParseToHex(h);
    }
  }
}

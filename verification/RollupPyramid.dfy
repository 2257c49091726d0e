/** The aligned rollup blocks sealed by scripts/trajectory-projection-eval.ts. */
module RollupPyramid {

  const FANOUT: nat := 10

  datatype Block = Block(tier: nat, start: nat, end: nat, n: nat)

  datatype Meta = Meta(fanout: nat, startIndex: nat, sealedIndex: nat)

  /** `FANOUT ** tier`. */
  function Size(tier: nat): (size: nat)
    ensures size > 0
  {
    if tier == 0 then 1 else FANOUT * Size(tier - 1)
  }

  function BlockAt(tier: nat, k: nat): Block {
    Block(tier, k * Size(tier), (k + 1) * Size(tier), Size(tier))
  }

  /** The first `count` aligned blocks of a tier. */
  function TierPrefix(tier: nat, count: nat): seq<Block> {
    seq(count, k requires 0 <= k < count => BlockAt(tier, k))
  }

  /** All the blocks of a tier that fit into `total` steps. */
  function Tier(total: nat, tier: nat): seq<Block> {
    TierPrefix(tier, total / Size(tier))
  }

  /** The tiers from `tier` up, as long as one block of the tier fits. */
  function Pyramid(total: nat, tier: nat): seq<Block>
    decreases if Size(tier) <= total then total - Size(tier) + 1 else 0
  {
    if Size(tier) > total then [] else Tier(total, tier) + Pyramid(total, tier + 1)
  }

  method SealHollowBlocks(total: nat) returns (meta: Meta, blocks: seq<Block>, count: nat)
    ensures blocks == Pyramid(total, 1) && count == |blocks|
    ensures meta == Meta(10, 0, total / 10 * 10)
  {
    meta := Meta(FANOUT, 0, total / FANOUT * FANOUT);
    blocks, count := [], 0;
    var tier := 1;
    while Size(tier) <= total
      invariant blocks + Pyramid(total, tier) == Pyramid(total, 1) && count == |blocks|
      decreases if Size(tier) <= total then total - Size(tier) + 1 else 0
    {
      var size := Size(tier);
      ghost var below, k := blocks, 0;
      var start := 0;
      while start + size <= total
        invariant start == k * size <= total
        invariant blocks == below + TierPrefix(tier, k) && count == |blocks|
        decreases total - start
      {
        blocks := blocks + [Block(tier, start, start + size, size)];
        count := count + 1;
        NextBlock(k, size);
        assert TierPrefix(tier, k + 1) == TierPrefix(tier, k) + [BlockAt(tier, k)];
        start := start + size;
        k := k + 1;
      }
      LastBlock(total, size, k);
      assert below + Pyramid(total, tier) == blocks + Pyramid(total, tier + 1);
      tier := tier + 1;
    }
    assert blocks + [] == blocks;
  }

  lemma NextBlock(k: nat, size: nat)
    ensures (k + 1) * size == k * size + size
  {
  }

  lemma LastBlock(total: nat, size: nat, k: nat)
    requires size > 0 && k * size <= total < k * size + size
    ensures k == total / size
  {
    var q := total / size;
    Scaled(q + 1, k, size);
    Scaled(k + 1, q, size);
    NextBlock(q, size);
    NextBlock(k, size);
  }

  lemma Scaled(a: nat, b: nat, size: nat)
    requires size > 0
    ensures a <= b <==> a * size <= b * size
  {
    if a > b {
      assert a * size == b * size + (a - b) * size;
      assert (a - b) * size > 0;
    } else {
      assert b * size == a * size + (b - a) * size;
    }
  }

  // --------------------------------------------------- a tier tiles a prefix

  /** A tier starts at 0, has no gap and no overlap, and leaves less than one block uncovered. */
  lemma TierTiles(total: nat, tier: nat)
    ensures var blocks := Tier(total, tier);
            && (blocks == [] <==> total < Size(tier))
            && (blocks != [] ==> blocks[0].start == 0
                                 && blocks[|blocks| - 1].end <= total < blocks[|blocks| - 1].end + Size(tier))
            && (forall k :: 0 <= k < |blocks| - 1 ==> blocks[k].end == blocks[k + 1].start)
            && (forall k :: 0 <= k < |blocks| ==>
                  blocks[k].tier == tier && blocks[k].end - blocks[k].start == blocks[k].n == Size(tier))
  {
    hide Size;
    var size, count := Size(tier), total / Size(tier);
    Edges(total, size);
    forall k: nat
      ensures (k + 1) * size == k * size + size
    {
      NextBlock(k, size);
    }
  }

  lemma Edges(total: nat, size: nat)
    requires size > 0
    ensures total / size * size <= total < total / size * size + size
    ensures total / size == 0 <==> total < size
  {
  }

  /** The metadata's sealed index is where the lowest tier ends. */
  lemma SealedIndexIsCovered(total: nat)
    ensures var blocks := Tier(total, 1);
            (if blocks == [] then 0 else blocks[|blocks| - 1].end) == total / FANOUT * FANOUT
  {
    assert Size(0) == 1 && Size(1) == FANOUT;
  }

  /** Each block one tier up consists of exactly FANOUT consecutive sealed blocks. */
  lemma BlockIsItsChildren(total: nat, tier: nat, k: nat)
    requires k < |Tier(total, tier + 1)|
    ensures var parent, blocks := Tier(total, tier + 1)[k], Tier(total, tier);
            && FANOUT * k + FANOUT <= |blocks|
            && parent.start == blocks[FANOUT * k].start
            && parent.end == blocks[FANOUT * k + FANOUT - 1].end
            && (forall i :: 0 <= i < |blocks| ==>
                  (parent.start <= blocks[i].start && blocks[i].end <= parent.end
                   <==> FANOUT * k <= i < FANOUT * k + FANOUT))
  {
    hide Size;
    var size, first, blocks := Size(tier), FANOUT * k, Tier(total, tier);
    Divided(total, tier);
    FirstChild(total / size, k);
    ParentEdge(tier, k);
    ParentEdge(tier, k + 1);
    assert FANOUT * (k + 1) == first + FANOUT;
    forall i: nat | i < |blocks|
      ensures first * size <= blocks[i].start && blocks[i].end <= (first + FANOUT) * size
              <==> first <= i < first + FANOUT
    {
      Scaled(first, i, size);
      Scaled(i + 1, first + FANOUT, size);
    }
  }

  lemma FirstChild(count: nat, k: nat)
    requires k < count / FANOUT
    ensures FANOUT * k + FANOUT <= count
  {
  }

  lemma ParentEdge(tier: nat, k: nat)
    ensures k * Size(tier + 1) == FANOUT * k * Size(tier)
  {
    assert Size(tier + 1) == FANOUT * Size(tier);
  }

  lemma Divided(total: nat, tier: nat)
    ensures total / Size(tier + 1) == total / Size(tier) / FANOUT
  {
    DivideTwice(total, Size(tier));
  }

  lemma DivideTwice(total: nat, size: nat)
    requires size > 0
    ensures total / (FANOUT * size) == total / size / FANOUT
  {
    var q := total / size;
    var p := q / FANOUT;
    Scaled(p * FANOUT, q, size);
    Scaled(q + 1, p * FANOUT + FANOUT, size);
    NextBlock(q, size);
    assert p * (FANOUT * size) == p * FANOUT * size;
    assert (p * FANOUT + FANOUT) * size == p * (FANOUT * size) + FANOUT * size;
    LastBlock(total, FANOUT * size, p);
  }

  // -------------------------------------------------------- Legendre's identity

  function DigitSum(n: nat): nat {
    if n < FANOUT then n else n % FANOUT + DigitSum(n / FANOUT)
  }

  lemma {:induction false} PyramidSize(total: nat, tier: nat)
    requires tier > 0
    ensures (FANOUT - 1) * |Pyramid(total, tier)| + DigitSum(total / Size(tier - 1)) == total / Size(tier - 1)
    decreases if Size(tier) <= total then total - Size(tier) + 1 else 0
  {
    var m := total / Size(tier - 1);
    Divided(total, tier - 1);
    assert Tier(total, tier) == TierPrefix(tier, m / FANOUT);
    if Size(tier) > total {
      TierTiles(total, tier);
      assert m < FANOUT;
    } else {
      PyramidSize(total, tier + 1);
      TierTiles(total, tier);
      assert m >= FANOUT;
    }
  }

  /** The number of sealed blocks, times FANOUT - 1, is the total minus its digit sum in base FANOUT. */
  lemma SealedCount(total: nat)
    ensures (FANOUT - 1) * |Pyramid(total, 1)| == total - DigitSum(total)
  {
    PyramidSize(total, 1);
    assert Size(0) == 1;
  }
}

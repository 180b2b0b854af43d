/** Mip-chain arithmetic of a texture: how many levels it has, the extents the
    level generator walks through, and the level ranges copy and clear cover. */
module Mip {
  /** Number of binary digits of `n`; for n >= 1 that is floor(log2 n) + 1. */
  function BitLength(n: nat): nat
    decreases n
  {
    if n == 0 then 0 else BitLength(n / 2) + 1
  }

  function Pow2(k: nat): (r: nat)
    ensures r >= 1
  {
    if k == 0 then 1 else 2 * Pow2(k - 1)
  }

  /** The bit length brackets `n` between consecutive powers of two. */
  lemma {:induction false} BitLengthBounds(n: nat)
    requires n >= 1
    ensures BitLength(n) >= 1
    ensures Pow2(BitLength(n) - 1) <= n < Pow2(BitLength(n))
    decreases n
  {
    if n >= 2 {
      BitLengthBounds(n / 2);
    }
  }

  /** ... and it is the only number that does. */
  lemma {:induction false} BitLengthUnique(n: nat, len: nat)
    requires len >= 1 && Pow2(len - 1) <= n < Pow2(len)
    ensures BitLength(n) == len
    decreases len
  {
    if len > 1 {
      BitLengthUnique(n / 2, len - 1);
    }
  }

  function Larger(a: nat, b: nat): (r: nat)
    ensures r >= a && r >= b && (r == a || r == b)
  {
    if a < b then b else a
  }

  /** The level count `createTextureImage` stores: one level for layered or
      mip-less textures, floor(log2(max(w, h))) + 1 otherwise. */
  function MipLevels(width: nat, height: nat, depth: nat, disableMipmap: bool): nat
  {
    if depth > 1 || disableMipmap then 1 else BitLength(Larger(width, height))
  }

  lemma {:induction false} MipLevelsRange(width: nat, height: nat, depth: nat, disableMipmap: bool)
    requires width >= 1 || height >= 1
    ensures MipLevels(width, height, depth, disableMipmap) >= 1
    ensures depth > 1 || disableMipmap ==> MipLevels(width, height, depth, disableMipmap) == 1
    ensures !(depth > 1 || disableMipmap) ==>
              var len := MipLevels(width, height, depth, disableMipmap);
              Pow2(len - 1) <= Larger(width, height) < Pow2(len)
  {
    if !(depth > 1 || disableMipmap) {
      BitLengthBounds(Larger(width, height));
    }
  }

  /** The extent a blit writes: half the source extent, but never below 1. */
  function Halve(e: nat): (r: nat)
    ensures r >= 1 && r <= Larger(e, 1)
    ensures e > 1 ==> 2 * r <= e < 2 * r + 2
  {
    if e > 1 then e / 2 else 1
  }

  /** The generator's running extent after a blit: halved while above 1. */
  function Shrink(e: nat): (r: nat)
    ensures e >= 1 ==> r == Halve(e)
    ensures e == 0 ==> r == 0
  {
    if e > 1 then e / 2 else e
  }

  /** The extent of level `k` of a chain whose level 0 has extent `e`. */
  function Extent(e: nat, k: nat): nat
    decreases k
  {
    if k == 0 then e else Extent(Shrink(e), k - 1)
  }

  lemma {:induction false} ExtentStep(e: nat, k: nat)
    ensures Extent(e, k + 1) == Shrink(Extent(e, k))
    decreases k
  {
    if k > 0 {
      ExtentStep(Shrink(e), k - 1);
    }
  }

  /** No level of a non-empty chain has extent 0. */
  lemma {:induction false} ExtentPositive(e: nat, k: nat)
    requires e >= 1
    ensures Extent(e, k) >= 1
    decreases k
  {
    if k > 0 {
      ExtentPositive(Shrink(e), k - 1);
    }
  }

  /** The larger extent reaches exactly 1 at the last level of the chain. */
  lemma {:induction false} ExtentReachesOne(e: nat, k: nat)
    requires Pow2(k) <= e < Pow2(k + 1)
    ensures Extent(e, k) == 1
    decreases k
  {
    if k > 0 {
      ExtentReachesOne(Shrink(e), k - 1);
    }
  }

  lemma {:induction false} TopLevelExtent(width: nat, height: nat)
    requires width >= 1 || height >= 1
    ensures Extent(Larger(width, height), MipLevels(width, height, 1, false) - 1) == 1
  {
    var m := Larger(width, height);
    assert MipLevels(width, height, 1, false) == BitLength(m);
    BitLengthBounds(m);
    var k := BitLength(m) - 1;
    assert Pow2(k) <= m < Pow2(k + 1);
    ExtentReachesOne(m, k);
  }

  /** One blit of the level generator: level `src` at its extent, scaled into level `dst`. */
  datatype Blit = Blit(src: nat, dst: nat, srcWidth: nat, srcHeight: nat, dstWidth: nat, dstHeight: nat)

  /** What blit `i` of a chain over a `width` by `height` level 0 is. */
  function ChainBlit(width: nat, height: nat, i: nat): Blit
  {
    Blit(i, i + 1, Extent(width, i), Extent(height, i), Halve(Extent(width, i)), Halve(Extent(height, i)))
  }

  /** A texture's level layout. `mipLevels` is set once, when the image is created. */
  class Texture {
    const width: nat
    const height: nat
    const depth: nat
    const disableMipmap: bool
    const mipLevels: nat

    constructor(width: nat, height: nat, depth: nat, disableMipmap: bool)
      ensures this.width == width && this.height == height
      ensures this.depth == depth && this.disableMipmap == disableMipmap
      ensures mipLevels == MipLevels(width, height, depth, disableMipmap)
    {
      this.width := width;
      this.height := height;
      this.depth := depth;
      this.disableMipmap := disableMipmap;
      mipLevels := MipLevels(width, height, depth, disableMipmap);
    }

    /** generateMipmaps: nothing for layered or mip-less textures; otherwise one
        blit per level above 0, each from the level below, the extents halved
        (and clamped at 1) after every blit. */
    method GenerateMipmaps() returns (blits: seq<Blit>)
      ensures depth > 1 || disableMipmap ==> blits == []
      ensures mipLevels == 0 ==> blits == []
      ensures !(depth > 1 || disableMipmap) && mipLevels >= 1 ==> |blits| == mipLevels - 1
      ensures !(depth > 1 || disableMipmap) ==>
                forall i :: 0 <= i < |blits| ==> blits[i] == ChainBlit(width, height, i)
    {
      blits := [];
      if depth > 1 || disableMipmap {
        return;
      }
      var mipWidth := width;
      var mipHeight := height;
      var i := 1;
      while i < mipLevels
        invariant 1 <= i <= Larger(mipLevels, 1)
        invariant mipWidth == Extent(width, i - 1) && mipHeight == Extent(height, i - 1)
        invariant |blits| == i - 1
        invariant forall k :: 0 <= k < |blits| ==> blits[k] == ChainBlit(width, height, k)
      {
        ExtentStep(width, i - 1);
        ExtentStep(height, i - 1);
        blits := blits + [Blit(i - 1, i, mipWidth, mipHeight, if mipWidth > 1 then mipWidth / 2 else 1,
                                                        if mipHeight > 1 then mipHeight / 2 else 1)];
        mipWidth := if mipWidth > 1 then mipWidth / 2 else mipWidth;
        mipHeight := if mipHeight > 1 then mipHeight / 2 else mipHeight;
        i := i + 1;
      }
    }

    /** clear: the level range starts at 0 and spans every level. */
    method ClearRange() returns (base: nat, count: nat)
      ensures base == 0 && count == mipLevels
    {
      base, count := 0, mipLevels;
    }

    /** blitTextureImage: the levels copied are those both textures have. */
    method CopyLevelCount(other: Texture) returns (count: nat)
      ensures count <= other.mipLevels && count <= mipLevels
      ensures count == other.mipLevels || count == mipLevels
    {
      count := if other.mipLevels < mipLevels then other.mipLevels else mipLevels;
    }
  }

  /** Blit `i` goes from level `i` into level `i + 1`, writes the extent level
      `i + 1` has, and reads the extent blit `i - 1` wrote; no extent is 0. */
  lemma {:induction false} ChainBlitsWellFormed(width: nat, height: nat, i: nat)
    requires width >= 1 && height >= 1
    ensures ChainBlit(width, height, i).src == i && ChainBlit(width, height, i).dst == i + 1
    ensures ChainBlit(width, height, i).dstWidth == Extent(width, i + 1) >= 1
    ensures ChainBlit(width, height, i).dstHeight == Extent(height, i + 1) >= 1
    ensures i > 0 ==> ChainBlit(width, height, i).srcWidth == ChainBlit(width, height, i - 1).dstWidth
    ensures i > 0 ==> ChainBlit(width, height, i).srcHeight == ChainBlit(width, height, i - 1).dstHeight
  {
    ExtentStep(width, i);
    ExtentStep(height, i);
    ExtentPositive(width, i);
    ExtentPositive(height, i);
    if i > 0 {
      ExtentStep(width, i - 1);
      ExtentStep(height, i - 1);
      ExtentPositive(width, i - 1);
      ExtentPositive(height, i - 1);
    }
  }
}

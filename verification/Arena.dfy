// The arena allocator of src/arena.c: a chain of blocks, each handing out its bytes from the front.

module Bits {
  function Pow2(k: nat): (n: nat)
    ensures n > 0
  {
    if k == 0 then 1 else 2 * Pow2(k - 1)
  }

  // x & y
  function And(x: nat, y: nat): nat {
    if x == 0 || y == 0 then 0 else 2 * And(x / 2, y / 2) + (if x % 2 == 1 && y % 2 == 1 then 1 else 0)
  }

  // x & ~y
  function AndNot(x: nat, y: nat): nat {
    if x == 0 then 0 else 2 * AndNot(x / 2, y / 2) + (if y % 2 == 0 then x % 2 else 0)
  }

  function Rem(x: nat, m: nat): nat
    requires m > 0
  {
    x % m
  }

  lemma HalfRem(x: nat, m: nat)
    requires m > 0
    ensures Rem(x, 2 * m) == 2 * Rem(x / 2, m) + x % 2
  {
    var q, r := x / 2 / m, x / 2 % m;
    assert x / 2 == q * m + r;
    assert x == 2 * (q * m + r) + x % 2 == (2 * m) * q + (2 * r + x % 2);
    ModUnique(x, 2 * m, q, 2 * r + x % 2);
  }

  lemma MulFar(m: nat, d: int)
    ensures d >= 1 ==> m * d >= m
    ensures d <= -1 ==> m * d <= -(m as int)
  {
  }

  lemma ModUnique(x: nat, m: nat, q: nat, r: nat)
    requires r < m && x == m * q + r
    ensures x % m == r && x / m == q
  {
    var d := q - x / m;
    assert m * d == x % m - r;
    MulFar(m, d);
  }

  lemma RemSmall(m: nat, x: nat)
    requires m > 0
    ensures Rem(0, m) == 0 && Rem(x, 1) == 0
  {
  }

  lemma MaskStep(x: nat, m: nat)
    requires m > 0
    ensures And(x, 2 * m - 1) == 2 * And(x / 2, m - 1) + x % 2
    ensures AndNot(x, 2 * m - 1) == 2 * AndNot(x / 2, m - 1)
  {
    assert (2 * m - 1) / 2 == m - 1 && (2 * m - 1) % 2 == 1;
  }

  // Masking with 2^k - 1 keeps the low bits: the remainder modulo 2^k.
  lemma {:induction false} AndMask(x: nat, k: nat)
    ensures And(x, Pow2(k) - 1) == Rem(x, Pow2(k))
    decreases k
  {
    hide Rem;
    RemSmall(1, x);
    if k > 0 {
      AndMask(x / 2, k - 1);
      HalfRem(x, Pow2(k - 1));
      MaskStep(x, Pow2(k - 1));
    }
  }

  lemma AndNotZero(x: nat)
    ensures AndNot(x, 0) == x
  {
    if x > 0 {
      AndNotZero(x / 2);
    }
  }

  // Masking with ~(2^k - 1) drops the low bits.
  lemma {:induction false} AndNotMask(x: nat, k: nat)
    ensures AndNot(x, Pow2(k) - 1) == x - Rem(x, Pow2(k))
    decreases k
  {
    hide Rem, AndNot;
    RemSmall(1, x);
    AndNotZero(x);
    if k > 0 {
      AndNotMask(x / 2, k - 1);
      HalfRem(x, Pow2(k - 1));
      MaskStep(x, Pow2(k - 1));
    }
  }
}

module Arenas {
  import opened Bits

  ghost predicate IsPowerOfTwo(n: nat) {
    exists k: nat :: n == Pow2(k)
  }

  // Round a size up to an alignment.
  function AlignSize(size: nat, alignment: nat): nat
    requires alignment > 0
  {
    AndNot(size + alignment - 1, alignment - 1)
  }

  // The rounded size is the least multiple of the alignment that is not below the size.
  lemma AlignedUp(size: nat, alignment: nat)
    requires IsPowerOfTwo(alignment)
    ensures var r := AlignSize(size, alignment);
      size <= r < size + alignment && Aligned(r, alignment)
  {
    var k: nat :| alignment == Pow2(k);
    var x := size + alignment - 1;
    AndNotMask(x, k);
    Multiple(x, alignment);
  }

  lemma Multiple(x: nat, m: nat)
    requires m > 0
    ensures (x - x % m) % m == 0 && x % m < m
  {
    assert x == m * (x / m) + x % m;
    ModUnique(x - x % m, m, x / m, 0);
  }

  ghost predicate Aligned(x: nat, m: nat) {
    m > 0 && x % m == 0
  }

  lemma SumAligned(a: nat, b: nat, m: nat)
    requires Aligned(a, m) && Aligned(b, m)
    ensures Aligned(a + b, m)
  {
    assert a == m * (a / m) && b == m * (b / m);
    assert a + b == m * (a / m + b / m);
    ModUnique(a + b, m, a / m + b / m, 0);
  }

  lemma ZeroAligned(m: nat)
    requires m > 0
    ensures Aligned(0, m)
  {
  }

  class Block {
    const size: nat
    var offset: nat
    var next: Block?

    constructor (size: nat)
      ensures this.size == size && offset == 0 && next == null
    {
      this.size := size;
      offset := 0;
      next := null;
    }
  }

  // Bytes that were handed out: those of a block from start up to end.
  datatype Region = Region(block: Block, start: nat, end: nat)

  // Regions of different blocks are different memory.
  ghost predicate Disjoint(a: Region, b: Region) {
    a.block != b.block || a.end <= b.start || b.end <= a.start
  }

  ghost predicate Apart(regions: seq<Region>) {
    forall i, j | 0 <= i < j < |regions| :: Disjoint(regions[i], regions[j])
  }

  lemma StillApart(regions: seq<Region>, r: Region)
    requires Apart(regions) && forall i | 0 <= i < |regions| :: Disjoint(regions[i], r)
    ensures Apart(regions + [r])
  {
  }

  ghost function SumSizes(chain: seq<Block>): nat {
    if chain == [] then 0 else SumSizes(chain[..|chain| - 1]) + chain[|chain| - 1].size
  }

  ghost function Oversized(chain: seq<Block>, limit: nat): nat {
    if chain == [] then 0 else Oversized(chain[..|chain| - 1], limit) + if chain[|chain| - 1].size > limit then 1 else 0
  }

  lemma OneMoreBlock(chain: seq<Block>, b: Block, limit: nat)
    requires chain != []
    ensures SumSizes((chain + [b])[1..]) == SumSizes(chain[1..]) + b.size
    ensures Oversized((chain + [b])[1..], limit) == Oversized(chain[1..], limit) + if b.size > limit then 1 else 0
  {
    assert (chain + [b])[1..] == chain[1..] + [b];
    assert (chain[1..] + [b])[..|chain| - 1] == chain[1..];
  }

  // Provision memory within a block, or in a new one that is linked behind it.
  method BlockAlloc(block: Block, size: nat, alignment: nat, fallback: nat) returns (r: Region)
    requires alignment > 0 && block.next == null
    modifies block
    ensures var n := AlignSize(size, alignment);
      if old(block.offset) + n <= block.size then
        r == Region(block, old(block.offset), old(block.offset) + n) && block.offset == r.end && block.next == null
      else
        && fresh(r.block) && r == Region(r.block, 0, n) && block.next == r.block && block.offset == old(block.offset)
        && r.block.size == (if n < fallback then fallback else n) && r.block.offset == n && r.block.next == null
  {
    var n := AlignSize(size, alignment);
    var target := block;
    if block.offset + n > block.size {
      target := new Block(if n < fallback then fallback else n);
      block.next := target;
    }
    r := Region(target, target.offset, target.offset + n);
    target.offset := target.offset + n;
  }

  class Arena {
    const blockSize: nat
    const alignment: nat
    var first: Block?
    var current: Block?
    var totalBytes: nat
    var totalBlocks: nat
    var totalBlockSize: nat
    var totalOversized: nat
    var totalAllocations: nat
    // Every block, in the order of the links, and everything that was handed out.
    ghost var chain: seq<Block>
    ghost var regions: seq<Region>
    ghost var requested: nat

    ghost predicate Linked()
      reads `first, `current, `chain, chain
    {
      && (forall i | 0 <= i < |chain| - 1 :: chain[i] != chain[|chain| - 1])
      && (forall i | 0 <= i < |chain| - 1 :: chain[i].next == chain[i + 1])
      && (chain != [] ==> chain[|chain| - 1].next == null)
      && first == (if chain == [] then null else chain[0])
      && current == (if chain == [] then null else chain[|chain| - 1])
    }

    ghost predicate InBounds(r: Region)
      reads `chain, r.block
    {
      r.block in chain && r.start <= r.end <= r.block.offset && Aligned(r.start, alignment)
    }

    ghost predicate Valid()
      reads `first, `current, `chain, `regions, chain, set r | r in regions :: r.block
    {
      && IsPowerOfTwo(blockSize) && IsPowerOfTwo(alignment) && blockSize >= alignment > 0
      && Linked()
      && (forall b | b in chain :: b.offset <= b.size && Aligned(b.offset, alignment))
      && (forall i | 0 <= i < |regions| :: InBounds(regions[i]))
      && Apart(regions)
    }

    // The counters.  The size of the first block is not counted.
    ghost predicate Counted()
      reads this, chain
    {
      && totalAllocations == |regions| && totalBytes == requested && totalBlocks == |chain|
      && totalBlockSize == SumSizes(if chain == [] then [] else chain[1..])
      && totalOversized == Oversized(if chain == [] then [] else chain[1..], blockSize)
    }

    constructor (blockSize: nat, alignment: nat)
      requires IsPowerOfTwo(blockSize) && IsPowerOfTwo(alignment) && blockSize >= alignment > 0
      ensures Valid() && Counted() && regions == [] && chain == []
      ensures this.blockSize == blockSize && this.alignment == alignment
    {
      this.blockSize, this.alignment := blockSize, alignment;
      first, current := null, null;
      totalBytes, totalBlocks, totalBlockSize, totalOversized, totalAllocations := 0, 0, 0, 0, 0;
      chain, regions, requested := [], [], 0;
    }

    // An aligned region of the requested size, disjoint from everything handed out before.  It lies in
    // the last block of the chain, which is the current one; no other block changes.
    method Allocate(size: nat) returns (r: Region)
      requires Valid() && Counted()
      modifies this, chain
      ensures Valid() && Counted() && regions == old(regions) + [r] && requested == old(requested) + size
      ensures r.end == r.start + AlignSize(size, alignment) && r.block == current
      ensures old(chain) <= chain
      ensures forall b | b in old(chain) && b != old(current) :: b.offset == old(b.offset)
    {
      hide SumSizes, Oversized, IsPowerOfTwo, AlignSize, Aligned, Apart, Disjoint;
      if first == null {
        FirstBlock();
      }
      ghost var before := chain;
      var grown;
      r, grown := Provision(size);
      Count(size, grown, before);
    }

    method Count(size: nat, grown: bool, ghost before: seq<Block>)
      requires current != null && before != [] && chain == if grown then before + [current] else before
      requires totalAllocations + 1 == |regions| && totalBytes == requested && totalBlocks == |before|
      requires totalBlockSize == SumSizes(before[1..]) && totalOversized == Oversized(before[1..], blockSize)
      modifies `totalAllocations, `totalBytes, `requested, `totalBlocks, `totalBlockSize, `totalOversized
      ensures Counted() && requested == old(requested) + size
    {
      OneMoreBlock(before, current, blockSize);
      totalAllocations := totalAllocations + 1;
      totalBytes := totalBytes + size;
      requested := requested + size;
      if grown {
        totalBlocks := totalBlocks + 1;
        totalBlockSize := totalBlockSize + current.size;
        if current.size > blockSize {
          totalOversized := totalOversized + 1;
        }
      }
    }

    // The region itself, and the step to a new block if there was no room.
    method Provision(size: nat) returns (r: Region, grown: bool)
      requires Valid() && first != null
      modifies this`current, this`chain, this`regions, current
      ensures Valid() && first != null && regions == old(regions) + [r]
      ensures r.end == r.start + AlignSize(size, alignment) && r.block == current
      ensures chain == if grown then old(chain) + [current] else old(chain)
      ensures forall b | b in old(chain) && b != old(current) :: b.offset == old(b.offset)
    {
      hide AlignSize, IsPowerOfTwo, Aligned;
      AlignedUp(size, alignment);
      ZeroAligned(alignment);
      ghost var n := |chain| - 1;
      r := BlockAlloc(current, size, alignment, blockSize);
      SumAligned(r.start, AlignSize(size, alignment), alignment);
      grown := current.next != null;
      if grown {
        current := current.next;
        chain := chain + [current];
      }
      assert Linked();
      assert forall i | 0 <= i < |regions| :: InBounds(regions[i]);
      assert forall i | 0 <= i < |regions| :: Disjoint(regions[i], r);
      StillApart(regions, r);
      hide Apart, Disjoint;
      regions := regions + [r];
    }

    method FirstBlock()
      requires Valid() && Counted() && first == null
      modifies this`first, this`current, this`chain, this`totalBlocks
      ensures Valid() && Counted() && first != null && fresh(first) && chain == [first]
    {
      assert regions != [] ==> InBounds(regions[0]);
      assert totalBlocks == 0 && totalAllocations == 0;
      var block := new Block(blockSize);
      first, current := block, block;
      totalBlocks := totalBlocks + 1;
      chain := [block];
    }
  }
}

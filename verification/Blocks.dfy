/** Block sizes and the layout of an arena. */
module Blocks {
  import opened Basics
  import opened Maps = Bitmap
  import opened Palloc

  /** `sizeof(struct arena)` and `sizeof(struct block)` on the 32-bit machine. */
  const HEADER: nat := 12
  const LINKS: nat := 8
  const DESCS: nat := 8
  const WORD: nat := 0x1_0000_0000

  function BlockSize(d: nat): nat {
    if d == 0 then 16 else if d == 1 then 32 else if d == 2 then 64 else if d == 3 then 128
    else if d == 4 then 256 else if d == 5 then 512 else if d == 6 then 1024 else 2048
  }

  function BlocksPerArena(d: nat): nat {
    (PGSIZE - HEADER) / BlockSize(d)
  }

  /** `arena_to_block`. */
  function BlockAddr(p: nat, d: nat, i: nat): nat {
    p * PGSIZE + HEADER + i * BlockSize(d)
  }

  /** Which block of its arena starts at `a`. */
  function BlockIdx(a: nat, d: nat): nat {
    if a % PGSIZE < HEADER then 0 else (a % PGSIZE - HEADER) / BlockSize(d)
  }

  /** The smallest descriptor whose blocks are large enough, or `DESCS`. */
  function DescFor(size: nat): (d: nat)
    ensures d <= DESCS
    ensures d < DESCS ==> size <= BlockSize(d) && (d > 0 ==> size > BlockSize(d - 1))
    ensures d == DESCS <==> size > PGSIZE / 2
  {
    if size <= 16 then 0 else if size <= 32 then 1 else if size <= 64 then 2 else if size <= 128 then 3
    else if size <= 256 then 4 else if size <= 512 then 5 else if size <= 1024 then 6 else if size <= 2048 then 7 else 8
  }

  /** The pages of a big block, in the 32-bit arithmetic of the program. */
  function BigPages(size: nat): nat {
    ((size + HEADER) % WORD + PGSIZE - 1) % WORD / PGSIZE
  }

  /** The request and its header are at most the address space, so that the page count is right, or 0 at the very top. */
  predicate Fits(size: nat) {
    size + HEADER <= WORD
  }

  /** The bytes that a request can count on: a larger one wraps around and gets a single page. */
  function Granted(size: nat): (n: nat)
    ensures n <= size
  {
    if Fits(size) then size else PGSIZE - HEADER
  }

  /** `n` is the least number of pages that hold the request and its header. */
  predicate PagesFor(n: nat, size: nat) {
    (n - 1) * PGSIZE < size + HEADER <= n * PGSIZE
  }

  /** The page count is the least that holds the request exactly up to the last page of the address space; there it is
      0, and past the end of the address space it is 1. */
  lemma BigPagesAreLeastIff(size: nat)
    requires 0 < size < WORD
    ensures PagesFor(BigPages(size), size) <==> size + HEADER <= WORD - PGSIZE
    ensures BigPages(size) == 0 <==> WORD - PGSIZE < size + HEADER <= WORD
    ensures size + HEADER > WORD ==> BigPages(size) == 1
  {
  }

  lemma PagesForOne(m: nat, n: nat, size: nat)
    requires PagesFor(m, size) && PagesFor(n, size)
    ensures m == n
  {
  }

  /** No pages or enough pages for the request are computed exactly when it fits. */
  lemma BigPagesSufficeIff(size: nat)
    requires 0 < size < WORD
    ensures (BigPages(size) == 0 || BigPages(size) * PGSIZE >= size + HEADER) <==> Fits(size)
    ensures BigPages(size) == 0 || BigPages(size) * PGSIZE >= Granted(size) + HEADER
    ensures !Fits(size) ==> BigPages(size) == 1
    ensures BigPages(size) * PGSIZE <= WORD
  {
  }

  // ---------------------------------------------------------------- calloc

  /** `calloc`'s product, in 32-bit arithmetic, and its overflow test. */
  function CallocSize(a: nat, b: nat): nat {
    (a * b) % WORD
  }

  predicate CallocAccepts(a: nat, b: nat) {
    !(CallocSize(a, b) < a || CallocSize(a, b) < b)
  }

  /** `calloc` refuses or computes the right size exactly when the product fits or wraps to less than a factor. */
  lemma CallocIsExactIff(a: nat, b: nat)
    requires a < WORD && b < WORD
    ensures (CallocAccepts(a, b) ==> CallocSize(a, b) == a * b) <==>
            a * b < WORD || CallocSize(a, b) < a || CallocSize(a, b) < b
  {
  }

  lemma CallocMissesAWrap()
    ensures CallocAccepts(0x18000, 0x18000) && CallocSize(0x18000, 0x18000) == 0x4000_0000 != 0x18000 * 0x18000
  {
  }

  // ---------------------------------------------------------------- layout

  /** The block sizes double from 16 to 2048, and an arena has as many blocks as its page takes after the header. */
  lemma SmallBlocks(d: nat)
    requires d < DESCS
    ensures BlockSize(0) == 16 <= BlockSize(d) <= 2048 == BlockSize(DESCS - 1) && 1 <= BlocksPerArena(d) <= 255
    ensures HEADER + BlocksPerArena(d) * BlockSize(d) <= PGSIZE < HEADER + (BlocksPerArena(d) + 1) * BlockSize(d)
    ensures d > 0 ==> BlockSize(d) == 2 * BlockSize(d - 1)
  {
  }

  lemma BlockOffset(d: nat, i: nat)
    requires d < DESCS && i < BlocksPerArena(d)
    ensures HEADER <= HEADER + i * BlockSize(d) && HEADER + i * BlockSize(d) + BlockSize(d) <= PGSIZE
    ensures (i * BlockSize(d)) / BlockSize(d) == i && (i * BlockSize(d)) % BlockSize(d) == 0
  {
    var s := BlockSize(d);
    if s == 16 {} else if s == 32 {} else if s == 64 {} else if s == 128 {} else if s == 256 {} else if s == 512 {} else if s == 1024 {}
  }

  /** Where a block lies in its page; the alignment that `block_to_arena` checks. */
  lemma BlockFacts(p: nat, d: nat, i: nat)
    requires d < DESCS && i < BlocksPerArena(d)
    ensures var a := BlockAddr(p, d, i);
            && a / PGSIZE == p && BlockIdx(a, d) == i && a % PGSIZE >= HEADER && (a % PGSIZE - HEADER) % BlockSize(d) == 0
            && p * PGSIZE + HEADER <= a && a + BlockSize(d) <= p * PGSIZE + PGSIZE
  {
    BlockOffset(d, i);
    PageOf(p, HEADER + i * BlockSize(d));
  }

  lemma PageOf(p: nat, off: nat)
    requires off < PGSIZE
    ensures (p * PGSIZE + off) / PGSIZE == p && (p * PGSIZE + off) % PGSIZE == off
  {
  }

  lemma BlocksApart(p: nat, d: nat, i: nat, j: nat)
    requires d < DESCS && i < j
    ensures BlockAddr(p, d, i) + BlockSize(d) <= BlockAddr(p, d, j)
  {
    var s := BlockSize(d);
    if s == 16 {} else if s == 32 {} else if s == 64 {} else if s == 128 {} else if s == 256 {} else if s == 512 {} else if s == 1024 {}
  }

  /** The blocks of a new arena in the order in which they go on the free list. */
  function ArenaBlocks(p: nat, d: nat, n: nat): seq<nat> {
    seq(n, i requires 0 <= i < n => BlockAddr(p, d, i))
  }

  // ---------------------------------------------------------------- malloc_init

  datatype Desc = Desc(blockSize: nat, blocksPerArena: nat)

  /** `malloc_init`: the descriptors fit into their array of ten. */
  method InitDescs() returns (descs: seq<Desc>)
    ensures |descs| == DESCS <= 10
    ensures forall d :: 0 <= d < DESCS ==> descs[d] == Desc(BlockSize(d), BlocksPerArena(d))
  {
    descs := [];
    var blockSize := 16;
    while blockSize <= PGSIZE / 2
      invariant |descs| <= DESCS
      invariant blockSize == if |descs| < DESCS then BlockSize(|descs|) else 4096
      invariant forall d :: 0 <= d < |descs| ==> descs[d] == Desc(BlockSize(d), BlocksPerArena(d))
      decreases DESCS - |descs|
    {
      descs := descs + [Desc(blockSize, (PGSIZE - HEADER) / blockSize)];
      blockSize := blockSize * 2;
    }
  }

  // ---------------------------------------------------------------- counting blocks

  function Below(n: nat): (s: set<nat>)
    ensures forall i: nat :: i in s <==> i < n
    ensures |s| == n
  {
    if n == 0 then {} else Below(n - 1) + {n - 1}
  }

  lemma FullSet(s: set<nat>, n: nat)
    requires s <= Below(n)
    ensures |s| <= n && (|s| == n <==> s == Below(n))
  {
    var rest := Below(n) - s;
    assert Below(n) == s + rest;
    assert |Below(n)| == |s| + |rest|;
  }
}

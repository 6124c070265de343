/** The heap as a value, and what `malloc`, `free` and `realloc` do to it.

    Addresses count from the page-aligned base of the pool.  The headers of the arenas are kept in `arenas`, by page;
    the bytes in which headers and list links really lie may change in any operation, to anything: `noise` says to
    what. */
module Heaps {
  import opened Basics
  import opened Maps = Bitmap
  import opened Palloc
  import opened Blocks

  /** `desc` is null for a big block; `free_cnt` counts free blocks, or the pages of a big block. */
  datatype Arena = Small(d: nat, freeCnt: nat) | Big(pages: nat)

  /** `lists` are the free lists of the descriptors, `live` the history of what was asked for and not yet freed. */
  datatype Heap = Heap(pool: PoolState, arenas: map<nat, Arena>, lists: seq<seq<nat>>, live: map<nat, nat>)

  function PageCnt(a: Arena): nat {
    match a
    case Small(_, _) => 1
    case Big(n) => n
  }

  function ListOf(lists: seq<seq<nat>>, d: nat): seq<nat> {
    if d < |lists| then lists[d] else []
  }

  // ---------------------------------------------------------------- bytes that the allocator owns

  predicate InHeader(arenas: map<nat, Arena>, i: nat) {
    i / PGSIZE in arenas && i % PGSIZE < HEADER
  }

  predicate InLinks(lists: seq<seq<nat>>, i: nat) {
    exists d | 0 <= d < |lists| :: exists a | a in lists[d] :: a <= i < a + LINKS
  }

  function Scribble(bytes: seq<bv8>, noise: seq<bv8>, arenas: map<nat, Arena>, lists: seq<seq<nat>>): (r: seq<bv8>)
    ensures |r| == |bytes|
    ensures forall i :: 0 <= i < |bytes| ==> r[i] == bytes[i] || InHeader(arenas, i) || InLinks(lists, i)
  {
    seq(|bytes|, i requires 0 <= i < |bytes| =>
      if i < |noise| && (InHeader(arenas, i) || InLinks(lists, i)) then noise[i] else bytes[i])
  }

  function Scribbled(h: Heap, noise: seq<bv8>): Heap {
    h.(pool := h.pool.(bytes := Scribble(h.pool.bytes, noise, h.arenas, h.lists)))
  }

  // ---------------------------------------------------------------- malloc

  /** A block of `n` pages. */
  function MallocBig(h: Heap, n: nat, size: nat, noise: seq<bv8>): (Heap, Option<nat>)
    requires PoolOk(h.pool)
  {
    match GetPages(h.pool, false, n)
    case (q, None) => (h, None)
    case (q, Some(p)) =>
      var a := p * PGSIZE + HEADER;
      (Scribbled(h.(pool := q, arenas := h.arenas[p := Big(n)], live := h.live[a := size]), noise), Some(a))
  }

  /** A new page for a descriptor whose list is empty. */
  function NewArena(h: Heap, d: nat): Option<Heap>
    requires PoolOk(h.pool) && d < |h.lists|
  {
    match GetPages(h.pool, false, 1)
    case (q, None) => None
    case (q, Some(p)) =>
      Some(h.(pool := q, arenas := h.arenas[p := Small(d, BlocksPerArena(d))],
              lists := h.lists[d := ListOf(h.lists, d) + ArenaBlocks(p, d, BlocksPerArena(d))]))
  }

  function Counted(arenas: map<nat, Arena>, p: nat, delta: int): map<nat, Arena> {
    if p in arenas && arenas[p].Small? && arenas[p].freeCnt + delta >= 0
    then arenas[p := arenas[p].(freeCnt := arenas[p].freeCnt + delta)] else arenas
  }

  /** Pop the first block of the list. */
  function TakeBlock(h: Heap, d: nat, size: nat): (Heap, nat)
    requires d < |h.lists| && h.lists[d] != []
  {
    var a := h.lists[d][0];
    (h.(arenas := Counted(h.arenas, a / PGSIZE, -1), lists := h.lists[d := h.lists[d][1..]], live := h.live[a := size]), a)
  }

  function MallocSmall(h: Heap, d: nat, size: nat, noise: seq<bv8>): (Heap, Option<nat>)
    requires PoolOk(h.pool) && d < |h.lists|
  {
    var g := if h.lists[d] == [] then NewArena(h, d) else Some(h);
    if g == None || g.value.lists[d] == [] then (h, None)
    else var (r, a) := TakeBlock(Scribbled(g.value, noise), d, size); (r, Some(a))
  }

  function Malloc(h: Heap, size: nat, noise: seq<bv8>): (Heap, Option<nat>)
    requires PoolOk(h.pool) && |h.lists| == DESCS
  {
    if size == 0 then (h, None)
    else if DescFor(size) == DESCS then MallocBig(h, BigPages(size), Granted(size), noise)
    else MallocSmall(h, DescFor(size), size, noise)
  }

  // ---------------------------------------------------------------- free

  /** The block is filled with 0xcc and pushed on its list. */
  function GiveBack(h: Heap, a: nat, d: nat, noise: seq<bv8>): Heap
    requires d < |h.lists| && a + BlockSize(d) <= |h.pool.bytes|
  {
    var g := h.(pool := h.pool.(bytes := Fill(h.pool.bytes, a, BlockSize(d), 0xcc)), live := h.live - {a});
    Scribbled(g.(arenas := Counted(h.arenas, a / PGSIZE, 1), lists := h.lists[d := [a] + h.lists[d]]), noise)
  }

  /** `list_remove`. */
  function Without(s: seq<nat>, a: nat): seq<nat> {
    if s == [] then [] else if s[0] == a then s[1..] else [s[0]] + Without(s[1..], a)
  }

  function WithoutBlocks(s: seq<nat>, p: nat, d: nat, n: nat): seq<nat> {
    if n == 0 then s else Without(WithoutBlocks(s, p, d, n - 1), BlockAddr(p, d, n - 1))
  }

  /** An arena without live blocks leaves the list and its page. */
  function TearDown(h: Heap, p: nat, d: nat): Heap
    requires PoolOk(h.pool) && p < |h.pool.used| && d < |h.lists|
  {
    h.(pool := FreePages(h.pool, p, 1), arenas := h.arenas - {p},
       lists := h.lists[d := WithoutBlocks(h.lists[d], p, d, BlocksPerArena(d))])
  }

  function FreeBig(h: Heap, a: nat, p: nat, n: nat): Heap
    requires PoolOk(h.pool) && p + n <= |h.pool.used|
  {
    h.(pool := FreePages(h.pool, p, n), arenas := h.arenas - {p}, live := h.live - {a})
  }

  function FreeSmall(h: Heap, a: nat, d: nat, noise: seq<bv8>): Heap
    requires PoolOk(h.pool) && d < |h.lists| && a + BlockSize(d) <= |h.pool.bytes|
  {
    var p := a / PGSIZE;
    var g := GiveBack(h, a, d, noise);
    if p in g.arenas && p < |g.pool.used| && g.arenas[p].Small? && g.arenas[p].freeCnt >= BlocksPerArena(d)
    then TearDown(g, p, d) else g
  }

  ghost predicate MayFree(h: Heap, a: nat) {
    && PoolOk(h.pool) && |h.lists| == DESCS && a / PGSIZE in h.arenas
    && match h.arenas[a / PGSIZE]
       case Small(d, _) => d < DESCS && a + BlockSize(d) <= |h.pool.bytes|
       case Big(n) => a / PGSIZE + n <= |h.pool.used|
  }

  function Free(h: Heap, a: nat, noise: seq<bv8>): Heap
    requires MayFree(h, a)
  {
    match h.arenas[a / PGSIZE]
    case Small(d, _) => FreeSmall(h, a, d, noise)
    case Big(n) => FreeBig(h, a, a / PGSIZE, n)
  }

  // ---------------------------------------------------------------- realloc

  /** `block_size`. */
  function Capacity(h: Heap, a: nat): int
    requires a / PGSIZE in h.arenas
  {
    match h.arenas[a / PGSIZE]
    case Small(d, _) => BlockSize(d)
    case Big(n) => PGSIZE * n - a % PGSIZE
  }

  /** `memcpy`. */
  function Copy(bytes: seq<bv8>, to: nat, from: nat, n: nat): (r: seq<bv8>)
    requires to + n <= |bytes| && from + n <= |bytes|
    ensures |r| == |bytes| && forall i :: 0 <= i < |bytes| ==> r[i] == if to <= i < to + n then bytes[from + (i - to)] else bytes[i]
  {
    bytes[..to] + bytes[from..from + n] + bytes[to + n..]
  }

  function Moved(h: Heap, b: nat, a: nat, n: nat): Heap
    requires a + n <= |h.pool.bytes| && b + n <= |h.pool.bytes|
  {
    h.(pool := h.pool.(bytes := Copy(h.pool.bytes, b, a, n)))
  }

  // ---------------------------------------------------------------- the invariant

  ghost function Extents(arenas: map<nat, Arena>): set<Extent> {
    set p | p in arenas :: Extent(p, PageCnt(arenas[p]))
  }

  /** The indices of the blocks of arena `p` that are on the free list. */
  ghost function FreeIdx(list: seq<nat>, p: nat, d: nat): set<nat> {
    set i | i in Below(BlocksPerArena(d)) && BlockAddr(p, d, i) in list
  }

  ghost predicate SmallOk(list: seq<nat>, live: map<nat, nat>, p: nat, d: nat, freeCnt: nat) {
    && d < DESCS && freeCnt == |FreeIdx(list, p, d)|
    && forall i: nat :: i < BlocksPerArena(d) ==> (BlockAddr(p, d, i) in live <==> BlockAddr(p, d, i) !in list)
  }

  ghost predicate ArenaOk(h: Heap, p: nat)
    requires p in h.arenas
  {
    match h.arenas[p]
    case Small(d, freeCnt) => SmallOk(ListOf(h.lists, d), h.live, p, d, freeCnt)
    case Big(n) => p * PGSIZE + HEADER in h.live
  }

  /** `a` is the address of a block of a small arena of descriptor `d`. */
  ghost predicate IsBlock(arenas: map<nat, Arena>, a: nat, d: nat) {
    && a / PGSIZE in arenas && arenas[a / PGSIZE].Small? && arenas[a / PGSIZE].d == d && d < DESCS
    && BlockIdx(a, d) < BlocksPerArena(d) && a == BlockAddr(a / PGSIZE, d, BlockIdx(a, d))
  }

  ghost predicate ListOk(arenas: map<nat, Arena>, list: seq<nat>, d: nat) {
    NoDup(list) && forall a :: a in list ==> IsBlock(arenas, a, d)
  }

  ghost predicate LiveOk(arenas: map<nat, Arena>, a: nat, size: nat) {
    && a / PGSIZE in arenas
    && match arenas[a / PGSIZE]
       case Small(d, _) => IsBlock(arenas, a, d) && 0 < size <= BlockSize(d)
       case Big(n) => a == a / PGSIZE * PGSIZE + HEADER && 0 < size && size + HEADER <= n * PGSIZE
  }

  /** Holds also in the middle of an operation. */
  ghost predicate Core(h: Heap) {
    && PoolOk(h.pool) && HeldOk(h.pool.used, Extents(h.arenas)) && |h.lists| == DESCS
    && (forall p :: p in h.arenas ==> ArenaOk(h, p))
    && (forall d :: 0 <= d < DESCS ==> ListOk(h.arenas, h.lists[d], d))
    && (forall a :: a in h.live ==> LiveOk(h.arenas, a, h.live[a]))
  }

  /** No arena is kept without a live block. */
  ghost predicate Tight(arenas: map<nat, Arena>) {
    forall p :: p in arenas ==> match arenas[p]
                                case Small(d, freeCnt) => freeCnt < BlocksPerArena(d)
                                case Big(_) => true
  }

  ghost predicate HeapOk(h: Heap) {
    Core(h) && Tight(h.arenas)
  }
}

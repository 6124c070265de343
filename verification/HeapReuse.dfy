/** Where `malloc` takes its blocks from, and what `free` leaves in them. */
module HeapReuse {
  import opened Basics
  import opened Maps = Bitmap
  import opened Palloc
  import opened Blocks
  import opened Heaps
  import opened HeapInv
  import opened HeapSteps
  import opened HeapRuns

  // ---------------------------------------------------------------- which block

  /** `p` is where the first run of `n` free pages starts. */
  ghost predicate FirstRun(used: seq<bool>, p: nat, n: nat) {
    IsFirstRun(used, 0, n, false, Some(p))
  }

  lemma FirstRunIsTaken(pool: PoolState, p: nat, n: nat)
    requires PoolOk(pool) && n > 0 && FirstRun(pool.used, p, n)
    ensures GetPages(pool, false, n).1 == Some(p)
  {
    FindRunIsFirst(pool.used, 0, n);
    FirstRunIsUnique(pool.used, 0, n, false, FindRun(pool.used, 0, n), Some(p));
    hide FindRun, IsFirstRun;
  }

  /** A small request gets the first block of its list; on an empty list the first block of the first free page. */
  lemma SmallComesFrom(h: Heap, size: nat, noise: seq<bv8>)
    requires HeapOk(h) && 0 < size <= PGSIZE / 2
    ensures PoolOk(h.pool) && |h.lists| == DESCS
    ensures var b, list := Malloc(h, size, noise).1, h.lists[DescFor(size)];
            && (list != [] ==> b == Some(list[0]))
            && (list == [] ==> forall p: nat :: FirstRun(h.pool.used, p, 1) ==> b == Some(p * PGSIZE + HEADER))
  {
    HeapIsCore(h);
    var d := DescFor(size);
    if h.lists[d] != [] {
      HeadIsTaken(h, d, size, noise);
      hide *;
    } else {
      forall p: nat | FirstRun(h.pool.used, p, 1) ensures Malloc(h, size, noise).1 == Some(p * PGSIZE + HEADER) {
        ArenaIsOpened(h, d, size, noise, p);
      }
      hide *;
    }
  }

  lemma HeadIsTaken(h: Heap, d: nat, size: nat, noise: seq<bv8>)
    requires PoolOk(h.pool) && d < |h.lists| && h.lists[d] != []
    ensures MallocSmall(h, d, size, noise).1 == Some(h.lists[d][0])
  {
    hide Scribble;
  }

  lemma ArenaIsOpened(h: Heap, d: nat, size: nat, noise: seq<bv8>, p: nat)
    requires PoolOk(h.pool) && d < DESCS == |h.lists| && h.lists[d] == [] && FirstRun(h.pool.used, p, 1)
    ensures MallocSmall(h, d, size, noise).1 == Some(p * PGSIZE + HEADER)
  {
    FirstRunIsTaken(h.pool, p, 1);
    NewArenaIs(h, d);
    var q := GetPages(h.pool, false, 1).0;
    FirstOfNew(h, q, p, d);
    hide GetPages, NewArena, WithArena, Scribble, FirstRun;
  }

  lemma FirstOfNew(h: Heap, q: PoolState, p: nat, d: nat)
    requires d < DESCS == |h.lists|
    ensures var g := WithArena(h, q, p, d); d < |g.lists| && g.lists[d] != [] && g.lists[d][0] == p * PGSIZE + HEADER
  {
    SmallBlocks(d);
    hide BlocksPerArena;
    var s := ArenaBlocks(p, d, BlocksPerArena(d));
    assert s[0] == BlockAddr(p, d, 0);
  }

  /** A big request gets the first run of the least number of pages that hold it. */
  lemma BigComesFrom(h: Heap, size: nat, noise: seq<bv8>, n: nat, p: nat)
    requires HeapOk(h) && size > PGSIZE / 2 && size + HEADER <= WORD - PGSIZE
    requires PagesFor(n, size) && FirstRun(h.pool.used, p, n)
    ensures PoolOk(h.pool) && |h.lists| == DESCS && Malloc(h, size, noise).1 == Some(p * PGSIZE + HEADER)
  {
    HeapIsCore(h);
    BigPagesAreLeastIff(size);
    PagesForOne(n, BigPages(size), size);
    assert n > 0;
    hide HeapOk, BigPages, PagesFor, MallocBig, FirstRun, Granted;
    BigIsTaken(h, n, Granted(size), noise, p);
  }

  lemma BigIsTaken(h: Heap, n: nat, size: nat, noise: seq<bv8>, p: nat)
    requires PoolOk(h.pool) && n > 0 && FirstRun(h.pool.used, p, n)
    ensures MallocBig(h, n, size, noise).1 == Some(p * PGSIZE + HEADER)
  {
    FirstRunIsTaken(h.pool, p, n);
    hide GetPages, Scribble, FirstRun;
  }

  // ---------------------------------------------------------------- what free does

  /** A small block that was freed is the next one handed out for its size, unless its whole arena was given back,
      which another live block in its page prevents. */
  lemma FreedIsNext(h: Heap, a: nat, other: nat, size: nat, noise: seq<bv8>, noise2: seq<bv8>)
    requires HeapOk(h) && a in h.live && other in h.live && other != a && other / PGSIZE == a / PGSIZE
    requires 0 < size <= PGSIZE / 2 && a / PGSIZE in h.arenas && h.arenas[a / PGSIZE].Small?
             && h.arenas[a / PGSIZE].d == DescFor(size)
    ensures MayFree(h, a)
    ensures var r := Free(h, a, noise); PoolOk(r.pool) && |r.lists| == DESCS && Malloc(r, size, noise2).1 == Some(a)
  {
    FreeKeeps(h, a, noise);
    var d, r := DescFor(size), Free(h, a, noise);
    HeapIsCore(r);
    LivePage(r, other);
    FreedHead(h, a, d, noise);
    hide HeapOk, Free, Kept, Malloc, MayFree, PoolOk;
    SmallComesFrom(r, size, noise2);
  }

  lemma LivePage(h: Heap, a: nat)
    requires HeapOk(h) && a in h.live
    ensures a / PGSIZE in h.arenas
  {
    assert LiveOk(h.arenas, a, h.live[a]);
  }

  /** Unless the arena went, the freed block is the head of its list. */
  lemma FreedHead(h: Heap, a: nat, d: nat, noise: seq<bv8>)
    requires MayFree(h, a) && h.arenas[a / PGSIZE].Small? && h.arenas[a / PGSIZE].d == d
    requires a / PGSIZE in Free(h, a, noise).arenas
    ensures var r := Free(h, a, noise); d < |r.lists| && r.lists[d] == [a] + h.lists[d]
  {
    hide Scribble, FreePages, WithoutBlocks;
  }

  /** `free` leaves 0xcc in all of the block but its first eight bytes, which may have become a list link. */
  lemma FreedIsOverwritten(h: Heap, a: nat, noise: seq<bv8>, i: nat)
    requires HeapOk(h) && a in h.live && InBlock(h, a, i) && i >= a + 8
    ensures MayFree(h, a)
    ensures i < |Free(h, a, noise).pool.bytes| && Free(h, a, noise).pool.bytes[i] == 0xcc
  {
    HeapIsCore(h);
    LiveMayFree(h, a);
    BlockLies(h, a, i);
    var p := a / PGSIZE;
    hide HeapOk, Core, FreeSmall, FreeBig, IsBlock, BlockSize, PoolOk;
    match h.arenas[p]
    case Small(d, _) =>
      SmallOverwritten(h, a, d, noise, i);
    case Big(n) =>
      PagesOverwritten(h.pool, p, n, i);
      BigFreed(h, a, p, n);
  }

  lemma BigFreed(h: Heap, a: nat, p: nat, n: nat)
    requires PoolOk(h.pool) && p + n <= |h.pool.used|
    ensures FreeBig(h, a, p, n).pool == FreePages(h.pool, p, n)
  {
    hide FreePages;
  }

  lemma PagesOverwritten(pool: PoolState, p: nat, n: nat, i: nat)
    requires PoolOk(pool) && p + n <= |pool.used| && i < |pool.bytes| && p <= i / PGSIZE < p + n
    ensures i < |FreePages(pool, p, n).bytes| && FreePages(pool, p, n).bytes[i] == 0xcc
  {
    FreedPagesAreFilled(pool, p, n, i);
    hide FreePages;
  }

  lemma SmallOverwritten(h: Heap, a: nat, d: nat, noise: seq<bv8>, i: nat)
    requires HeapOk(h) && PoolOk(h.pool) && d < DESCS == |h.lists| && a in h.live && IsBlock(h.arenas, a, d)
             && a + BlockSize(d) <= |h.pool.bytes| && InBlock(h, a, i) && i >= a + 8
             && i / PGSIZE == a / PGSIZE && i < a + BlockSize(d)
    ensures var r := FreeSmall(h, a, d, noise); i < |r.pool.bytes| && r.pool.bytes[i] == 0xcc
  {
    var p, g := a / PGSIZE, GiveBack(h, a, d, noise);
    HeapIsCore(h);
    GivenBytes(h, a, d, noise, i);
    GiveBackKeeps(h, a, d, noise);
    PageOfArena(g, p);
    hide HeapOk, Core, GiveBack, IsBlock, BlockSize, BlocksPerArena, PoolOk, TearDown;
    if g.arenas[p].freeCnt >= BlocksPerArena(d) {
      TornPool(g, p, d);
      PagesOverwritten(g.pool, p, 1, i);
    }
  }

  lemma GivenBytes(h: Heap, a: nat, d: nat, noise: seq<bv8>, i: nat)
    requires Core(h) && d < DESCS == |h.lists| && a in h.live && a + BlockSize(d) <= |h.pool.bytes| && InBlock(h, a, i)
             && a + 8 <= i < a + BlockSize(d)
    ensures var g := GiveBack(h, a, d, noise); i < |g.pool.bytes| && g.pool.bytes[i] == 0xcc
  {
    NotInHeader(h, a, i);
    forall e, b | 0 <= e < DESCS && b in h.lists[e] ensures !(b <= i < b + LINKS) {
      NotInLinksOf(h, a, i, e, b);
    }
    var lists := h.lists[d := [a] + h.lists[d]];
    assert !InLinks(lists, i);
    var arenas := Counted(h.arenas, a / PGSIZE, 1);
    assert !InHeader(arenas, i);
    hide Core, InLinks, InHeader;
  }

  /** The first eight bytes may become anything while the block is on a free list. */
  lemma FreedLinkIsArbitrary(h: Heap, a: nat, other: nat, noise: seq<bv8>, i: nat)
    requires HeapOk(h) && a in h.live && other in h.live && other != a && other / PGSIZE == a / PGSIZE
    requires a / PGSIZE in h.arenas && h.arenas[a / PGSIZE].Small? && a <= i < a + 8 && i < |noise|
    ensures MayFree(h, a)
    ensures var r := Free(h, a, noise); i < |r.pool.bytes| && r.pool.bytes[i] == noise[i]
  {
    FreeKeeps(h, a, noise);
    LivePage(Free(h, a, noise), other);
    LinkIsNoise(h, a, h.arenas[a / PGSIZE].d, noise, i);
    hide HeapOk, Kept, Free;
  }

  lemma LinkIsNoise(h: Heap, a: nat, d: nat, noise: seq<bv8>, i: nat)
    requires MayFree(h, a) && h.arenas[a / PGSIZE].Small? && h.arenas[a / PGSIZE].d == d && a <= i < a + 8 && i < |noise|
    requires a / PGSIZE in Free(h, a, noise).arenas
    ensures var r := Free(h, a, noise); i < |r.pool.bytes| && r.pool.bytes[i] == noise[i]
  {
    SmallBlocks(d);
    var lists := h.lists[d := [a] + h.lists[d]];
    assert a in lists[d] && InLinks(lists, i);
    hide FreePages, WithoutBlocks, InLinks, InHeader, BlockSize, BlocksPerArena;
  }
}

/** Giving pages back, and whose bytes an operation may change. */
module HeapSteps {
  import opened Basics
  import opened Maps = Bitmap
  import opened Palloc
  import opened Blocks
  import opened Heaps
  import opened HeapInv

  // ---------------------------------------------------------------- arenas that go

  lemma PagesGiven(h: Heap, p: nat, n: nat)
    requires PagesOk(h) && p in h.arenas && n == PageCnt(h.arenas[p])
    ensures p + n <= |h.pool.used| && n > 0
    ensures PoolOk(FreePages(h.pool, p, n)) && HeldOk(FreePages(h.pool, p, n).used, Extents(h.arenas - {p}))
  {
    ArenaExtent(h, p);
    ExtentsRemove(h.arenas, p);
    CarvedWhole(h.pool.used, Extents(h.arenas), Extent(p, n));
    FreeKeepsHeld(Holding(h.pool, Extents(h.arenas)), Extent(p, n));
    hide HeldOk, Extents, FreePages, Carved;
  }

  lemma FewerArenasKeepLists(arenas: map<nat, Arena>, lists: seq<seq<nat>>, p: nat)
    requires ListsOk(arenas, lists) && forall d, a :: 0 <= d < DESCS && a in lists[d] ==> a / PGSIZE != p
    ensures ListsOk(arenas - {p}, lists)
  {
    hide BlocksPerArena, BlockAddr, BlockIdx;
    forall d | 0 <= d < DESCS ensures ListOk(arenas - {p}, lists[d], d) {
      assert ListOk(arenas, lists[d], d);
    }
  }

  lemma FewerArenasKeepLive(arenas: map<nat, Arena>, live: map<nat, nat>, p: nat)
    requires AllLiveOk(arenas, live) && forall a :: a in live ==> a / PGSIZE != p
    ensures AllLiveOk(arenas - {p}, live)
  {
    hide BlocksPerArena, BlockAddr, BlockIdx, BlockSize;
    forall a | a in live ensures LiveOk(arenas - {p}, a, live[a]) {
      assert LiveOk(arenas, a, live[a]);
    }
  }

  /** The heap without arena `p`, none of whose blocks is live or on a list any more. */
  lemma ArenaGoes(h: Heap, r: Heap, p: nat)
    requires Core(h) && p in h.arenas && r.arenas == h.arenas - {p} && Nearby(h, r, p) && |r.lists| == DESCS
    requires p + PageCnt(h.arenas[p]) <= |h.pool.used| && PoolOk(h.pool) && r.pool == FreePages(h.pool, p, PageCnt(h.arenas[p]))
    requires ListsOk(h.arenas, r.lists) && AllLiveOk(h.arenas, r.live)
    requires forall d, a :: 0 <= d < DESCS && a in r.lists[d] ==> a / PGSIZE != p
    requires forall a :: a in r.live ==> a / PGSIZE != p
    ensures Core(r)
  {
    hide *;
    CoreParts(h);
    PagesGiven(h, p, PageCnt(h.arenas[p]));
    PagesIntro(r);
    FewerArenasKeepLists(h.arenas, r.lists, p);
    FewerArenasKeepLive(h.arenas, r.live, p);
    ArenasElsewhere(h, r, p);
    CoreParts(r);
  }

  // ---------------------------------------------------------------- an arena without live blocks

  /** With its counter at the top, all blocks of an arena are on the list, and none is live. */
  lemma AllFree(h: Heap, p: nat, d: nat)
    requires Core(h) && p in h.arenas && h.arenas[p].Small? && h.arenas[p].d == d
             && h.arenas[p].freeCnt >= BlocksPerArena(d)
    ensures d < DESCS && |h.lists| == DESCS && h.arenas[p].freeCnt == BlocksPerArena(d)
    ensures forall i: nat :: i < BlocksPerArena(d) ==> BlockAddr(p, d, i) in h.lists[d] && BlockAddr(p, d, i) !in h.live
    ensures forall a :: a in h.live ==> a / PGSIZE != p
  {
    assert ArenaOk(h, p);
    FreeIdxFits(h.lists[d], p, d);
    forall i: nat | i < BlocksPerArena(d) ensures BlockAddr(p, d, i) !in h.live {
      LiveOrFree(h.lists[d], h.live, p, d, i, h.arenas[p].freeCnt);
    }
    hide BlocksPerArena, BlockAddr, BlockIdx, BlockSize;
    forall a | a in h.live ensures a / PGSIZE != p {
      assert LiveOk(h.arenas, a, h.live[a]);
    }
  }

  lemma TornList(arenas: map<nat, Arena>, list: seq<nat>, p: nat, d: nat)
    requires ListOk(arenas, list, d) && d < DESCS
    ensures var t := WithoutBlocks(list, p, d, BlocksPerArena(d));
            && ListOk(arenas, t, d) && (forall a :: a in t ==> a / PGSIZE != p)
            && forall x: nat :: x / PGSIZE != p ==> (x in list <==> x in t)
  {
    var n := BlocksPerArena(d);
    var t := WithoutBlocks(list, p, d, n);
    WithoutBlocksIs(list, p, d, n);
    forall i: nat | i < n ensures BlockAddr(p, d, i) / PGSIZE == p {
      BlockFacts(p, d, i);
    }
    hide BlocksPerArena, BlockAddr, BlockIdx, WithoutBlocks, NoDup;
    forall a | a in t ensures a / PGSIZE != p {
      assert IsBlock(arenas, a, d);
    }
  }

  lemma OtherList(arenas: map<nat, Arena>, list: seq<nat>, e: nat, p: nat, d: nat)
    requires ListOk(arenas, list, e) && p in arenas && arenas[p].Small? && arenas[p].d == d && e != d
    ensures forall a :: a in list ==> a / PGSIZE != p
  {
    hide BlocksPerArena, BlockAddr, BlockIdx, NoDup;
  }

  lemma TornLists(h: Heap, p: nat, d: nat, lists: seq<seq<nat>>)
    requires ListsOk(h.arenas, h.lists) && p in h.arenas && h.arenas[p].Small? && h.arenas[p].d == d
             && d < DESCS == |h.lists|
    requires lists == h.lists[d := WithoutBlocks(h.lists[d], p, d, BlocksPerArena(d))]
    ensures ListsOk(h.arenas, lists)
    ensures forall e, a :: 0 <= e < DESCS && a in lists[e] ==> a / PGSIZE != p
    ensures forall e: nat, x: nat :: x / PGSIZE != p ==> (x in ListOf(h.lists, e) <==> x in ListOf(lists, e))
  {
    ListAt(h.arenas, h.lists, d);
    TornList(h.arenas, h.lists[d], p, d);
    hide ListOk, WithoutBlocks;
    forall e | 0 <= e < DESCS && e != d ensures forall a :: a in lists[e] ==> a / PGSIZE != p {
      ListAt(h.arenas, h.lists, e);
      OtherList(h.arenas, lists[e], e, p, d);
    }
  }

  lemma TearDownKeeps(h: Heap, p: nat, d: nat)
    requires Core(h) && p in h.arenas && h.arenas[p].Small? && h.arenas[p].d == d
             && h.arenas[p].freeCnt >= BlocksPerArena(d)
    ensures PoolOk(h.pool) && p < |h.pool.used| && d < DESCS == |h.lists|
    ensures Core(TearDown(h, p, d)) && TearDown(h, p, d).arenas == h.arenas - {p} && TearDown(h, p, d).live == h.live
  {
    CoreParts(h);
    AllFree(h, p, d);
    PagesGiven(h, p, 1);
    var r := TearDown(h, p, d);
    TornLists(h, p, d, r.lists);
    hide Core, ListsOk, PagesOk, ArenasOk, WithoutBlocks, FreePages, ListOf, BlocksPerArena;
    assert AllLiveOk(h.arenas, r.live);
    ArenaGoes(h, r, p);
  }

  // ---------------------------------------------------------------- big blocks

  lemma BigIsAlone(h: Heap, p: nat, n: nat)
    requires Core(h) && p in h.arenas && h.arenas[p] == Big(n)
    ensures forall a :: a in h.live && a / PGSIZE == p ==> a == p * PGSIZE + HEADER
    ensures |h.lists| == DESCS && forall d, a :: 0 <= d < DESCS && a in h.lists[d] ==> a / PGSIZE != p
  {
    forall a | a in h.live && a / PGSIZE == p ensures a == p * PGSIZE + HEADER {
      assert LiveOk(h.arenas, a, h.live[a]);
    }
    forall d, a | 0 <= d < DESCS && a in h.lists[d] ensures a / PGSIZE != p {
      assert ListOk(h.arenas, h.lists[d], d);
      assert IsBlock(h.arenas, a, d);
    }
  }

  lemma OnePlace(h: Heap, p: nat)
    requires HeldOk(h.pool.used, Extents(h.arenas)) && p in h.arenas
    ensures p + PageCnt(h.arenas[p]) <= |h.pool.used|
  {
    ArenaExtent(h, p);
  }

  lemma LessLive(arenas: map<nat, Arena>, live: map<nat, nat>, a: nat)
    requires AllLiveOk(arenas, live)
    ensures AllLiveOk(arenas, live - {a})
  {
    hide LiveOk;
  }

  lemma FreeBigIs(h: Heap, a: nat, p: nat, n: nat)
    requires PoolOk(h.pool) && p + n <= |h.pool.used| && a in h.live && a / PGSIZE == p && p in h.arenas && h.arenas[p] == Big(n)
    requires forall x :: x in h.live && x / PGSIZE == p ==> x == p * PGSIZE + HEADER
    ensures var r := FreeBig(h, a, p, n);
            && r.arenas == h.arenas - {p} && r.lists == h.lists && r.live == h.live - {a} && r.pool == FreePages(h.pool, p, n)
            && PageCnt(h.arenas[p]) == n && Nearby(h, r, p) && forall x :: x in r.live ==> x / PGSIZE != p
  {
    PageOf(p, HEADER);
    hide FreePages, PoolOk, ListOf;
    assert a == p * PGSIZE + HEADER;
  }

  lemma FreeBigKeeps(h: Heap, a: nat, p: nat, n: nat)
    requires Core(h) && a in h.live && p == a / PGSIZE && p in h.arenas && h.arenas[p] == Big(n)
    ensures PoolOk(h.pool) && p + n <= |h.pool.used|
    ensures Core(FreeBig(h, a, p, n)) && FreeBig(h, a, p, n).arenas == h.arenas - {p}
            && FreeBig(h, a, p, n).live == h.live - {a}
  {
    CoreHeld(h);
    BigIsAlone(h, p, n);
    OnePlace(h, p);
    FreeBigIs(h, a, p, n);
    hide *;
    CoreParts(h);
    PagesGiven(h, p, n);
    LessLive(h.arenas, h.live, a);
    ArenaGoes(h, FreeBig(h, a, p, n), p);
  }

  // ---------------------------------------------------------------- where blocks lie

  /** The bytes of a live block. */
  ghost predicate InBlock(h: Heap, a: nat, i: int) {
    a / PGSIZE in h.arenas && a <= i < a + Capacity(h, a)
  }

  lemma SmallBlockLies(arenas: map<nat, Arena>, a: nat, d: nat, i: nat)
    requires IsBlock(arenas, a, d) && a <= i < a + BlockSize(d)
    ensures i / PGSIZE == a / PGSIZE && i % PGSIZE >= HEADER
  {
    BlockFacts(a / PGSIZE, d, BlockIdx(a, d));
    hide BlocksPerArena, BlockAddr, BlockIdx, BlockSize;
    PageOf(a / PGSIZE, i - a / PGSIZE * PGSIZE);
  }

  lemma BigBlockLies(p: nat, n: nat, i: nat)
    requires p * PGSIZE + HEADER <= i < p * PGSIZE + HEADER + PGSIZE * n - HEADER
    ensures p <= i / PGSIZE < p + n && (i / PGSIZE == p ==> i % PGSIZE >= HEADER)
  {
  }

  /** A live block lies in the pages of its arena and keeps off the header. */
  lemma BlockLies(h: Heap, a: nat, i: nat)
    requires Core(h) && a in h.live && InBlock(h, a, i)
    ensures var p := a / PGSIZE;
            && p in h.arenas && Covers(Extent(p, PageCnt(h.arenas[p])), i / PGSIZE)
            && (i / PGSIZE == p ==> i % PGSIZE >= HEADER)
            && i < |h.pool.bytes| && h.live[a] <= Capacity(h, a)
  {
    var p := a / PGSIZE;
    assert LiveOk(h.arenas, a, h.live[a]);
    ArenaExtent(h, p);
    match h.arenas[p] {
      case Small(d, _) =>
        SmallBlockLies(h.arenas, a, d, i);
      case Big(n) =>
        PageOf(p, HEADER);
        BigBlockLies(p, n, i);
    }
    BytesOfPages(h.pool, i, p, PageCnt(h.arenas[p]));
  }

  lemma BytesOfPages(pool: PoolState, i: nat, p: nat, n: nat)
    requires PoolOk(pool) && i / PGSIZE < p + n <= |pool.used|
    ensures i < |pool.bytes|
  {
  }

  lemma NotInHeader(h: Heap, a: nat, i: nat)
    requires Core(h) && a in h.live && InBlock(h, a, i)
    ensures !InHeader(h.arenas, i)
  {
    BlockLies(h, a, i);
    var q := i / PGSIZE;
    if q in h.arenas {
      ArenaExtent(h, q);
      hide Core, InBlock;
      CoreHeld(h);
      OneArena(h, a / PGSIZE, q, q);
    }
  }

  lemma CoreHeld(h: Heap)
    requires Core(h)
    ensures HeldOk(h.pool.used, Extents(h.arenas)) && PoolOk(h.pool) && |h.lists| == DESCS
  {
  }

  /** Two different blocks of one arena. */
  lemma BlocksOfArena(arenas: map<nat, Arena>, a: nat, b: nat, d: nat, i: nat)
    requires IsBlock(arenas, a, d) && IsBlock(arenas, b, d) && a / PGSIZE == b / PGSIZE && a != b
    ensures !(a <= i < a + BlockSize(d) && b <= i < b + BlockSize(d))
  {
    var p, x, y := a / PGSIZE, BlockIdx(a, d), BlockIdx(b, d);
    hide BlockAddr, BlockIdx, BlocksPerArena, BlockSize;
    if x < y {
      BlocksApart(p, d, x, y);
    } else if y < x {
      BlocksApart(p, d, y, x);
    }
  }

  lemma NotInLinksOf(h: Heap, a: nat, i: nat, d: nat, b: nat)
    requires Core(h) && a in h.live && InBlock(h, a, i) && d < DESCS == |h.lists| && b in h.lists[d]
    ensures !(b <= i < b + LINKS)
  {
    BlockLies(h, a, i);
    assert ListOk(h.arenas, h.lists[d], d);
    assert IsBlock(h.arenas, b, d);
    assert LiveOk(h.arenas, a, h.live[a]);
    if b <= i < b + LINKS {
      SmallBlocks(d);
      SmallBlockLies(h.arenas, b, d, i);
      OneArena(h, a / PGSIZE, b / PGSIZE, i / PGSIZE);
      assert ArenaOk(h, b / PGSIZE);
      LiveOrFree(h.lists[d], h.live, b / PGSIZE, d, BlockIdx(b, d), h.arenas[b / PGSIZE].freeCnt);
      hide Core, BlockAddr, BlockIdx, BlocksPerArena, BlockSize, SmallOk;
      BlocksOfArena(h.arenas, a, b, d, i);
    }
  }

  /** Whatever the links and headers become, no byte of a live block changes. */
  lemma ScribbleKeepsBlocks(h: Heap, noise: seq<bv8>, a: nat, i: nat)
    requires Core(h) && a in h.live && InBlock(h, a, i)
    ensures i < |h.pool.bytes| && Scribbled(h, noise).pool.bytes[i] == h.pool.bytes[i]
  {
    BlockLies(h, a, i);
    NotInHeader(h, a, i);
    CoreHeld(h);
    forall d, b | 0 <= d < DESCS && b in h.lists[d] ensures !(b <= i < b + LINKS) {
      NotInLinksOf(h, a, i, d, b);
    }
    hide Core, InHeader;
    assert !InLinks(h.lists, i);
  }

  /** Live blocks are pairwise disjoint. */
  lemma LiveBlocksAreDisjoint(h: Heap, a: nat, b: nat, i: nat)
    requires Core(h) && a in h.live && b in h.live && InBlock(h, a, i) && InBlock(h, b, i)
    ensures a == b
  {
    BlockLies(h, a, i);
    BlockLies(h, b, i);
    OneArena(h, a / PGSIZE, b / PGSIZE, i / PGSIZE);
    assert LiveOk(h.arenas, a, h.live[a]) && LiveOk(h.arenas, b, h.live[b]);
    if a != b {
      var d := if h.arenas[a / PGSIZE].Small? then h.arenas[a / PGSIZE].d else 0;
      hide Core, BlockAddr, BlockIdx, BlocksPerArena, BlockSize;
      BlocksOfArena(h.arenas, a, b, d, i);
    }
  }
}

/** The heap invariant: how each part of an operation keeps it. */
module HeapInv {
  import opened Basics
  import opened Maps = Bitmap
  import opened Palloc
  import opened Blocks
  import opened Heaps

  // ---------------------------------------------------------------- extents

  lemma ArenaExtent(h: Heap, p: nat)
    requires HeldOk(h.pool.used, Extents(h.arenas)) && p in h.arenas
    ensures var n := PageCnt(h.arenas[p]); Extent(p, n) in Extents(h.arenas) && n > 0 && p + n <= |h.pool.used|
  {
  }

  /** A page belongs to one arena. */
  lemma OneArena(h: Heap, p: nat, q: nat, i: int)
    requires HeldOk(h.pool.used, Extents(h.arenas)) && p in h.arenas && q in h.arenas
    requires Covers(Extent(p, PageCnt(h.arenas[p])), i) && Covers(Extent(q, PageCnt(h.arenas[q])), i)
    ensures p == q
  {
    ArenaExtent(h, p);
    ArenaExtent(h, q);
  }

  lemma UnusedIsNoArena(h: Heap, p: nat)
    requires HeldOk(h.pool.used, Extents(h.arenas)) && p < |h.pool.used| && !h.pool.used[p]
    ensures p !in h.arenas
  {
    if p in h.arenas {
      ArenaExtent(h, p);
      assert Covers(Extent(p, PageCnt(h.arenas[p])), p);
    }
  }

  lemma ExtentsAdd(arenas: map<nat, Arena>, p: nat, x: Arena)
    requires p !in arenas
    ensures Extents(arenas[p := x]) == Extents(arenas) + {Extent(p, PageCnt(x))}
  {
    var e := Extents(arenas[p := x]);
    forall f | f in Extents(arenas) ensures f in e {
      var q :| q in arenas && f == Extent(q, PageCnt(arenas[q]));
      assert q in arenas[p := x];
    }
    assert p in arenas[p := x];
  }

  lemma ExtentsRemove(arenas: map<nat, Arena>, p: nat)
    requires p in arenas
    ensures Extents(arenas - {p}) == Extents(arenas) - {Extent(p, PageCnt(arenas[p]))}
  {
    forall f | f in Extents(arenas) && f != Extent(p, PageCnt(arenas[p])) ensures f in Extents(arenas - {p}) {
      var q :| q in arenas && f == Extent(q, PageCnt(arenas[q]));
      assert q in arenas - {p};
    }
  }

  lemma ExtentsCounted(arenas: map<nat, Arena>, p: nat, delta: int)
    ensures Extents(Counted(arenas, p, delta)) == Extents(arenas)
  {
    var m := Counted(arenas, p, delta);
    assert m.Keys == arenas.Keys;
    assert forall q :: q in arenas ==> PageCnt(m[q]) == PageCnt(arenas[q]);
    forall f ensures f in Extents(m) <==> f in Extents(arenas) {
      assert f in Extents(m) <==> exists q :: q in m && f == Extent(q, PageCnt(m[q]));
      assert f in Extents(arenas) <==> exists q :: q in arenas && f == Extent(q, PageCnt(arenas[q]));
    }
  }

  // ---------------------------------------------------------------- lists

  lemma {:induction false} WithoutIs(s: seq<nat>, a: nat)
    requires NoDup(s)
    ensures NoDup(Without(s, a)) && forall x :: x in Without(s, a) <==> x in s && x != a
  {
    if s != [] {
      var t := s[1..];
      assert s == [s[0]] + t;
      assert NoDup(t);
      assert s[0] !in t;
      WithoutIs(t, a);
    }
  }

  /** Removing all blocks of an arena removes exactly those. */
  lemma {:induction false} WithoutBlocksIs(s: seq<nat>, p: nat, d: nat, n: nat)
    requires NoDup(s)
    ensures NoDup(WithoutBlocks(s, p, d, n))
    ensures forall x :: x in WithoutBlocks(s, p, d, n) <==> x in s && forall i :: 0 <= i < n ==> x != BlockAddr(p, d, i)
  {
    if n > 0 {
      WithoutBlocksIs(s, p, d, n - 1);
      WithoutIs(WithoutBlocks(s, p, d, n - 1), BlockAddr(p, d, n - 1));
    }
  }

  lemma SameBlock(p: nat, q: nat, d: nat, i: nat, j: nat)
    requires d < DESCS && i < BlocksPerArena(d) && j < BlocksPerArena(d) && BlockAddr(p, d, i) == BlockAddr(q, d, j)
    ensures p == q && i == j
  {
    BlockFacts(p, d, i);
    BlockFacts(q, d, j);
  }

  lemma ArenaBlocksAre(p: nat, d: nat)
    requires d < DESCS
    ensures var s := ArenaBlocks(p, d, BlocksPerArena(d));
            && NoDup(s) && (forall i: nat :: i < BlocksPerArena(d) ==> BlockAddr(p, d, i) in s)
            && forall a :: a in s ==> a / PGSIZE == p && BlockIdx(a, d) < BlocksPerArena(d) && a == BlockAddr(p, d, BlockIdx(a, d))
  {
    var n := BlocksPerArena(d);
    var s := ArenaBlocks(p, d, n);
    hide BlocksPerArena, BlockAddr, BlockIdx;
    forall i: nat | i < n ensures BlockAddr(p, d, i) in s {
      assert s[i] == BlockAddr(p, d, i);
    }
    forall i, j | 0 <= i < j < |s| ensures s[i] != s[j] {
      if s[i] == s[j] {
        SameBlock(p, p, d, i, j);
      }
    }
    forall a | a in s ensures a / PGSIZE == p && BlockIdx(a, d) < n && a == BlockAddr(p, d, BlockIdx(a, d)) {
      var i :| 0 <= i < |s| && s[i] == a;
      BlockFacts(p, d, i);
    }
  }

  lemma FreeIdxFits(list: seq<nat>, p: nat, d: nat)
    ensures |FreeIdx(list, p, d)| <= BlocksPerArena(d)
    ensures |FreeIdx(list, p, d)| == BlocksPerArena(d) <==> forall i: nat :: i < BlocksPerArena(d) ==> BlockAddr(p, d, i) in list
  {
    hide BlocksPerArena, BlockAddr;
    var s, n := FreeIdx(list, p, d), BlocksPerArena(d);
    FullSet(s, n);
    forall i: nat ensures i in s <==> i < n && BlockAddr(p, d, i) in list {
    }
    if s == Below(n) {
      forall i: nat | i < n ensures BlockAddr(p, d, i) in list {
        assert i in Below(n);
      }
    }
  }

  /** Blocks of other pages do not matter for an arena. */
  lemma FreeIdxFrame(list: seq<nat>, more: seq<nat>, p: nat, d: nat)
    requires forall i: nat :: i < BlocksPerArena(d) ==> (BlockAddr(p, d, i) in list <==> BlockAddr(p, d, i) in more)
    ensures FreeIdx(list, p, d) == FreeIdx(more, p, d)
  {
    hide BlocksPerArena, BlockAddr;
  }

  /** An arena whose page is not that of `a`. */
  lemma OtherArena(list: seq<nat>, more: seq<nat>, live: map<nat, nat>, now: map<nat, nat>, q: nat, d: nat,
      freeCnt: nat, p: nat)
    requires SmallOk(list, live, q, d, freeCnt) && q != p
    requires forall x: nat :: x / PGSIZE != p ==> (x in list <==> x in more) && (x in live <==> x in now)
    ensures SmallOk(more, now, q, d, freeCnt)
  {
    forall i: nat | i < BlocksPerArena(d) ensures BlockAddr(q, d, i) / PGSIZE == q {
      BlockFacts(q, d, i);
    }
    hide BlocksPerArena, BlockAddr, FreeIdx;
    FreeIdxFrame(list, more, q, d);
  }

  // ---------------------------------------------------------------- the counter of one arena

  lemma TakenIdx(list: seq<nat>, p: nat, d: nat, i: nat)
    requires list != [] && list[0] == BlockAddr(p, d, i) && i < BlocksPerArena(d) && list[0] !in list[1..]
    requires forall j: nat :: j < BlocksPerArena(d) && BlockAddr(p, d, j) == list[0] ==> j == i
    ensures FreeIdx(list, p, d) == FreeIdx(list[1..], p, d) + {i} && i !in FreeIdx(list[1..], p, d)
  {
    hide BlocksPerArena, BlockAddr;
    assert list == [list[0]] + list[1..];
  }

  lemma OnlyIndex(p: nat, d: nat, i: nat)
    requires d < DESCS && i < BlocksPerArena(d)
    ensures forall j: nat :: j < BlocksPerArena(d) && BlockAddr(p, d, j) == BlockAddr(p, d, i) ==> j == i
  {
    forall j: nat | j < BlocksPerArena(d) && BlockAddr(p, d, j) == BlockAddr(p, d, i) ensures j == i {
      SameBlock(p, p, d, i, j);
    }
  }

  lemma ListHead(list: seq<nat>)
    requires list != [] && NoDup(list)
    ensures list[0] !in list[1..] && forall x :: x in list <==> x == list[0] || x in list[1..]
  {
    assert list == [list[0]] + list[1..];
  }

  lemma TakenFromArena(list: seq<nat>, live: map<nat, nat>, now: map<nat, nat>, p: nat, d: nat, i: nat, freeCnt: nat,
      size: nat)
    requires d < DESCS && i < BlocksPerArena(d) && list != [] && list[0] == BlockAddr(p, d, i) && NoDup(list)
    requires SmallOk(list, live, p, d, freeCnt) && now == live[list[0] := size]
    ensures freeCnt >= 1 && SmallOk(list[1..], now, p, d, freeCnt - 1)
  {
    OnlyIndex(p, d, i);
    ListHead(list);
    hide BlocksPerArena, BlockAddr, NoDup;
    TakenIdx(list, p, d, i);
    hide FreeIdx;
  }

  lemma GivenToArena(list: seq<nat>, live: map<nat, nat>, now: map<nat, nat>, p: nat, d: nat, i: nat, freeCnt: nat)
    requires d < DESCS && i < BlocksPerArena(d) && BlockAddr(p, d, i) in live
    requires SmallOk(list, live, p, d, freeCnt) && now == live - {BlockAddr(p, d, i)}
    ensures SmallOk([BlockAddr(p, d, i)] + list, now, p, d, freeCnt + 1)
  {
    var a := BlockAddr(p, d, i);
    var s, t := FreeIdx(list, p, d), FreeIdx([a] + list, p, d);
    forall j: nat | j < BlocksPerArena(d) && BlockAddr(p, d, j) == a ensures j == i {
      SameBlock(p, p, d, i, j);
    }
    hide BlocksPerArena, BlockAddr;
    assert t == s + {i};
  }

  // ---------------------------------------------------------------- the heap invariant, part by part

  ghost predicate ArenasOk(h: Heap) {
    forall p :: p in h.arenas ==> ArenaOk(h, p)
  }

  ghost predicate ListsOk(arenas: map<nat, Arena>, lists: seq<seq<nat>>) {
    |lists| == DESCS && forall d :: 0 <= d < DESCS ==> ListOk(arenas, lists[d], d)
  }

  ghost predicate AllLiveOk(arenas: map<nat, Arena>, live: map<nat, nat>) {
    forall a :: a in live ==> LiveOk(arenas, a, live[a])
  }

  ghost predicate PagesOk(h: Heap) {
    PoolOk(h.pool) && HeldOk(h.pool.used, Extents(h.arenas))
  }

  lemma CoreParts(h: Heap)
    ensures Core(h) <==> PagesOk(h) && ArenasOk(h) && ListsOk(h.arenas, h.lists) && AllLiveOk(h.arenas, h.live)
  {
    hide PoolOk, HeldOk, ArenaOk, ListOk, LiveOk;
  }

  /** The invariant says nothing about the contents of memory. */
  lemma BytesDoNotMatter(h: Heap, bytes: seq<bv8>)
    requires Core(h) && |bytes| == |h.pool.bytes|
    ensures Core(h.(pool := h.pool.(bytes := bytes)))
  {
    hide HeldOk, ListOk, LiveOk, SmallOk;
    var s := h.(pool := h.pool.(bytes := bytes));
    forall p | p in s.arenas ensures ArenaOk(s, p) {
      assert ArenaOk(h, p);
    }
  }

  /** Only the counter of one small arena differs. */
  lemma CountedKeepsBlocks(arenas: map<nat, Arena>, p: nat, delta: int, a: nat, d: nat)
    requires IsBlock(arenas, a, d)
    ensures IsBlock(Counted(arenas, p, delta), a, d)
  {
    hide BlocksPerArena, BlockAddr, BlockIdx;
  }

  lemma CountedKeepsLive(arenas: map<nat, Arena>, p: nat, delta: int, a: nat, size: nat)
    requires LiveOk(arenas, a, size)
    ensures LiveOk(Counted(arenas, p, delta), a, size)
  {
    hide IsBlock, BlockSize;
    match arenas[a / PGSIZE]
    case Small(d, _) => CountedKeepsBlocks(arenas, p, delta, a, d);
    case Big(n) =>
  }

  lemma TailOfList(arenas: map<nat, Arena>, list: seq<nat>, d: nat)
    requires ListOk(arenas, list, d) && list != []
    ensures ListOk(arenas, list[1..], d) && list[0] !in list[1..] && IsBlock(arenas, list[0], d)
  {
    hide IsBlock;
    assert list == [list[0]] + list[1..];
    assert list[0] in list;
  }

  lemma CountedKeepsList(arenas: map<nat, Arena>, p: nat, delta: int, list: seq<nat>, d: nat)
    requires ListOk(arenas, list, d)
    ensures ListOk(Counted(arenas, p, delta), list, d)
  {
    forall a | a in list ensures IsBlock(Counted(arenas, p, delta), a, d) {
      CountedKeepsBlocks(arenas, p, delta, a, d);
    }
    hide IsBlock, Counted;
  }

  /** Blocks, free or live, changed in page `p` only. */
  ghost predicate Nearby(h: Heap, r: Heap, p: nat) {
    && (forall d: nat, x: nat :: x / PGSIZE != p ==> (x in ListOf(h.lists, d) <==> x in ListOf(r.lists, d)))
    && (forall x: nat :: x / PGSIZE != p ==> (x in h.live <==> x in r.live))
  }

  lemma ArenaElsewhere(h: Heap, r: Heap, p: nat, q: nat)
    requires Nearby(h, r, p) && q != p && q in h.arenas && q in r.arenas && r.arenas[q] == h.arenas[q] && ArenaOk(h, q)
    ensures ArenaOk(r, q)
  {
    hide ListOf, SmallOk;
    match h.arenas[q]
    case Small(d, freeCnt) => OtherArena(ListOf(h.lists, d), ListOf(r.lists, d), h.live, r.live, q, d, freeCnt, p);
    case Big(n) => PageOf(q, HEADER);
  }

  lemma ArenasElsewhere(h: Heap, r: Heap, p: nat)
    requires ArenasOk(h) && Nearby(h, r, p) && (p in r.arenas ==> ArenaOk(r, p))
    requires forall q :: q in r.arenas && q != p ==> q in h.arenas && r.arenas[q] == h.arenas[q]
    ensures ArenasOk(r)
  {
    hide ArenaOk, Nearby;
    forall q | q in r.arenas && q != p ensures ArenaOk(r, q) {
      ArenaElsewhere(h, r, p, q);
    }
  }

  // ---------------------------------------------------------------- taking a block

  lemma CountedIs(arenas: map<nat, Arena>, p: nat, delta: int)
    requires p in arenas && arenas[p].Small? && arenas[p].freeCnt + delta >= 0
    ensures Counted(arenas, p, delta) == arenas[p := Small(arenas[p].d, arenas[p].freeCnt + delta)]
  {
  }

  /** The block that is taken: free, and of an arena of its descriptor. */
  lemma HeadIsFree(h: Heap, d: nat)
    requires ArenasOk(h) && d < DESCS == |h.lists| && h.lists[d] != [] && ListOk(h.arenas, h.lists[d], d)
    ensures var a, list := h.lists[d][0], h.lists[d];
            && a !in h.live && a / PGSIZE in h.arenas && h.arenas[a / PGSIZE].Small? && h.arenas[a / PGSIZE].d == d
            && SmallOk(list, h.live, a / PGSIZE, d, h.arenas[a / PGSIZE].freeCnt)
            && NoDup(list) && BlockIdx(a, d) < BlocksPerArena(d) && a == BlockAddr(a / PGSIZE, d, BlockIdx(a, d))
            && (forall x :: x in list <==> x == a || x in list[1..])
  {
    var list := h.lists[d];
    var a := list[0];
    NoDupOf(h.arenas, list, d);
    TailOfList(h.arenas, list, d);
    assert list == [a] + list[1..];
    assert ArenaOk(h, a / PGSIZE);
    hide BlocksPerArena, BlockAddr, BlockIdx, SmallOk, ListOk;
    LiveOrFree(list, h.live, a / PGSIZE, d, BlockIdx(a, d), h.arenas[a / PGSIZE].freeCnt);
  }

  lemma TakenShape(h: Heap, d: nat, size: nat)
    requires d < |h.lists| && h.lists[d] != []
    ensures var r, a := TakeBlock(h, d, size).0, h.lists[d][0];
            && r.arenas == Counted(h.arenas, a / PGSIZE, -1) && r.live == h.live[a := size] && |r.lists| == |h.lists|
            && (forall e: nat :: ListOf(r.lists, e) == if e == d then h.lists[d][1..] else ListOf(h.lists, e))
  {
    hide Counted;
  }

  lemma TakenNearby(h: Heap, r: Heap, a: nat, d: nat, size: nat)
    requires d < |h.lists| && h.lists[d] != [] && (forall x :: x in h.lists[d] <==> x == a || x in h.lists[d][1..])
    requires forall e: nat :: ListOf(r.lists, e) == if e == d then h.lists[d][1..] else ListOf(h.lists, e)
    requires r.live == h.live[a := size]
    ensures Nearby(h, r, a / PGSIZE)
  {
    assert ListOf(h.lists, d) == h.lists[d];
    hide ListOf;
  }

  lemma SmallArenaOk(r: Heap, p: nat, d: nat, freeCnt: nat)
    requires p in r.arenas && r.arenas[p] == Small(d, freeCnt) && SmallOk(ListOf(r.lists, d), r.live, p, d, freeCnt)
    ensures ArenaOk(r, p)
  {
    hide SmallOk;
  }

  lemma TakenArena(h: Heap, r: Heap, d: nat, size: nat)
    requires ArenasOk(h) && d < DESCS == |h.lists| && h.lists[d] != [] && r == TakeBlock(h, d, size).0 && ListOk(h.arenas, h.lists[d], d)
    ensures var a := h.lists[d][0];
            && a !in h.live && a / PGSIZE in h.arenas && h.arenas[a / PGSIZE].Small? && h.arenas[a / PGSIZE].d == d
            && h.arenas[a / PGSIZE].freeCnt >= 1
            && r.arenas == h.arenas[a / PGSIZE := Small(d, h.arenas[a / PGSIZE].freeCnt - 1)]
            && ArenaOk(r, a / PGSIZE) && Nearby(h, r, a / PGSIZE)
  {
    var list, a := h.lists[d], h.lists[d][0];
    var p, i := a / PGSIZE, BlockIdx(a, d);
    HeadIsFree(h, d);
    var freeCnt := h.arenas[p].freeCnt;
    hide *;
    TakenFromArena(list, h.live, h.live[a := size], p, d, i, freeCnt, size);
    CountedIs(h.arenas, p, -1);
    TakenShape(h, d, size);
    TakenNearby(h, r, a, d, size);
    SmallArenaOk(r, p, d, freeCnt - 1);
  }

  lemma NoDupOf(arenas: map<nat, Arena>, list: seq<nat>, d: nat)
    requires ListOk(arenas, list, d)
    ensures NoDup(list)
  {
  }

  lemma LiveOrFree(list: seq<nat>, live: map<nat, nat>, p: nat, d: nat, i: nat, freeCnt: nat)
    requires SmallOk(list, live, p, d, freeCnt) && i < BlocksPerArena(d)
    ensures BlockAddr(p, d, i) in live <==> BlockAddr(p, d, i) !in list
  {
  }

  lemma TakenLists(h: Heap, r: Heap, d: nat, size: nat)
    requires ListsOk(h.arenas, h.lists) && d < DESCS == |h.lists| && h.lists[d] != [] && r == TakeBlock(h, d, size).0
    ensures ListsOk(r.arenas, r.lists)
  {
    var a := h.lists[d][0];
    TailOfList(h.arenas, h.lists[d], d);
    hide ListOk, Counted;
    forall e | 0 <= e < DESCS ensures ListOk(r.arenas, r.lists[e], e) {
      assert ListOk(h.arenas, h.lists[e], e);
      CountedKeepsList(h.arenas, a / PGSIZE, -1, r.lists[e], e);
    }
  }

  lemma TakenLive(h: Heap, r: Heap, d: nat, size: nat)
    requires ListsOk(h.arenas, h.lists) && AllLiveOk(h.arenas, h.live) && d < DESCS && h.lists[d] != []
             && 0 < size <= BlockSize(d)
    requires r == TakeBlock(h, d, size).0
    ensures AllLiveOk(r.arenas, r.live)
  {
    var a := h.lists[d][0];
    TailOfList(h.arenas, h.lists[d], d);
    assert LiveOk(h.arenas, a, size);
    hide LiveOk, Counted, IsBlock;
    forall x | x in r.live ensures LiveOk(r.arenas, x, r.live[x]) {
      CountedKeepsLive(h.arenas, a / PGSIZE, -1, x, r.live[x]);
    }
  }

  lemma TakeBlockKeeps(h: Heap, d: nat, size: nat)
    requires Core(h) && d < DESCS == |h.lists| && h.lists[d] != [] && 0 < size <= BlockSize(d)
    ensures var (r, a) := TakeBlock(h, d, size);
            && Core(r) && a !in h.live && a / PGSIZE in h.arenas && h.arenas[a / PGSIZE].Small? && h.arenas[a / PGSIZE].d == d
            && h.arenas[a / PGSIZE].freeCnt >= 1
            && r.arenas == h.arenas[a / PGSIZE := Small(d, h.arenas[a / PGSIZE].freeCnt - 1)]
  {
    var p := h.lists[d][0] / PGSIZE;
    hide *;
    CoreParts(h);
    var r := TakeBlock(h, d, size).0;
    ListAt(h.arenas, h.lists, d);
    TakenArena(h, r, d, size);
    ArenasElsewhere(h, r, p);
    TakenLists(h, r, d, size);
    TakenLive(h, r, d, size);
    TakenPages(h, r, d, size);
    CoreParts(r);
    TakenIs(h, d, size);
  }

  lemma ListAt(arenas: map<nat, Arena>, lists: seq<seq<nat>>, d: nat)
    requires ListsOk(arenas, lists) && d < DESCS
    ensures |lists| == DESCS && ListOk(arenas, lists[d], d)
  {
    hide ListOk;
  }

  lemma TakenIs(h: Heap, d: nat, size: nat)
    requires d < |h.lists| && h.lists[d] != []
    ensures TakeBlock(h, d, size).1 == h.lists[d][0]
  {
  }

  lemma TakenPages(h: Heap, r: Heap, d: nat, size: nat)
    requires PagesOk(h) && d < |h.lists| && h.lists[d] != [] && r == TakeBlock(h, d, size).0
    ensures PagesOk(r)
  {
    ExtentsCounted(h.arenas, h.lists[d][0] / PGSIZE, -1);
    hide HeldOk, Extents;
  }

  // ---------------------------------------------------------------- giving a block back

  lemma GivenShape(h: Heap, a: nat, d: nat, noise: seq<bv8>)
    requires d < |h.lists| && a + BlockSize(d) <= |h.pool.bytes|
    ensures var r := GiveBack(h, a, d, noise);
            && r.arenas == Counted(h.arenas, a / PGSIZE, 1) && r.live == h.live - {a} && |r.lists| == |h.lists|
            && (forall e: nat :: ListOf(r.lists, e) == if e == d then [a] + h.lists[d] else ListOf(h.lists, e))
  {
    hide Counted, Scribble, BlockSize;
  }

  lemma GivenNearby(h: Heap, r: Heap, a: nat, d: nat)
    requires d < |h.lists|
    requires forall e: nat :: ListOf(r.lists, e) == if e == d then [a] + h.lists[d] else ListOf(h.lists, e)
    requires r.live == h.live - {a}
    ensures Nearby(h, r, a / PGSIZE)
  {
    assert ListOf(h.lists, d) == h.lists[d];
    hide ListOf;
  }

  lemma GivenArena(h: Heap, r: Heap, a: nat, d: nat, noise: seq<bv8>)
    requires ArenasOk(h) && d < DESCS == |h.lists| && a in h.live && IsBlock(h.arenas, a, d)
    requires a + BlockSize(d) <= |h.pool.bytes| && r == GiveBack(h, a, d, noise)
    ensures var p := a / PGSIZE;
            && r.arenas == h.arenas[p := Small(d, h.arenas[p].freeCnt + 1)]
            && ArenaOk(r, p) && Nearby(h, r, p)
            && a !in h.lists[d] && h.arenas[p].freeCnt < BlocksPerArena(d)
  {
    var list, p, i := h.lists[d], a / PGSIZE, BlockIdx(a, d);
    assert ArenaOk(h, p);
    var freeCnt := h.arenas[p].freeCnt;
    assert a == BlockAddr(p, d, i) && i < BlocksPerArena(d);
    hide *;
    FreeIdxFits(list, p, d);
    LiveOrFree(list, h.live, p, d, i, freeCnt);
    CountedIs(h.arenas, p, 1);
    GivenToArena(list, h.live, h.live - {a}, p, d, i, freeCnt);
    SmallCount(list, h.live, p, d, freeCnt);
    GivenShape(h, a, d, noise);
    GivenNearby(h, r, a, d);
    SmallArenaOk(r, p, d, freeCnt + 1);
  }

  lemma SmallCount(list: seq<nat>, live: map<nat, nat>, p: nat, d: nat, freeCnt: nat)
    requires SmallOk(list, live, p, d, freeCnt)
    ensures freeCnt == |FreeIdx(list, p, d)|
  {
  }

  lemma GivenLists(h: Heap, r: Heap, a: nat, d: nat, noise: seq<bv8>)
    requires ListsOk(h.arenas, h.lists) && d < DESCS && IsBlock(h.arenas, a, d) && a !in h.lists[d]
    requires a + BlockSize(d) <= |h.pool.bytes| && r == GiveBack(h, a, d, noise)
    ensures ListsOk(r.arenas, r.lists)
  {
    hide IsBlock, Counted, Scribble, BlockSize;
    forall e | 0 <= e < DESCS ensures ListOk(r.arenas, r.lists[e], e) {
      assert ListOk(h.arenas, h.lists[e], e);
      assert ListOk(h.arenas, r.lists[e], e);
      hide ListOk;
      CountedKeepsList(h.arenas, a / PGSIZE, 1, r.lists[e], e);
    }
  }

  lemma GivenLive(h: Heap, r: Heap, a: nat, d: nat, noise: seq<bv8>)
    requires AllLiveOk(h.arenas, h.live) && d < |h.lists| && a + BlockSize(d) <= |h.pool.bytes| && r == GiveBack(h, a, d, noise)
    ensures AllLiveOk(r.arenas, r.live)
  {
    hide LiveOk, Counted, Scribble, BlockSize;
    forall x | x in r.live ensures LiveOk(r.arenas, x, r.live[x]) {
      CountedKeepsLive(h.arenas, a / PGSIZE, 1, x, r.live[x]);
    }
  }

  lemma GivenPages(h: Heap, r: Heap, a: nat, d: nat, noise: seq<bv8>)
    requires PagesOk(h) && d < |h.lists| && a + BlockSize(d) <= |h.pool.bytes| && r == GiveBack(h, a, d, noise)
    ensures PagesOk(r) && r.pool.used == h.pool.used
  {
    ExtentsCounted(h.arenas, a / PGSIZE, 1);
    hide HeldOk, Extents;
  }

  lemma GiveBackKeeps(h: Heap, a: nat, d: nat, noise: seq<bv8>)
    requires Core(h) && d < DESCS == |h.lists| && a in h.live && IsBlock(h.arenas, a, d) && a + BlockSize(d) <= |h.pool.bytes|
    ensures var r, p := GiveBack(h, a, d, noise), a / PGSIZE;
            && Core(r) && p in h.arenas && h.arenas[p].Small? && r.arenas == h.arenas[p := Small(d, h.arenas[p].freeCnt + 1)]
            && r.pool.used == h.pool.used && r.live == h.live - {a} && h.arenas[p].freeCnt < BlocksPerArena(d)
  {
    GivenIs(h, a, d, noise);
    hide *;
    CoreParts(h);
    var r := GiveBack(h, a, d, noise);
    GivenArena(h, r, a, d, noise);
    ArenasElsewhere(h, r, a / PGSIZE);
    GivenLists(h, r, a, d, noise);
    GivenLive(h, r, a, d, noise);
    GivenPages(h, r, a, d, noise);
    CoreParts(r);
  }

  lemma GivenIs(h: Heap, a: nat, d: nat, noise: seq<bv8>)
    requires d < |h.lists| && a + BlockSize(d) <= |h.pool.bytes| && IsBlock(h.arenas, a, d)
    ensures GiveBack(h, a, d, noise).live == h.live - {a} && a / PGSIZE in h.arenas && h.arenas[a / PGSIZE].Small?
  {
    hide Scribble;
  }

  // ---------------------------------------------------------------- a new arena

  /** A page that was free holds nothing. */
  lemma NothingOnPage(h: Heap, p: nat)
    requires ListsOk(h.arenas, h.lists) && AllLiveOk(h.arenas, h.live) && p !in h.arenas
    ensures forall a :: a in h.live ==> a / PGSIZE != p
    ensures forall d: nat, a: nat :: a in ListOf(h.lists, d) ==> a / PGSIZE != p
  {
    forall a | a in h.live ensures a / PGSIZE != p {
      assert LiveOk(h.arenas, a, h.live[a]);
    }
    forall d: nat, a: nat | a in ListOf(h.lists, d) ensures a / PGSIZE != p {
      assert ListOk(h.arenas, h.lists[d], d);
      assert IsBlock(h.arenas, a, d);
    }
  }

  lemma MoreArenasKeepBlocks(arenas: map<nat, Arena>, p: nat, x: Arena, a: nat, d: nat)
    requires IsBlock(arenas, a, d) && p !in arenas
    ensures IsBlock(arenas[p := x], a, d)
  {
    hide BlocksPerArena, BlockAddr, BlockIdx;
  }

  lemma MoreArenasKeepLive(arenas: map<nat, Arena>, live: map<nat, nat>, p: nat, x: Arena)
    requires AllLiveOk(arenas, live) && p !in arenas
    ensures AllLiveOk(arenas[p := x], live)
  {
    hide BlocksPerArena, BlockAddr, BlockIdx, BlockSize;
    forall a | a in live ensures LiveOk(arenas[p := x], a, live[a]) {
      assert LiveOk(arenas, a, live[a]);
    }
  }

  lemma MoreArenasKeepLists(arenas: map<nat, Arena>, lists: seq<seq<nat>>, p: nat, x: Arena)
    requires ListsOk(arenas, lists) && p !in arenas
    ensures ListsOk(arenas[p := x], lists)
  {
    hide IsBlock;
    forall d | 0 <= d < DESCS ensures ListOk(arenas[p := x], lists[d], d) {
      assert ListOk(arenas, lists[d], d);
      forall a | a in lists[d] ensures IsBlock(arenas[p := x], a, d) {
        MoreArenasKeepBlocks(arenas, p, x, a, d);
      }
    }
  }

  lemma BlocksAreFree(live: map<nat, nat>, p: nat, d: nat)
    requires d < DESCS && forall a :: a in live ==> a / PGSIZE != p
    ensures SmallOk(ArenaBlocks(p, d, BlocksPerArena(d)), live, p, d, BlocksPerArena(d))
  {
    var list := ArenaBlocks(p, d, BlocksPerArena(d));
    ArenaBlocksAre(p, d);
    FreeIdxFits(list, p, d);
    forall i: nat | i < BlocksPerArena(d) ensures BlockAddr(p, d, i) / PGSIZE == p {
      BlockFacts(p, d, i);
    }
    hide BlocksPerArena, BlockAddr, FreeIdx, ArenaBlocks, BlockIdx;
  }

  lemma NewList(arenas: map<nat, Arena>, p: nat, d: nat)
    requires d < DESCS && p in arenas && arenas[p].Small? && arenas[p].d == d
    ensures ListOk(arenas, ArenaBlocks(p, d, BlocksPerArena(d)), d)
  {
    ArenaBlocksAre(p, d);
    hide BlocksPerArena, BlockAddr, BlockIdx, ArenaBlocks, NoDup;
  }

  /** The state after a page has been found for the new arena. */
  function WithArena(h: Heap, q: PoolState, p: nat, d: nat): Heap
    requires d < |h.lists|
  {
    h.(pool := q, arenas := h.arenas[p := Small(d, BlocksPerArena(d))],
       lists := h.lists[d := ArenaBlocks(p, d, BlocksPerArena(d))])
  }

  lemma NewArenaIs(h: Heap, d: nat)
    requires PoolOk(h.pool) && d < |h.lists| && h.lists[d] == []
    ensures var (q, i) := GetPages(h.pool, false, 1);
            NewArena(h, d) == if i.None? then None else Some(WithArena(h, q, i.value, d))
  {
    assert [] + ArenaBlocks(0, d, 0) == ArenaBlocks(0, d, 0);
    hide GetPages, ArenaBlocks;
    var (q, i) := GetPages(h.pool, false, 1);
    if i.Some? {
      assert [] + ArenaBlocks(i.value, d, BlocksPerArena(d)) == ArenaBlocks(i.value, d, BlocksPerArena(d));
    }
  }

  lemma WithArenaLists(h: Heap, q: PoolState, p: nat, d: nat)
    requires ListsOk(h.arenas, h.lists) && p !in h.arenas && d < DESCS == |h.lists|
    ensures ListsOk(WithArena(h, q, p, d).arenas, WithArena(h, q, p, d).lists)
  {
    var x := Small(d, BlocksPerArena(d));
    MoreArenasKeepLists(h.arenas, h.lists, p, x);
    NewList(h.arenas[p := x], p, d);
    hide BlocksPerArena, ListOk, ArenaBlocks;
  }

  lemma WithArenaArenas(h: Heap, q: PoolState, p: nat, d: nat)
    requires ArenasOk(h) && ListsOk(h.arenas, h.lists) && AllLiveOk(h.arenas, h.live) && p !in h.arenas && d < DESCS == |h.lists| && h.lists[d] == []
    ensures ArenasOk(WithArena(h, q, p, d))
  {
    var r := WithArena(h, q, p, d);
    NothingOnPage(h, p);
    BlocksAreFree(h.live, p, d);
    ArenaBlocksAre(p, d);
    hide BlocksPerArena, BlockAddr, BlockIdx, ArenaBlocks, SmallOk, ListsOk, AllLiveOk;
    assert Nearby(h, r, p);
    assert ArenaOk(r, p);
    ArenasElsewhere(h, r, p);
  }

  /** The pages of a new arena come out of the free ones. */
  lemma PagesTaken(h: Heap, n: nat, q: PoolState, p: nat, x: Arena)
    requires PagesOk(h) && GetPages(h.pool, false, n) == (q, Some(p)) && PageCnt(x) == n
    ensures p !in h.arenas && PoolOk(q) && HeldOk(q.used, Extents(h.arenas[p := x])) && q.bytes == h.pool.bytes
    ensures n > 0 && AllAre(h.pool.used, p, n, false) && |q.used| == |h.pool.used|
  {
    GetPagesIsFirstFit(h.pool, false, n);
    GetKeepsHeld(Holding(h.pool, Extents(h.arenas)), false, n);
    assert After(Holding(h.pool, Extents(h.arenas)), Obtain(false, n)) == Holding(q, Extents(h.arenas) + {Extent(p, n)});
    BytesStay(h.pool, n);
    hide GetPages, HeldOk, Extents, PoolOk;
    assert !h.pool.used[p];
    UnusedIsNoArena(h, p);
    ExtentsAdd(h.arenas, p, x);
  }

  lemma BytesStay(p: PoolState, n: nat)
    requires PoolOk(p)
    ensures GetPages(p, false, n).0.bytes == p.bytes
  {
  }

  lemma NewArenaKeeps(h: Heap, d: nat, q: PoolState, p: nat)
    requires Core(h) && d < DESCS == |h.lists| && h.lists[d] == [] && PoolOk(h.pool) && GetPages(h.pool, false, 1) == (q, Some(p))
    ensures Core(WithArena(h, q, p, d)) && p !in h.arenas && q.bytes == h.pool.bytes
            && NewArena(h, d) == Some(WithArena(h, q, p, d))
    ensures WithArena(h, q, p, d).live == h.live && WithArena(h, q, p, d).lists[d] != []
  {
    WithArenaIs(h, q, p, d);
    hide *;
    CoreParts(h);
    NewArenaIs(h, d);
    OnePageCnt(d);
    PagesTaken(h, 1, q, p, Small(d, BlocksPerArena(d)));
    WithArenaLists(h, q, p, d);
    WithArenaArenas(h, q, p, d);
    MoreArenasKeepLive(h.arenas, h.live, p, Small(d, BlocksPerArena(d)));
    PagesIntro(WithArena(h, q, p, d));
    CoreParts(WithArena(h, q, p, d));
  }

  lemma OnePageCnt(d: nat)
    ensures PageCnt(Small(d, BlocksPerArena(d))) == 1
  {
  }

  lemma PagesIntro(h: Heap)
    requires PoolOk(h.pool) && HeldOk(h.pool.used, Extents(h.arenas))
    ensures PagesOk(h)
  {
  }

  lemma WithArenaIs(h: Heap, q: PoolState, p: nat, d: nat)
    requires d < DESCS == |h.lists|
    ensures var r := WithArena(h, q, p, d);
            && r.pool == q && r.arenas == h.arenas[p := Small(d, BlocksPerArena(d))] && r.live == h.live && |r.lists| == DESCS && r.lists[d] != []
  {
    SmallBlocks(d);
    hide BlocksPerArena;
    assert |ArenaBlocks(p, d, BlocksPerArena(d))| > 0;
  }

  // ---------------------------------------------------------------- big blocks

  function WithBig(h: Heap, q: PoolState, p: nat, n: nat, size: nat): Heap {
    h.(pool := q, arenas := h.arenas[p := Big(n)], live := h.live[p * PGSIZE + HEADER := size])
  }

  lemma BigKeeps(h: Heap, q: PoolState, p: nat, n: nat, size: nat)
    requires Core(h) && PoolOk(h.pool) && GetPages(h.pool, false, n) == (q, Some(p)) && 0 < size
             && size + HEADER <= n * PGSIZE
    ensures Core(WithBig(h, q, p, n, size)) && p !in h.arenas && q.bytes == h.pool.bytes
            && p * PGSIZE + HEADER !in h.live
  {
    var r, a := WithBig(h, q, p, n, size), p * PGSIZE + HEADER;
    CoreParts(h);
    PagesTaken(h, n, q, p, Big(n));
    NothingOnPage(h, p);
    PageOf(p, HEADER);
    MoreArenasKeepLists(h.arenas, h.lists, p, Big(n));
    MoreArenasKeepLive(h.arenas, h.live, p, Big(n));
    CoreParts(r);
    hide GetPages, HeldOk, Extents, PoolOk, ListsOk, IsBlock, ListOf;
    assert Nearby(h, r, p) && ArenaOk(r, p);
    assert LiveOk(r.arenas, a, size);
    assert AllLiveOk(r.arenas, r.live);
    ArenasElsewhere(h, r, p);
  }
}

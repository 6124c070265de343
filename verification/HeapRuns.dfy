/** `malloc`, `realloc` and `free`, over every history: the heap stays consistent, contents are kept, nothing leaks. */
module HeapRuns {
  import opened Basics
  import opened Maps = Bitmap
  import opened Palloc
  import opened Blocks
  import opened Heaps
  import opened HeapInv
  import opened HeapSteps

  // ---------------------------------------------------------------- contents

  /** Every block that is live before and after has its place, its capacity and its bytes. */
  ghost predicate Kept(h: Heap, r: Heap) {
    && |r.pool.bytes| == |h.pool.bytes|
    && forall a, i :: a in h.live && a in r.live && InBlock(h, a, i) ==>
                        InBlock(r, a, i) && 0 <= i < |h.pool.bytes| && r.pool.bytes[i] == h.pool.bytes[i]
  }

  lemma KeptTrans(h: Heap, g: Heap, r: Heap)
    requires Kept(h, g) && Kept(g, r) && forall a :: a in h.live && a in r.live ==> a in g.live
    ensures Kept(h, r)
  {
    hide InBlock;
  }

  lemma InBlockIsNat(h: Heap, a: nat, i: int)
    requires InBlock(h, a, i)
    ensures i >= 0
  {
  }

  /** Blocks stay where they are while the bytes do not change. */
  lemma KeptPlaces(h: Heap, r: Heap)
    requires Core(h) && r.pool.bytes == h.pool.bytes
    requires forall p :: p in h.arenas ==> p in r.arenas && SameKind(h.arenas[p], r.arenas[p])
    ensures Kept(h, r)
  {
    forall a, i | a in h.live && InBlock(h, a, i) ensures InBlock(r, a, i) && 0 <= i < |h.pool.bytes| {
      InBlockIsNat(h, a, i);
      BlockLies(h, a, i);
      SameCapacity(h, r, a);
    }
  }

  ghost predicate SameKind(x: Arena, y: Arena) {
    match x
    case Small(d, _) => y.Small? && y.d == d
    case Big(n) => y == Big(n)
  }

  lemma SameCapacity(h: Heap, r: Heap, a: nat)
    requires a / PGSIZE in h.arenas && a / PGSIZE in r.arenas && SameKind(h.arenas[a / PGSIZE], r.arenas[a / PGSIZE])
    ensures Capacity(r, a) == Capacity(h, a)
  {
  }

  lemma KeptScribbled(h: Heap, noise: seq<bv8>)
    requires Core(h)
    ensures Kept(h, Scribbled(h, noise))
  {
    var r := Scribbled(h, noise);
    hide Core;
    forall a, i | a in h.live && InBlock(h, a, i)
      ensures InBlock(r, a, i) && 0 <= i < |h.pool.bytes| && r.pool.bytes[i] == h.pool.bytes[i]
    {
      InBlockIsNat(h, a, i);
      ScribbleKeepsBlocks(h, noise, a, i);
    }
  }

  lemma ScribbledKeeps(h: Heap, noise: seq<bv8>)
    requires Core(h)
    ensures Core(Scribbled(h, noise)) && Kept(h, Scribbled(h, noise))
  {
    BytesDoNotMatter(h, Scribble(h.pool.bytes, noise, h.arenas, h.lists));
    KeptScribbled(h, noise);
  }

  // ---------------------------------------------------------------- malloc

  ghost predicate NoRun(used: seq<bool>, n: nat) {
    forall i :: !AllAre(used, i, n, false)
  }

  /** Why a request fails: a small one without a free block of its size and without a free page; a big one without a
      run of the least number of free pages that hold it, at the top of the address space in any case, and past its
      end, where one page is asked for, without a free page. */
  ghost predicate NoRoom(h: Heap, size: nat)
    requires |h.lists| == DESCS
  {
    if size <= PGSIZE / 2 then h.lists[DescFor(size)] == [] && NoRun(h.pool.used, 1)
    else if size + HEADER <= WORD - PGSIZE then forall n :: PagesFor(n, size) ==> NoRun(h.pool.used, n)
    else size + HEADER <= WORD || NoRun(h.pool.used, 1)
  }

  lemma NoRoomIs(h: Heap, size: nat)
    requires |h.lists| == DESCS && 0 < size < WORD
    ensures NoRoom(h, size) <==>
            if DescFor(size) == DESCS then BigPages(size) == 0 || NoRun(h.pool.used, BigPages(size))
            else h.lists[DescFor(size)] == [] && NoRun(h.pool.used, 1)
  {
    BigPagesAreLeastIff(size);
    hide BigPages, NoRun, PagesFor;
    forall n | PagesFor(n, size) && PagesFor(BigPages(size), size) ensures n == BigPages(size) {
      PagesForOne(n, BigPages(size), size);
    }
  }

  /** What `malloc` promises. */
  ghost predicate Allocated(h: Heap, size: nat, r: Heap, b: Option<nat>) {
    && HeapOk(r) && Kept(h, r)
    && match b
       case None => r == h
       case Some(a) => a !in h.live && r.live == h.live[a := size]
  }

  /** The block is one of descriptor `d`. */
  ghost predicate SmallAt(r: Heap, a: nat, d: nat) {
    a / PGSIZE in r.arenas && r.arenas[a / PGSIZE].Small? && r.arenas[a / PGSIZE].d == d
  }

  lemma MallocBigKeeps(h: Heap, n: nat, size: nat, noise: seq<bv8>)
    requires HeapOk(h) && 0 < size && (n == 0 || size + HEADER <= n * PGSIZE)
    ensures PoolOk(h.pool)
    ensures var (r, b) := MallocBig(h, n, size, noise);
            Allocated(h, size, r, b) && (b.None? <==> n == 0 || forall i :: !AllAre(h.pool.used, i, n, false))
  {
    CoreHeld(h);
    GetPagesIsFirstFit(h.pool, false, n);
    var (q, i) := GetPages(h.pool, false, n);
    match i {
      case None => KeptPlaces(h, h);
      case Some(p) =>
        BigKeeps(h, q, p, n, size);
        var g := WithBig(h, q, p, n, size);
        hide GetPages, Core, Scribbled;
        MallocBigIs(h, n, size, noise, q, p);
        KeptPlaces(h, g);
        ScribbledKeeps(g, noise);
        BigAllocated(h, g, size, noise, p, n);
    }
  }

  lemma MallocBigIs(h: Heap, n: nat, size: nat, noise: seq<bv8>, q: PoolState, p: nat)
    requires PoolOk(h.pool) && GetPages(h.pool, false, n) == (q, Some(p))
    ensures MallocBig(h, n, size, noise) == (Scribbled(WithBig(h, q, p, n, size), noise), Some(p * PGSIZE + HEADER))
  {
    hide GetPages, Scribbled, BigPages;
  }

  lemma BigAllocated(h: Heap, g: Heap, size: nat, noise: seq<bv8>, p: nat, n: nat)
    requires HeapOk(h) && Kept(h, g) && Core(Scribbled(g, noise)) && Kept(g, Scribbled(g, noise))
    requires g.arenas == h.arenas[p := Big(n)] && p * PGSIZE + HEADER !in h.live
             && g.live == h.live[p * PGSIZE + HEADER := size]
    ensures Allocated(h, size, Scribbled(g, noise), Some(p * PGSIZE + HEADER))
  {
    hide Core, Kept, Scribble;
    KeptTrans(h, g, Scribbled(g, noise));
    assert Tight(g.arenas);
  }

  lemma ScribbledShape(h: Heap, noise: seq<bv8>)
    ensures var s := Scribbled(h, noise); s.lists == h.lists && s.arenas == h.arenas && s.live == h.live && s.pool.used == h.pool.used
  {
    hide Scribble;
  }

  lemma TakenKind(s: Heap, r: Heap, a: nat, d: nat)
    requires a / PGSIZE in s.arenas && s.arenas[a / PGSIZE].Small? && s.arenas[a / PGSIZE].d == d
             && s.arenas[a / PGSIZE].freeCnt >= 1
    requires r.arenas == s.arenas[a / PGSIZE := Small(d, s.arenas[a / PGSIZE].freeCnt - 1)]
    ensures forall p :: p in s.arenas ==> p in r.arenas && SameKind(s.arenas[p], r.arenas[p])
  {
  }

  /** From a list that is not empty. */
  lemma TakeFromList(g: Heap, d: nat, size: nat, noise: seq<bv8>)
    requires Core(g) && d < DESCS == |g.lists| && g.lists[d] != [] && 0 < size <= BlockSize(d)
    ensures var (r, a) := TakeBlock(Scribbled(g, noise), d, size);
            && Core(r) && Kept(g, r) && a !in g.live && r.live == g.live[a := size]
            && a / PGSIZE in g.arenas && g.arenas[a / PGSIZE].Small? && g.arenas[a / PGSIZE].d == d && g.arenas[a / PGSIZE].freeCnt >= 1
            && r.arenas == g.arenas[a / PGSIZE := Small(d, g.arenas[a / PGSIZE].freeCnt - 1)]
  {
    hide *;
    ScribbledKeeps(g, noise);
    ScribbledShape(g, noise);
    var s := Scribbled(g, noise);
    TakeBlockKeeps(s, d, size);
    TakenBytes(s, d, size);
    var (r, a) := TakeBlock(s, d, size);
    TakenKind(s, r, a, d);
    KeptPlaces(s, r);
    KeptTrans(g, s, r);
  }

  lemma TakenBytes(h: Heap, d: nat, size: nat)
    requires d < |h.lists| && h.lists[d] != []
    ensures var (r, a) := TakeBlock(h, d, size); r.pool == h.pool && r.live == h.live[a := size]
  {
  }

  lemma TightAfterTake(g: map<nat, Arena>, r: map<nat, Arena>, p: nat, d: nat)
    requires forall q :: q in g && q != p && g[q].Small? ==> g[q].freeCnt < BlocksPerArena(g[q].d)
    requires p in g && g[p].Small? && g[p].d == d && 1 <= g[p].freeCnt <= BlocksPerArena(d)
             && r == g[p := Small(d, g[p].freeCnt - 1)]
    ensures Tight(r)
  {
    hide BlocksPerArena;
  }

  lemma CountFits(h: Heap, p: nat)
    requires Core(h) && p in h.arenas && h.arenas[p].Small?
    ensures h.arenas[p].freeCnt <= BlocksPerArena(h.arenas[p].d)
  {
    var d := h.arenas[p].d;
    assert ArenaOk(h, p);
    hide BlocksPerArena, BlockAddr;
    FreeIdxFits(ListOf(h.lists, d), p, d);
  }

  lemma PageOfBlock(h: Heap, a: nat, d: nat)
    requires Core(h) && a / PGSIZE in h.arenas && h.arenas[a / PGSIZE].Small? && h.arenas[a / PGSIZE].d == d
    ensures h.arenas[a / PGSIZE].freeCnt <= BlocksPerArena(d)
  {
    hide Core, BlocksPerArena;
    CountFits(h, a / PGSIZE);
  }

  lemma ListTaken(h: Heap, r: Heap, size: nat, a: nat, d: nat)
    requires HeapOk(h) && Core(r) && Kept(h, r) && a !in h.live && r.live == h.live[a := size]
    requires a / PGSIZE in h.arenas && h.arenas[a / PGSIZE].Small? && h.arenas[a / PGSIZE].d == d
             && 1 <= h.arenas[a / PGSIZE].freeCnt <= BlocksPerArena(d)
    requires r.arenas == h.arenas[a / PGSIZE := Small(d, h.arenas[a / PGSIZE].freeCnt - 1)]
    ensures Allocated(h, size, r, Some(a)) && SmallAt(r, a, d)
  {
    hide Core, Kept, BlocksPerArena;
    TightAfterTake(h.arenas, r.arenas, a / PGSIZE, d);
  }

  lemma MallocFromList(h: Heap, size: nat, noise: seq<bv8>)
    requires HeapOk(h) && 0 < size && DescFor(size) < DESCS == |h.lists| && h.lists[DescFor(size)] != []
    ensures var d := DescFor(size); var (r, a) := TakeBlock(Scribbled(h, noise), d, size);
            Allocated(h, size, r, Some(a)) && SmallAt(r, a, d)
  {
    hide *;
    var d := DescFor(size);
    FitsItsBlocks(size);
    HeapIsCore(h);
    TakeFromList(h, d, size, noise);
    ScribbledShape(h, noise);
    var (r, a) := TakeBlock(Scribbled(h, noise), d, size);
    PageOfBlock(h, a, d);
    ListTaken(h, r, size, a, d);
  }

  lemma FitsItsBlocks(size: nat)
    requires DescFor(size) < DESCS
    ensures size <= BlockSize(DescFor(size))
  {
  }

  lemma HeapIsCore(h: Heap)
    requires HeapOk(h)
    ensures Core(h) && Tight(h.arenas) && PoolOk(h.pool) && |h.lists| == DESCS
  {
    CoreHeld(h);
  }

  lemma FirstOfArena(h: Heap, q: PoolState, p: nat, d: nat, size: nat, noise: seq<bv8>)
    requires d < DESCS == |h.lists| && WithArena(h, q, p, d).lists[d] != []
    ensures TakeBlock(Scribbled(WithArena(h, q, p, d), noise), d, size).1 / PGSIZE == p
  {
    hide BlockAddr, BlocksPerArena, Scribble;
    var s := ArenaBlocks(p, d, BlocksPerArena(d));
    assert s[0] == BlockAddr(p, d, 0);
    BlockFacts(p, d, 0);
  }

  lemma SameArenas(h: Heap, g: Heap, p: nat, x: Arena)
    requires p !in h.arenas && g.arenas == h.arenas[p := x]
    ensures forall s :: s in h.arenas ==> s in g.arenas && SameKind(h.arenas[s], g.arenas[s])
  {
  }

  lemma MallocFromArena(h: Heap, size: nat, noise: seq<bv8>, q: PoolState, p: nat)
    requires HeapOk(h) && 0 < size && DescFor(size) < DESCS == |h.lists| && h.lists[DescFor(size)] == []
    requires PoolOk(h.pool) && GetPages(h.pool, false, 1) == (q, Some(p))
    ensures var d := DescFor(size);
            && NewArena(h, d) == Some(WithArena(h, q, p, d)) && WithArena(h, q, p, d).lists[d] != []
            && var (r, a) := TakeBlock(Scribbled(WithArena(h, q, p, d), noise), d, size);
               Allocated(h, size, r, Some(a)) && SmallAt(r, a, d)
  {
    hide *;
    var d := DescFor(size);
    FitsItsBlocks(size);
    HeapIsCore(h);
    NewArenaKeeps(h, d, q, p);
    WithArenaIs(h, q, p, d);
    var g := WithArena(h, q, p, d);
    TakeFromList(g, d, size, noise);
    ScribbledShape(g, noise);
    var (r, a) := TakeBlock(Scribbled(g, noise), d, size);
    FirstOfArena(h, q, p, d, size, noise);
    CountFits(g, p);
    SameArenas(h, g, p, Small(d, BlocksPerArena(d)));
    KeptPlaces(h, g);
    ArenaIsTaken(h, g, r, a, p, d);
  }

  lemma ArenaIsTaken(h: Heap, g: Heap, r: Heap, a: nat, p: nat, d: nat)
    requires HeapOk(h) && p !in h.arenas && g.arenas == h.arenas[p := Small(d, BlocksPerArena(d))] && g.live == h.live
    requires Core(r) && Kept(h, g) && Kept(g, r) && a !in g.live && a in r.live && r.live == g.live[a := r.live[a]]
    requires a / PGSIZE in g.arenas && g.arenas[a / PGSIZE].Small? && g.arenas[a / PGSIZE].d == d
             && 1 <= g.arenas[a / PGSIZE].freeCnt <= BlocksPerArena(d)
    requires r.arenas == g.arenas[a / PGSIZE := Small(d, g.arenas[a / PGSIZE].freeCnt - 1)]
    requires a / PGSIZE == p
    ensures Allocated(h, r.live[a], r, Some(a)) && SmallAt(r, a, d)
  {
    hide Core, Kept, BlocksPerArena;
    KeptTrans(h, g, r);
    TightAfterTake(g.arenas, r.arenas, p, d);
  }

  /** `malloc` keeps the heap consistent and every live block as it is; it fails for a request of nothing and when
      there is no room, and then changes nothing. */
  lemma MallocKeeps(h: Heap, size: nat, noise: seq<bv8>)
    requires HeapOk(h) && size < WORD
    ensures PoolOk(h.pool) && |h.lists| == DESCS
    ensures var (r, b) := Malloc(h, size, noise);
            Allocated(h, Granted(size), r, b) && (b.None? <==> size == 0 || NoRoom(h, size))
  {
    HeapIsCore(h);
    GrantedIs(size);
    hide HeapOk, Core, Kept, PoolOk, Fits, MallocBig, BigPages, Granted, NoRoom;
    if size == 0 {
      NothingAllocated(h, Granted(size));
    } else if DescFor(size) == DESCS {
      NoRoomIs(h, size);
      MallocBigKeeps(h, BigPages(size), Granted(size), noise);
    } else {
      MallocSmallKeeps(h, size, noise);
    }
  }

  lemma GrantedIs(size: nat)
    requires size < WORD
    ensures DescFor(size) < DESCS ==> Granted(size) == size
    ensures DescFor(size) == DESCS ==> 0 < Granted(size) && (BigPages(size) == 0 || Granted(size) + HEADER <= BigPages(size) * PGSIZE)
  {
    if size > 0 {
      BigPagesSufficeIff(size);
    }
  }

  lemma NothingAllocated(h: Heap, size: nat)
    requires HeapOk(h)
    ensures Allocated(h, size, h, None)
  {
    KeptPlaces(h, h);
  }

  lemma MallocSmallKeeps(h: Heap, size: nat, noise: seq<bv8>)
    requires HeapOk(h) && PoolOk(h.pool) && 0 < size && DescFor(size) < DESCS == |h.lists|
    ensures var (r, b) := MallocSmall(h, DescFor(size), size, noise);
            && Allocated(h, size, r, b) && (b.None? <==> NoRoom(h, size))
            && (b.Some? ==> SmallAt(r, b.value, DescFor(size)))
  {
    var d := DescFor(size);
    if h.lists[d] != [] {
      MallocFromList(h, size, noise);
      hide HeapOk, Kept, PoolOk, TakeBlock, Scribbled;
    } else {
      GetPagesIsFirstFit(h.pool, false, 1);
      NewArenaIs(h, d);
      var (q, i) := GetPages(h.pool, false, 1);
      hide HeapOk, Kept, PoolOk, TakeBlock, Scribbled, GetPages, NewArena, WithArena, DescFor;
      match i
      case None => NothingAllocated(h, size);
      case Some(p) => MallocFromArena(h, size, noise, q, p);
    }
  }

  // ---------------------------------------------------------------- the promise

  lemma BlockFits(h: Heap, a: nat)
    requires HeapOk(h) && a in h.live
    ensures a / PGSIZE in h.arenas && 0 < h.live[a] <= Capacity(h, a) && a + Capacity(h, a) <= |h.pool.bytes|
    ensures forall i :: InBlock(h, a, i) <==> a <= i < a + Capacity(h, a)
  {
    HeapIsCore(h);
    assert LiveOk(h.arenas, a, h.live[a]);
    LiveCapacity(h.arenas, h, a, h.live[a]);
    hide HeapOk, Core, LiveOk, Capacity;
    var c := Capacity(h, a);
    assert InBlock(h, a, a + c - 1);
    BlockLies(h, a, a + c - 1);
  }

  lemma LiveCapacity(arenas: map<nat, Arena>, h: Heap, a: nat, size: nat)
    requires LiveOk(arenas, a, size) && arenas == h.arenas
    ensures a / PGSIZE in h.arenas && 0 < size <= Capacity(h, a)
  {
    match arenas[a / PGSIZE]
    case Small(d, _) =>
    case Big(n) => PageOf(a / PGSIZE, HEADER);
  }

  /** A block of at least the size asked for, or none: that is so exactly for requests that fit, and for the others
      when no page is free. */
  lemma MallocPromiseIff(h: Heap, size: nat, noise: seq<bv8>)
    requires HeapOk(h) && size < WORD
    ensures PoolOk(h.pool) && |h.lists| == DESCS
    ensures var (r, b) := Malloc(h, size, noise);
            && (b.Some? ==> b.value / PGSIZE in r.arenas)
            && ((b == None || Capacity(r, b.value) >= size) <==> Fits(size) || forall i :: !AllAre(h.pool.used, i, 1, false))
  {
    MallocKeeps(h, size, noise);
    var (r, b) := Malloc(h, size, noise);
    if b.Some? {
      BlockFits(r, b.value);
    }
    if !Fits(size) {
      WrapsToOnePage(h, size, noise);
    }
    hide HeapOk, Kept, Malloc, Capacity, PoolOk;
  }

  /** How much `malloc` hands out. */
  lemma MallocGives(h: Heap, size: nat, noise: seq<bv8>)
    requires HeapOk(h) && 0 < size < WORD
    ensures PoolOk(h.pool) && |h.lists| == DESCS
    ensures var (r, b) := Malloc(h, size, noise);
            b.Some? ==>
              && b.value / PGSIZE in r.arenas
              && Capacity(r, b.value) == if DescFor(size) < DESCS then BlockSize(DescFor(size)) else PGSIZE * BigPages(size) - HEADER
  {
    HeapIsCore(h);
    hide HeapOk, Core, Kept, PoolOk, Fits, BigPages, Granted;
    if DescFor(size) < DESCS {
      MallocSmallKeeps(h, size, noise);
      hide MallocSmall, DescFor, BlockSize, NoRoom;
    } else {
      BigGives(h, BigPages(size), Granted(size), noise);
      hide MallocBig;
    }
  }

  lemma BigGives(h: Heap, n: nat, size: nat, noise: seq<bv8>)
    requires PoolOk(h.pool)
    ensures var (r, b) := MallocBig(h, n, size, noise);
            b.Some? ==> b.value / PGSIZE in r.arenas && Capacity(r, b.value) == PGSIZE * n - HEADER
  {
    var (q, i) := GetPages(h.pool, false, n);
    hide GetPages, Scribble;
    if i.Some? {
      PageOf(i.value, HEADER);
    }
  }

  /** A request that does not fit gets one page, if there is one. */
  lemma WrapsToOnePage(h: Heap, size: nat, noise: seq<bv8>)
    requires HeapOk(h) && size < WORD && !Fits(size)
    ensures PoolOk(h.pool) && |h.lists| == DESCS
    ensures var (r, b) := Malloc(h, size, noise);
            && (b == None <==> forall i :: !AllAre(h.pool.used, i, 1, false))
            && (b.Some? ==> b.value / PGSIZE in r.arenas && Capacity(r, b.value) == PGSIZE - HEADER < size)
  {
    MallocKeeps(h, size, noise);
    MallocGives(h, size, noise);
    BigPagesSufficeIff(size);
    hide HeapOk, Malloc, Kept, Capacity, PoolOk, BigPages;
  }

  /** For example, the largest request of all on a heap of one page. */
  lemma WrappedRequest()
    ensures var h := Heap(PoolState([false], seq(PGSIZE, _ => 0)), map[], seq(DESCS, _ => []), map[]);
            && HeapOk(h)
            && var (r, b) := Malloc(h, 0xffff_ffff, []);
               b.Some? && b.value / PGSIZE in r.arenas && Capacity(r, b.value) == 4084
  {
    var h := Heap(PoolState([false], seq(PGSIZE, _ => 0)), map[], seq(DESCS, _ => []), map[]);
    assert Extents(h.arenas) == {};
    assert HeapOk(h);
    assert AllAre(h.pool.used, 0, 1, false);
    hide HeapOk;
    WrapsToOnePage(h, 0xffff_ffff, []);
  }

  /** `calloc` up to its `memset`. */
  function Calloc(h: Heap, a: nat, b: nat, noise: seq<bv8>): (Heap, Option<nat>)
    requires PoolOk(h.pool) && |h.lists| == DESCS
  {
    if CallocAccepts(a, b) then Malloc(h, CallocSize(a, b), noise) else (h, None)
  }

  lemma CallocFacts(a: nat, b: nat)
    ensures var s := CallocSize(a, b); s < WORD && s <= a * b && (s == a * b <==> a * b < WORD)
  {
  }

  /** `malloc` that succeeds gives enough exactly for requests that fit. */
  lemma SizePromise(h: Heap, size: nat, noise: seq<bv8>)
    requires HeapOk(h) && 0 < size < WORD && PoolOk(h.pool) && |h.lists| == DESCS && Malloc(h, size, noise).1.Some?
    ensures var (r, b) := Malloc(h, size, noise);
            b.value / PGSIZE in r.arenas && (Capacity(r, b.value) >= size <==> size + HEADER <= WORD)
  {
    MallocKeeps(h, size, noise);
    var (r, b) := Malloc(h, size, noise);
    hide HeapOk, Kept, Malloc, Capacity, PoolOk, NoRoom, BigPages;
    BlockFits(r, b.value);
    if !Fits(size) {
      WrapsToOnePage(h, size, noise);
    }
  }

  /** The same promise for `calloc`: it is kept exactly when the product fits, is refused, or cannot be served. */
  lemma CallocPromiseIff(h: Heap, a: nat, b: nat, noise: seq<bv8>)
    requires HeapOk(h) && a < WORD && b < WORD
    ensures PoolOk(h.pool) && |h.lists| == DESCS
    ensures var (r, x) := Calloc(h, a, b, noise);
            && (x.Some? ==> x.value / PGSIZE in r.arenas)
            && ((x == None || Capacity(r, x.value) >= a * b) <==>
                a * b + HEADER <= WORD || !CallocAccepts(a, b) || CallocSize(a, b) == 0 || NoRoom(h, CallocSize(a, b)))
  {
    hide HeapOk, Kept, Malloc, Capacity, PoolOk, NoRoom, CallocSize, Fits, BigPages;
    var s := CallocSize(a, b);
    CallocFacts(a, b);
    HeapIsCore(h);
    MallocKeeps(h, s, noise);
    if s > 0 {
      MallocPromiseIff(h, s, noise);
      var (r, x) := Malloc(h, s, noise);
      if x.Some? {
        CapacityIsSmall(h, s, noise);
        SizePromise(h, s, noise);
      }
    }
  }

  /** No block reaches the size of the address space. */
  lemma CapacityIsSmall(h: Heap, size: nat, noise: seq<bv8>)
    requires HeapOk(h) && 0 < size < WORD && PoolOk(h.pool) && |h.lists| == DESCS && Malloc(h, size, noise).1.Some?
    ensures var (r, b) := Malloc(h, size, noise); b.value / PGSIZE in r.arenas && Capacity(r, b.value) < WORD
  {
    MallocGives(h, size, noise);
    BigPagesSufficeIff(size);
    SmallBlocks(if DescFor(size) < DESCS then DescFor(size) else 0);
    hide HeapOk, Malloc, Capacity, PoolOk, BigPages, BlockSize, DescFor;
  }

  // ---------------------------------------------------------------- free

  ghost predicate Released(h: Heap, a: nat, r: Heap) {
    HeapOk(r) && Kept(h, r) && r.live == h.live - {a}
  }

  lemma LiveMayFree(h: Heap, a: nat)
    requires Core(h) && a in h.live
    ensures MayFree(h, a)
    ensures h.arenas[a / PGSIZE].Small? ==> IsBlock(h.arenas, a, h.arenas[a / PGSIZE].d)
  {
    CoreHeld(h);
    assert LiveOk(h.arenas, a, h.live[a]);
    ArenaExtent(h, a / PGSIZE);
    if h.arenas[a / PGSIZE].Small? {
      var d := h.arenas[a / PGSIZE].d;
      SmallBlocks(d);
      CapacityIs(h, a);
      hide Core;
      BlockLies(h, a, a + BlockSize(d) - 1);
    }
  }

  lemma CapacityIs(h: Heap, a: nat)
    requires a / PGSIZE in h.arenas && h.arenas[a / PGSIZE].Small?
    ensures var d := h.arenas[a / PGSIZE].d; Capacity(h, a) == BlockSize(d) && forall i :: a <= i < a + BlockSize(d) ==> InBlock(h, a, i)
  {
  }

  /** Filling a block with 0xcc changes no other live block. */
  lemma KeptGivenBack(h: Heap, a: nat, d: nat, noise: seq<bv8>)
    requires Core(h) && d < DESCS == |h.lists| && a in h.live && IsBlock(h.arenas, a, d) && a + BlockSize(d) <= |h.pool.bytes|
    ensures Kept(h, GiveBack(h, a, d, noise))
  {
    var r := GiveBack(h, a, d, noise);
    GiveBackKeeps(h, a, d, noise);
    var m := r.(pool := r.pool.(bytes := Fill(h.pool.bytes, a, BlockSize(d), 0xcc)));
    assert |m.pool.bytes| == |r.pool.bytes|;
    assert r == Scribbled(m, noise);
    CapacityIs(h, a);
    hide Core, GiveBack, Scribbled, IsBlock, BlockSize, Capacity;
    BytesDoNotMatter(r, m.pool.bytes);
    ScribbledKeeps(m, noise);
    forall b, i | b in h.live && b in m.live && InBlock(h, b, i)
      ensures InBlock(m, b, i) && 0 <= i < |h.pool.bytes| && m.pool.bytes[i] == h.pool.bytes[i]
    {
      GivenElsewhere(h, m, a, b, i, d);
    }
    assert Kept(h, m);
    KeptTrans(h, m, r);
  }

  lemma GivenElsewhere(h: Heap, m: Heap, a: nat, b: nat, i: int, d: nat)
    requires Core(h) && a in h.live && b in h.live && b in m.live && m.live == h.live - {a} && InBlock(h, b, i)
    requires a + BlockSize(d) <= |h.pool.bytes| && (forall j :: a <= j < a + BlockSize(d) ==> InBlock(h, a, j))
    requires m.pool.bytes == Fill(h.pool.bytes, a, BlockSize(d), 0xcc)
    requires a / PGSIZE in h.arenas && h.arenas[a / PGSIZE].Small? && h.arenas[a / PGSIZE].d == d
    requires m.arenas == h.arenas[a / PGSIZE := Small(d, h.arenas[a / PGSIZE].freeCnt + 1)]
    ensures InBlock(m, b, i) && 0 <= i < |h.pool.bytes| && m.pool.bytes[i] == h.pool.bytes[i]
  {
    InBlockIsNat(h, b, i);
    BlockLies(h, b, i);
    SameCapacity(h, m, b);
    hide Core, Capacity;
    if a <= i < a + BlockSize(d) {
      LiveBlocksAreDisjoint(h, a, b, i);
    }
  }

  /** Filling freed pages with 0xcc changes no block of another arena. */
  lemma KeptWithoutPages(h: Heap, r: Heap, p: nat)
    requires Core(h) && p in h.arenas && p + PageCnt(h.arenas[p]) <= |h.pool.used| && PoolOk(h.pool)
    requires r.pool == FreePages(h.pool, p, PageCnt(h.arenas[p])) && r.arenas == h.arenas - {p}
    requires forall b :: b in h.live && b in r.live ==> b / PGSIZE != p
    ensures Kept(h, r)
  {
    PageFits(h.pool, p, PageCnt(h.arenas[p]));
    assert |r.pool.bytes| == |h.pool.bytes|;
    hide Core, Capacity, FreePages, PoolOk;
    forall b, i | b in h.live && b in r.live && InBlock(h, b, i)
      ensures InBlock(r, b, i) && 0 <= i < |h.pool.bytes| && r.pool.bytes[i] == h.pool.bytes[i]
    {
      PageElsewhere(h, r, p, b, i);
    }
  }

  lemma PageElsewhere(h: Heap, r: Heap, p: nat, b: nat, i: int)
    requires Core(h) && p in h.arenas && p + PageCnt(h.arenas[p]) <= |h.pool.used| && PoolOk(h.pool)
    requires r.pool == FreePages(h.pool, p, PageCnt(h.arenas[p])) && r.arenas == h.arenas - {p}
    requires b in h.live && b / PGSIZE != p && InBlock(h, b, i) && |r.pool.bytes| == |h.pool.bytes|
    ensures InBlock(r, b, i) && 0 <= i < |h.pool.bytes| && r.pool.bytes[i] == h.pool.bytes[i]
  {
    InBlockIsNat(h, b, i);
    BlockLies(h, b, i);
    CoreHeld(h);
    var n := PageCnt(h.arenas[p]);
    PageFits(h.pool, p, n);
    if p <= i / PGSIZE < p + n {
      OneArena(h, p, b / PGSIZE, i / PGSIZE);
    }
    hide Core, HeldOk, PoolOk;
    InPages(i, p, n);
  }

  lemma InPages(i: nat, p: nat, n: nat)
    ensures p * PGSIZE <= i < p * PGSIZE + n * PGSIZE <==> p <= i / PGSIZE < p + n
  {
  }

  lemma FreeSmallKeeps(h: Heap, a: nat, d: nat, noise: seq<bv8>)
    requires HeapOk(h) && PoolOk(h.pool) && d < DESCS == |h.lists| && a in h.live && IsBlock(h.arenas, a, d) && a + BlockSize(d) <= |h.pool.bytes|
    ensures Released(h, a, FreeSmall(h, a, d, noise))
  {
    var p := a / PGSIZE;
    HeapIsCore(h);
    var g := GiveBack(h, a, d, noise);
    GiveBackKeeps(h, a, d, noise);
    KeptGivenBack(h, a, d, noise);
    assert p in g.arenas && g.arenas[p] == Small(d, h.arenas[p].freeCnt + 1);
    PageOfArena(g, p);
    hide Core, Kept, GiveBack, IsBlock, BlockSize, BlocksPerArena, PoolOk, HeapOk, TearDown;
    if g.arenas[p].freeCnt >= BlocksPerArena(d) {
      TearDownKeeps(g, p, d);
      var r := TearDown(g, p, d);
      AllFree(g, p, d);
      TornPool(g, p, d);
      KeptWithoutPages(g, r, p);
      KeptTrans(h, g, r);
      TightWithout(h.arenas, r.arenas, p);
      HeapIntro(r);
    } else {
      TightWith(h.arenas, g.arenas, p, d);
      HeapIntro(g);
    }
  }

  lemma HeapIntro(h: Heap)
    requires Core(h) && Tight(h.arenas)
    ensures HeapOk(h)
  {
    hide Core, Tight;
  }

  lemma PageOfArena(h: Heap, p: nat)
    requires Core(h) && p in h.arenas
    ensures p < |h.pool.used| && PoolOk(h.pool)
  {
    CoreHeld(h);
    ArenaExtent(h, p);
  }

  lemma TornPool(g: Heap, p: nat, d: nat)
    requires PoolOk(g.pool) && p < |g.pool.used| && d < |g.lists| && p in g.arenas && g.arenas[p].Small?
    ensures TearDown(g, p, d).pool == FreePages(g.pool, p, PageCnt(g.arenas[p])) && PageCnt(g.arenas[p]) == 1
  {
    hide FreePages, WithoutBlocks;
  }

  lemma TightWithout(h: map<nat, Arena>, r: map<nat, Arena>, p: nat)
    requires Tight(h) && forall q :: q in r ==> q != p && q in h && r[q] == h[q]
    ensures Tight(r)
  {
    hide BlocksPerArena;
  }

  lemma TightWith(h: map<nat, Arena>, g: map<nat, Arena>, p: nat, d: nat)
    requires Tight(h) && p in h && p in g && g == h[p := g[p]] && g[p].Small? && g[p].d == d
             && g[p].freeCnt < BlocksPerArena(d)
    ensures Tight(g)
  {
    hide BlocksPerArena;
  }

  /** `free` keeps the heap consistent and every other live block as it is. */
  lemma FreeKeeps(h: Heap, a: nat, noise: seq<bv8>)
    requires HeapOk(h) && a in h.live
    ensures MayFree(h, a) && Released(h, a, Free(h, a, noise))
  {
    HeapIsCore(h);
    LiveMayFree(h, a);
    var p := a / PGSIZE;
    hide HeapOk, Core, FreeSmall, FreeBig, IsBlock, BlockSize, PoolOk;
    match h.arenas[p]
    case Small(d, _) => FreeSmallKeeps(h, a, d, noise);
    case Big(n) => FreeBigReleases(h, a, p, n);
  }

  lemma FreeBigReleases(h: Heap, a: nat, p: nat, n: nat)
    requires HeapOk(h) && a in h.live && p == a / PGSIZE && p in h.arenas && h.arenas[p] == Big(n)
    ensures PoolOk(h.pool) && p + n <= |h.pool.used| && Released(h, a, FreeBig(h, a, p, n))
  {
    HeapIsCore(h);
    FreeBigKeeps(h, a, p, n);
    BigIsAlone(h, p, n);
    FreeBigIs(h, a, p, n);
    var r := FreeBig(h, a, p, n);
    hide HeapOk, Core, FreeBig, PoolOk, Kept;
    KeptWithoutPages(h, r, p);
    TightWithout(h.arenas, r.arenas, p);
    HeapIntro(r);
  }

  // ---------------------------------------------------------------- no leak

  /** Every arena has a live block. */
  lemma ArenaHasLive(h: Heap, p: nat) returns (a: nat)
    requires HeapOk(h) && p in h.arenas
    ensures a in h.live && a / PGSIZE == p
  {
    assert ArenaOk(h, p);
    match h.arenas[p]
    case Small(d, freeCnt) =>
      var list := ListOf(h.lists, d);
      FreeIdxFits(list, p, d);
      SmallCount(list, h.live, p, d, freeCnt);
      var i: nat :| i < BlocksPerArena(d) && BlockAddr(p, d, i) !in list;
      a := BlockAddr(p, d, i);
      BlockFacts(p, d, i);
    case Big(n) =>
      a := p * PGSIZE + HEADER;
      PageOf(p, HEADER);
  }

  /** The used pages are exactly those of arenas with a live block in them and of live big blocks. */
  lemma UsedIffLive(h: Heap, i: nat)
    requires HeapOk(h) && i < |h.pool.used|
    ensures h.pool.used[i] <==> exists a :: a in h.live && a / PGSIZE in h.arenas && Covers(Extent(a / PGSIZE, PageCnt(h.arenas[a / PGSIZE])), i)
  {
    CoreHeld(h);
    if h.pool.used[i] {
      var e :| e in Extents(h.arenas) && Covers(e, i);
      var p :| p in h.arenas && e == Extent(p, PageCnt(h.arenas[p]));
      var a := ArenaHasLive(h, p);
      assert a in h.live && Covers(Extent(a / PGSIZE, PageCnt(h.arenas[a / PGSIZE])), i);
    } else {
      forall a | a in h.live && a / PGSIZE in h.arenas
        ensures !Covers(Extent(a / PGSIZE, PageCnt(h.arenas[a / PGSIZE])), i)
      {
        ArenaExtent(h, a / PGSIZE);
      }
    }
  }

  /** A free list holds exactly the blocks of its arenas that are not live, each once; the counters count them. */
  lemma FreeListsAreExact(h: Heap, d: nat, a: nat)
    requires HeapOk(h) && d < DESCS
    ensures |h.lists| == DESCS && NoDup(h.lists[d])
    ensures a in h.lists[d] <==> IsBlock(h.arenas, a, d) && a !in h.live
  {
    CoreHeld(h);
    assert ListOk(h.arenas, h.lists[d], d);
    if IsBlock(h.arenas, a, d) {
      var p := a / PGSIZE;
      assert ArenaOk(h, p);
      LiveOrFree(h.lists[d], h.live, p, d, BlockIdx(a, d), h.arenas[p].freeCnt);
    }
  }

  /** With nothing live, all pages are free and all lists empty. */
  lemma NothingLeaks(h: Heap)
    requires HeapOk(h) && h.live == map[]
    ensures h.arenas == map[] && (forall i :: 0 <= i < |h.pool.used| ==> !h.pool.used[i])
    ensures |h.lists| == DESCS && forall d :: 0 <= d < DESCS ==> h.lists[d] == []
  {
    CoreHeld(h);
    forall p ensures p !in h.arenas {
      if p in h.arenas {
        var a := ArenaHasLive(h, p);
      }
    }
    assert h.arenas == map[];
    forall i | 0 <= i < |h.pool.used| ensures !h.pool.used[i] {
      UsedIffLive(h, i);
    }
    forall d | 0 <= d < DESCS ensures h.lists[d] == [] {
      EmptyList(h, d);
    }
  }

  lemma EmptyList(h: Heap, d: nat)
    requires HeapOk(h) && h.arenas == map[] && d < DESCS == |h.lists|
    ensures h.lists[d] == []
  {
    if h.lists[d] != [] {
      FreeListsAreExact(h, d, h.lists[d][0]);
    }
  }
}

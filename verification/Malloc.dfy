/** `malloc`, `calloc`, `realloc` and `free` as the C code has them, over the page allocator: each proved to be its
    function on heap values. */
module Malloc {
  import opened Basics
  import opened Maps = Bitmap
  import opened Palloc
  import opened Blocks
  import opened Heaps
  import opened HeapInv
  import opened HeapSteps
  import opened HeapRuns
  import opened HeapRealloc
  import opened HeapCalloc

  class Allocator {
    const pool: Pool
    const descs: seq<Desc>
    var arenas: map<nat, Arena>
    var lists: seq<seq<nat>>
    ghost var live: map<nat, nat>

    ghost predicate Set()
      reads this, pool, pool.usedMap.bits
    {
      pool.Valid() && pool.held == Extents(arenas) && |lists| == DESCS == |descs|
      && forall d :: 0 <= d < DESCS ==> descs[d] == Desc(BlockSize(d), BlocksPerArena(d))
    }

    ghost function Value(): Heap
      requires pool.usedMap.Valid()
      reads this, pool, pool.usedMap.bits
    {
      Heap(pool.Value(), arenas, lists, live)
    }

    ghost predicate Valid()
      reads this, pool, pool.usedMap.bits
    {
      Set() && HeapOk(Value())
    }

    /** `malloc_init` on a pool nobody has used. */
    constructor (pool: Pool)
      requires pool.Valid() && pool.held == {} && forall i :: 0 <= i < |pool.usedMap.Bits()| ==> !pool.usedMap.Bits()[i]
      ensures Valid() && this.pool == pool && live == map[]
    {
      var ds := InitDescs();
      this.pool := pool;
      descs := ds;
      arenas := map[];
      lists := seq(DESCS, _ => []);
      live := map[];
      new;
      assert Extents(arenas) == {};
    }

    /** The search of `malloc` for a descriptor. */
    method FindDesc(size: nat) returns (d: nat)
      requires Set()
      ensures d == DescFor(size)
    {
      d := 0;
      while d < DESCS && descs[d].blockSize < size
        invariant d <= DescFor(size)
        decreases DESCS - d
      {
        d := d + 1;
      }
    }

    // -------------------------------------------------------------- malloc

    /** `palloc_get_multiple(0, n)`, as a page number. */
    method ObtainPages(n: nat) returns (p: Option<nat>)
      requires pool.Valid()
      modifies pool, pool.usedMap.bits
      ensures pool.Valid() && PoolOk(old(pool.Value())) && (pool.Value(), p) == GetPages(old(pool.Value()), false, n)
      ensures pool.held == if p.Some? then old(pool.held) + {Extent(p.value, n)} else old(pool.held)
    {
      hide GetPages, HeldOk, PoolOk;
      var r := pool.GetMultiple(false, false, n);
      p := if r.At? then Some((r.addr - pool.base) / PGSIZE) else None;
    }

    /** `palloc_free_multiple` by page number. */
    method ReturnPages(p: nat, n: nat)
      requires pool.Valid() && n > 0 && Extent(p, n) in pool.held
      modifies pool, pool.usedMap.bits
      ensures pool.Valid() && PoolOk(old(pool.Value())) && p + n <= |old(pool.Value()).used|
      ensures pool.Value() == FreePages(old(pool.Value()), p, n) && pool.held == old(pool.held) - {Extent(p, n)}
    {
      hide HeldOk, PoolOk, FreePages, Maps.BitsOf, Carved;
      PageNumber(pool.base, p);
      CarvedWhole(pool.usedMap.Bits(), pool.held, Extent(p, n));
      pool.FreeMultiple(pool.base + p * PGSIZE, n);
    }

    /** The bytes under headers and list links change. */
    method WriteLinks(noise: seq<bv8>)
      requires pool.Valid()
      modifies pool`bytes
      ensures pool.Valid() && Value() == Scribbled(old(Value()), noise)
    {
      hide HeldOk, InHeader, InLinks;
      pool.bytes := Scribble(pool.bytes, noise, arenas, lists);
    }

    /** A block of `n` pages. */
    method MallocBig(n: nat, size: nat, noise: seq<bv8>) returns (b: Option<nat>)
      requires Set() && Core(Value()) && PoolOk(pool.Value())
      modifies this, pool, pool.usedMap.bits
      ensures Set() && PoolOk(old(Value()).pool) && (Value(), b) == Heaps.MallocBig(old(Value()), n, size, noise)
    {
      hide HeldOk, Extents, Core, PoolOk, BlockSize, BlocksPerArena, GetPages, Scribbled, Heaps.MallocBig, Maps.BitsOf, WithBig;
      ghost var h := Value();
      var r := ObtainPages(n);
      ghost var q := pool.Value();
      if r == None {
        BigNone(h, n, size, noise, q);
        return None;
      }
      BigArena(h, n, r.value);
      MallocBigIs(h, n, size, noise, q, r.value);
      WithBigIs(h, q, r.value, n, size);
      b := InstallBig(WithBig(h, q, r.value, n, size), r.value, n, size, noise);
    }

    /** The header of a big block. */
    method InstallBig(ghost g: Heap, p: nat, n: nat, size: nat, noise: seq<bv8>) returns (b: Option<nat>)
      requires pool.Valid() && g == Heap(pool.Value(), arenas[p := Big(n)], lists, live[p * PGSIZE + HEADER := size])
      requires pool.held == Extents(g.arenas)
      modifies this, pool`bytes
      ensures pool.Valid() && pool.held == Extents(arenas) && lists == old(lists) && b == Some(p * PGSIZE + HEADER)
      ensures Value() == Scribbled(g, noise)
    {
      hide Scribbled, HeldOk, Extents, PoolOk;
      arenas := arenas[p := Big(n)];
      live := live[p * PGSIZE + HEADER := size];
      WriteLinks(noise);
      b := Some(p * PGSIZE + HEADER);
    }

    /** A page for descriptor `d`, all of whose blocks go to the end of its list. */
    method AddArena(d: nat) returns (ok: bool)
      requires Valid() && d < DESCS && lists[d] == []
      modifies this`arenas, this`lists, pool, pool.usedMap.bits
      ensures Set() && PoolOk(old(Value()).pool) && live == old(live)
      ensures match NewArena(old(Value()), d)
              case None => !ok && Value() == old(Value())
              case Some(g) => ok && Value() == g
    {
      hide HeapOk, GetPages, HeldOk, Extents, Core, PoolOk, NewArena, BlockSize, BlocksPerArena, BlockAddr, ArenaBlocks;
      ghost var before := Value();
      HeapIsCore(before);
      NewArenaIs(before, d);
      ArenaParts(before, d);
      var r := ObtainPages(1);
      if r == None {
        assert Value() == before;
        return false;
      }
      var p := r.value;
      arenas := arenas[p := Small(d, descs[d].blocksPerArena)];
      var i := 0;
      ArenaBlocksGrow(p, d, 0);
      while i < descs[d].blocksPerArena
        invariant i <= BlocksPerArena(d)
        invariant lists == before.lists[d := ArenaBlocks(p, d, i)]
        modifies this`lists
      {
        ArenaBlocksGrow(p, d, i);
        lists := lists[d := lists[d] + [BlockAddr(p, d, i)]];
        i := i + 1;
      }
      ok := true;
    }

    method MallocSmall(d: nat, size: nat, noise: seq<bv8>) returns (b: Option<nat>)
      requires Valid() && d == DescFor(size) < DESCS && size > 0
      modifies this, pool, pool.usedMap.bits
      ensures Set() && PoolOk(old(Value()).pool) && (Value(), b) == Heaps.MallocSmall(old(Value()), d, size, noise)
    {
      ghost var before := Value();
      HeapIsCore(before);
      SmallParts(before, d, size, noise);
      hide HeapOk, HeldOk, Extents, Core, PoolOk, NewArena, BlockSize, BlocksPerArena, DescFor, Scribbled, Counted;
      if lists[d] == [] {
        var ok := AddArena(d);
        if !ok {
          return None;
        }
      }
      ghost var g := Value();
      WriteLinks(noise);
      var a := lists[d][0];
      lists := lists[d := lists[d][1..]];
      ExtentsCounted(arenas, a / PGSIZE, -1);
      arenas := Counted(arenas, a / PGSIZE, -1);
      live := live[a := size];
      b := Some(a);
    }

    method Malloc(size: nat, noise: seq<bv8>) returns (b: Option<nat>)
      requires Valid() && size < WORD
      modifies this, pool, pool.usedMap.bits
      ensures Valid() && PoolOk(old(Value()).pool) && (Value(), b) == Heaps.Malloc(old(Value()), size, noise)
      ensures Allocated(old(Value()), Granted(size), Value(), b) && (b == None <==> size == 0 || NoRoom(old(Value()), size))
    {
      ghost var before := Value();
      MallocKeeps(before, size, noise);
      hide HeapOk, Heaps.MallocBig, Heaps.MallocSmall, DescFor, Granted, NoRoom, BigPages, PoolOk, Kept, BlockSize, BlocksPerArena;
      if size == 0 {
        return None;
      }
      var d := FindDesc(size);
      if d == DESCS {
        HeapIsCore(before);
        b := MallocBig(BigPages(size), Granted(size), noise);
      } else {
        b := MallocSmall(d, size, noise);
      }
    }

    method Calloc(a: nat, b: nat, noise: seq<bv8>) returns (x: Option<nat>)
      requires Valid() && MayZero(Value(), a, b)
      modifies this, pool, pool.usedMap.bits
      ensures Valid() && (Value(), x) == CallocZeroed(old(Value()), a, b, noise)
      ensures Calloced(old(Value()), a * b % WORD, Value(), x)
      ensures var s := a * b % WORD; x == None <==> s < a || s < b || s == 0 || NoRoom(old(Value()), s)
    {
      ghost var h := Value();
      CallocKeeps(h, a, b, noise);
      HeapIsCore(h);
      CallocedFits(h, a, b, noise);
      hide HeapOk, Kept, MayZero, Granted, NoRoom, PoolOk, Heaps.Malloc, Capacity, Calloced, Allocated, Zeroed, Extents;
      var size := a * b % WORD;
      if size < a || size < b {
        return None;
      }
      x := Malloc(size, noise);
      if x.Some? {
        Zeroes(x.value, size);
      }
    }

    /** `memset` to 0. */
    method Zeroes(at: nat, n: nat)
      requires Set() && at + n <= |pool.bytes|
      modifies pool`bytes
      ensures Set() && Value() == Zeroed(old(Value()), at, n)
    {
      hide HeldOk, Extents, PoolOk, BlockSize, BlocksPerArena, Maps.BitsOf;
      ghost var h := Value();
      pool.bytes := Fill(pool.bytes, at, n, 0);
      assert PoolOk(pool.Value()) by {
        SameSize(h.pool, pool.Value());
      }
    }

    // -------------------------------------------------------------- free

    /** The block goes to the front of its list. */
    method GiveBack(a: nat, d: nat, noise: seq<bv8>)
      requires Valid() && a in live && d < DESCS && IsBlock(arenas, a, d) && a + BlockSize(d) <= |pool.bytes|
      modifies this`arenas, this`lists, this`live, pool`bytes
      ensures Set() && Value() == Heaps.GiveBack(old(Value()), a, d, noise)
    {
      hide HeapOk, HeldOk, Extents, PoolOk, BlockSize, BlocksPerArena, IsBlock, Scribble, Counted;
      pool.bytes := Fill(pool.bytes, a, descs[d].blockSize, 0xcc);
      live := live - {a};
      lists := lists[d := [a] + lists[d]];
      ExtentsCounted(arenas, a / PGSIZE, 1);
      arenas := Counted(arenas, a / PGSIZE, 1);
      assert PoolOk(pool.Value()) by {
        SameSize(old(pool.Value()), pool.Value());
      }
      WriteLinks(noise);
    }

    /** An arena without live blocks: its blocks leave the list, and its page goes back. */
    method TearDown(p: nat, d: nat)
      requires Set() && Core(Value()) && p in arenas && arenas[p].Small? && arenas[p].d == d
               && arenas[p].freeCnt >= BlocksPerArena(d)
      modifies this`arenas, this`lists, pool, pool.usedMap.bits
      ensures Set() && PoolOk(old(Value()).pool) && p < |old(Value()).pool.used| && d < |old(lists)| && Value() == Heaps.TearDown(old(Value()), p, d)
    {
      hide HeldOk, Extents, Core, PoolOk, BlockSize, BlocksPerArena, BlockAddr, Without, WithoutBlocks, FreePages, Heaps.TearDown, Maps.BitsOf;
      ghost var h := Value();
      TearDownKeeps(h, p, d);
      OneExtent(h, p);
      TornIs(h, p, d);
      var i := 0;
      WithoutMore(h.lists[d], p, d, 0);
      while i < descs[d].blocksPerArena
        invariant i <= BlocksPerArena(d)
        invariant lists == h.lists[d := WithoutBlocks(h.lists[d], p, d, i)]
        modifies this`lists
      {
        WithoutMore(h.lists[d], p, d, i);
        lists := lists[d := Without(lists[d], BlockAddr(p, d, i))];
        i := i + 1;
      }
      ReturnPages(p, 1);
      arenas := arenas - {p};
    }

    method FreeBig(a: nat, n: nat)
      requires Set() && Core(Value()) && a in live && a / PGSIZE in arenas && arenas[a / PGSIZE] == Big(n)
      modifies this`arenas, this`live, pool, pool.usedMap.bits
      ensures Set() && PoolOk(old(Value()).pool) && a / PGSIZE + n <= |old(Value()).pool.used|
      ensures Value() == Heaps.FreeBig(old(Value()), a, a / PGSIZE, n)
    {
      hide HeldOk, Extents, Core, PoolOk, BlockSize, BlocksPerArena, FreePages, Heaps.FreeBig, Maps.BitsOf;
      ghost var h := Value();
      var p := a / PGSIZE;
      FreeBigKeeps(h, a, p, n);
      OneExtent(h, p);
      FreedBigIs(h, a, p, n);
      ReturnPages(p, n);
      arenas := arenas - {p};
      live := live - {a};
    }

    /** `free` of a live block. */
    method Free(a: nat, noise: seq<bv8>)
      requires Valid() && a in live
      modifies this, pool, pool.usedMap.bits
      ensures Valid() && MayFree(old(Value()), a) && Value() == Heaps.Free(old(Value()), a, noise)
      ensures Released(old(Value()), a, Value())
    {
      ghost var h := Value();
      FreeKeeps(h, a, noise);
      HeapIsCore(h);
      LiveMayFree(h, a);
      var p := a / PGSIZE;
      var arena := arenas[p];
      hide HeapOk, HeldOk, Extents, Core, PoolOk, BlockSize, BlocksPerArena, Heaps.FreeBig, Heaps.FreeSmall, IsBlock, Kept;
      match arena
      case Small(d, _) => FreeSmall(a, d, noise);
      case Big(n) => FreeBig(a, n);
    }

    method FreeSmall(a: nat, d: nat, noise: seq<bv8>)
      requires Valid() && a in live && d < DESCS && IsBlock(arenas, a, d) && a + BlockSize(d) <= |pool.bytes|
      modifies this, pool, pool.usedMap.bits
      ensures Set() && PoolOk(old(Value()).pool) && Value() == Heaps.FreeSmall(old(Value()), a, d, noise)
    {
      ghost var h := Value();
      HeapIsCore(h);
      GiveBackKeeps(h, a, d, noise);
      PageOfArena(Heaps.GiveBack(h, a, d, noise), a / PGSIZE);
      hide HeapOk, HeldOk, Extents, Core, PoolOk, BlockSize, BlocksPerArena, IsBlock, Heaps.GiveBack, Heaps.TearDown;
      GiveBack(a, d, noise);
      var p := a / PGSIZE;
      if arenas[p].freeCnt >= descs[d].blocksPerArena {
        TearDown(p, d);
      }
    }

    // -------------------------------------------------------------- realloc

    method Realloc(was: Option<nat>, size: nat, noise: seq<bv8>, noise2: seq<bv8>) returns (b: Option<nat>)
      requires Valid() && MayResize(Value(), was, size)
      modifies this, pool, pool.usedMap.bits
      ensures Valid() && (Value(), b) == HeapRealloc.Realloc(old(Value()), was, size, noise, noise2)
      ensures Reallocated(old(Value()), was, size, Value(), b)
    {
      ghost var h := Value();
      ReallocKeeps(h, was, size, noise, noise2);
      Resizes(h, was, size);
      hide HeapOk, Kept, MayResize, Granted, NoRoom, PoolOk, Heaps.Malloc, Heaps.Free, Moved, Capacity, SameBytes;
      if size == 0 {
        if was.Some? {
          Free(was.value, noise2);
        }
        return None;
      }
      b := Malloc(size, noise);
      if was.Some? && b.Some? {
        CopyFits(h, was.value, size, noise);
        MoveBlock(was.value, b.value, size);
        Free(was.value, noise2);
      }
    }

    /** `memcpy` of what the old block holds and the new one takes. */
    method MoveBlock(a: nat, b: nat, size: nat)
      requires Valid() && a in live && b in live && a / PGSIZE in arenas && b / PGSIZE in arenas
      requires Min(size, Capacity(Value(), a)) <= Capacity(Value(), b)
      modifies pool`bytes
      ensures Valid() && a / PGSIZE in old(Value()).arenas && Capacity(old(Value()), a) >= 0
      ensures var n := Min(size, Capacity(old(Value()), a));
              a + n <= |old(pool.bytes)| && b + n <= |old(pool.bytes)| && Value() == Moved(old(Value()), b, a, n)
    {
      hide HeapOk, HeldOk, Extents, PoolOk, BlockSize, BlocksPerArena, Moved, KeptBut, SameBytes, Maps.BitsOf, InBlock;
      ghost var h := Value();
      BlockFits(h, a);
      BlockFits(h, b);
      CapacityOf(h, a);
      var capacity := match arenas[a / PGSIZE] case Small(d, _) => descs[d].blockSize case Big(n) => PGSIZE * n - a % PGSIZE;
      hide Capacity;
      var n := Min(size, capacity);
      MovedKeeps(h, b, a, n);
      MovedIs(h, b, a, n);
      pool.bytes := Copy(pool.bytes, b, a, n);
      assert PoolOk(pool.Value()) by {
        SameSize(h.pool, pool.Value());
      }
    }
  }

  lemma BigNone(h: Heap, n: nat, size: nat, noise: seq<bv8>, q: PoolState)
    requires PoolOk(h.pool) && GetPages(h.pool, false, n) == (q, None)
    ensures q == h.pool && Heaps.MallocBig(h, n, size, noise) == (h, None)
  {
    GetPagesIsFirstFit(h.pool, false, n);
    hide GetPages, Scribbled;
  }

  lemma BigArena(h: Heap, n: nat, p: nat)
    requires Core(h) && PoolOk(h.pool) && GetPages(h.pool, false, n).1 == Some(p)
    ensures p !in h.arenas && Extents(h.arenas[p := Big(n)]) == Extents(h.arenas) + {Extent(p, n)}
  {
    CoreParts(h);
    PagesTaken(h, n, GetPages(h.pool, false, n).0, p, Big(n));
    ExtentsAdd(h.arenas, p, Big(n));
  }

  lemma ArenaBlocksGrow(p: nat, d: nat, i: nat)
    ensures ArenaBlocks(p, d, i + 1) == ArenaBlocks(p, d, i) + [BlockAddr(p, d, i)] && ArenaBlocks(p, d, 0) == []
  {
  }

  lemma ArenaParts(h: Heap, d: nat)
    requires Core(h) && PoolOk(h.pool) && d < DESCS
    ensures var i := GetPages(h.pool, false, 1).1;
            && (i == None ==> GetPages(h.pool, false, 1).0 == h.pool)
            && (i.Some? ==> Extents(h.arenas[i.value := Small(d, BlocksPerArena(d))]) == Extents(h.arenas) + {Extent(i.value, 1)})
  {
    var (q, i) := GetPages(h.pool, false, 1);
    GetPagesIsFirstFit(h.pool, false, 1);
    if i.Some? {
      CoreParts(h);
      hide Core, GetPages, BlocksPerArena;
      PagesTaken(h, 1, q, i.value, Small(d, BlocksPerArena(d)));
      ExtentsAdd(h.arenas, i.value, Small(d, BlocksPerArena(d)));
    }
  }

  lemma SmallParts(h: Heap, d: nat, size: nat, noise: seq<bv8>)
    requires HeapOk(h) && PoolOk(h.pool) && d == DescFor(size) < DESCS == |h.lists| && size > 0
    ensures var g := if h.lists[d] == [] then NewArena(h, d) else Some(h);
            && (g == None ==> Heaps.MallocSmall(h, d, size, noise) == (h, None))
            && (g.Some? ==>
                  && d < |g.value.lists| && g.value.lists[d] != []
                  && Scribbled(g.value, noise).lists == g.value.lists
                  && var (r, a) := TakeBlock(Scribbled(g.value, noise), d, size);
                     Heaps.MallocSmall(h, d, size, noise) == (r, Some(a)))
  {
    if h.lists[d] == [] {
      GetPagesIsFirstFit(h.pool, false, 1);
      NewArenaIs(h, d);
      var (q, i) := GetPages(h.pool, false, 1);
      if i.Some? {
        WithArenaIs(h, q, i.value, d);
      }
    }
    hide GetPages, HeapOk, TakeBlock, NewArena;
  }

  lemma SameSize(p: PoolState, q: PoolState)
    requires PoolOk(p) && |q.bytes| == |p.bytes| && |q.used| == |p.used|
    ensures PoolOk(q)
  {
  }

  lemma OneExtent(h: Heap, p: nat)
    requires Core(h) && p in h.arenas
    ensures var n := PageCnt(h.arenas[p]);
            Extent(p, n) in Extents(h.arenas) && Extents(h.arenas - {p}) == Extents(h.arenas) - {Extent(p, n)} && n > 0
  {
    CoreHeld(h);
    ArenaExtent(h, p);
    ExtentsRemove(h.arenas, p);
  }

  lemma PageNumber(base: nat, p: nat)
    ensures (base + p * PGSIZE - base) / PGSIZE == p
  {
    PageOf(p, 0);
  }

  lemma WithBigIs(h: Heap, q: PoolState, p: nat, n: nat, size: nat)
    ensures WithBig(h, q, p, n, size) == Heap(q, h.arenas[p := Big(n)], h.lists, h.live[p * PGSIZE + HEADER := size])
  {
  }

  lemma TornIs(h: Heap, p: nat, d: nat)
    requires PoolOk(h.pool) && p < |h.pool.used| && d < |h.lists|
    ensures Heaps.TearDown(h, p, d) ==
            Heap(FreePages(h.pool, p, 1), h.arenas - {p}, h.lists[d := WithoutBlocks(h.lists[d], p, d, BlocksPerArena(d))], h.live)
  {
    hide FreePages, WithoutBlocks, BlocksPerArena;
  }

  lemma FreedBigIs(h: Heap, a: nat, p: nat, n: nat)
    requires PoolOk(h.pool) && p + n <= |h.pool.used|
    ensures Heaps.FreeBig(h, a, p, n) == Heap(FreePages(h.pool, p, n), h.arenas - {p}, h.lists, h.live - {a})
  {
    hide FreePages;
  }

  lemma WithoutMore(s: seq<nat>, p: nat, d: nat, i: nat)
    ensures WithoutBlocks(s, p, d, i + 1) == Without(WithoutBlocks(s, p, d, i), BlockAddr(p, d, i))
            && WithoutBlocks(s, p, d, 0) == s
  {
    hide Without, BlockAddr;
  }

  lemma CapacityOf(h: Heap, a: nat)
    requires HeapOk(h) && a in h.live
    ensures a / PGSIZE in h.arenas
    ensures match h.arenas[a / PGSIZE]
            case Small(d, _) => d < DESCS && Capacity(h, a) == BlockSize(d)
            case Big(n) => Capacity(h, a) == PGSIZE * n - a % PGSIZE
  {
    assert LiveOk(h.arenas, a, h.live[a]);
  }

  lemma MovedIs(h: Heap, b: nat, a: nat, n: nat)
    requires a + n <= |h.pool.bytes| && b + n <= |h.pool.bytes|
    ensures Moved(h, b, a, n) == Heap(PoolState(h.pool.used, Copy(h.pool.bytes, b, a, n)), h.arenas, h.lists, h.live)
  {
  }
}

/** `realloc`: the contents move with the block. */
module HeapRealloc {
  import opened Basics
  import opened Maps = Bitmap
  import opened Palloc
  import opened Blocks
  import opened Heaps
  import opened HeapInv
  import opened HeapSteps
  import opened HeapRuns

  /** The block to be resized is live, and what it holds has room in the new block, if there will be one: in the
      single page of a request that wraps around, a block larger than that page has none. */
  ghost predicate MayResize(h: Heap, was: Option<nat>, size: nat) {
    && size < WORD
    && (was.Some? ==>
          && was.value in h.live && was.value / PGSIZE in h.arenas
          && (Fits(size) || Capacity(h, was.value) <= PGSIZE - HEADER || forall i :: !AllAre(h.pool.used, i, 1, false)))
  }

  /** `realloc` copies into its new block alone exactly when it may. */
  lemma CopyFitsIff(h: Heap, a: nat, size: nat, noise: seq<bv8>)
    requires HeapOk(h) && a in h.live && 0 < size < WORD
    ensures a / PGSIZE in h.arenas && PoolOk(h.pool) && |h.lists| == DESCS
    ensures var (g, b) := Malloc(h, size, noise);
            && a / PGSIZE in g.arenas
            && (b.Some? ==> b.value / PGSIZE in g.arenas)
            && ((b == None || Min(size, Capacity(g, a)) <= Capacity(g, b.value)) <==> MayResize(h, Some(a), size))
  {
    MallocKeeps(h, size, noise);
    BlockFits(h, a);
    var (g, b) := Malloc(h, size, noise);
    BlockFits(g, a);
    hide HeapOk, Kept, Malloc, Capacity, PoolOk, NoRoom, BigPages, Fits;
    if Fits(size) {
      if b.Some? {
        BlockFits(g, b.value);
        GrantsAll(size);
      }
    } else {
      WrapsToOnePage(h, size, noise);
      if b.Some? {
        OtherCapacity(h, a, size, noise);
        LargerThanAPage(size);
      }
    }
  }

  lemma GrantsAll(size: nat)
    requires Fits(size)
    ensures Granted(size) == size
  {
  }

  lemma LargerThanAPage(size: nat)
    requires !Fits(size)
    ensures size > PGSIZE
  {
  }

  /** A big block changes no other block's size. */
  lemma OtherCapacity(h: Heap, a: nat, size: nat, noise: seq<bv8>)
    requires HeapOk(h) && a in h.live && a / PGSIZE in h.arenas && PGSIZE < size < WORD
    requires PoolOk(h.pool) && |h.lists| == DESCS
    ensures var (g, b) := Malloc(h, size, noise); a / PGSIZE in g.arenas && Capacity(g, a) == Capacity(h, a)
  {
    var n := BigPages(size);
    var (q, i) := GetPages(h.pool, false, n);
    HeapIsCore(h);
    if i.Some? {
      MallocBigIs(h, n, Granted(size), noise, q, i.value);
      CoreParts(h);
      hide HeapOk, Core, GetPages, BigPages, Granted, Scribble, MallocBig, PoolOk;
      PagesTaken(h, n, q, i.value, Big(n));
    }
    hide GetPages;
  }

  lemma CopyFits(h: Heap, a: nat, size: nat, noise: seq<bv8>)
    requires HeapOk(h) && size > 0 && MayResize(h, Some(a), size) && PoolOk(h.pool) && |h.lists| == DESCS
    requires Malloc(h, size, noise).1.Some?
    ensures var (g, b) := Malloc(h, size, noise);
            && a / PGSIZE in g.arenas && b.value / PGSIZE in g.arenas
            && Min(size, Capacity(g, a)) <= Capacity(g, b.value)
  {
    CopyFitsIff(h, a, size, noise);
    hide *;
  }

  /** `realloc`; a null pointer is `None`. */
  function Realloc(h: Heap, was: Option<nat>, size: nat, noise: seq<bv8>, noise2: seq<bv8>): (Heap, Option<nat>)
    requires HeapOk(h) && MayResize(h, was, size)
  {
    if size == 0 then
      if was == None then (h, None)
      else FreeKeeps(h, was.value, noise2); (Free(h, was.value, noise2), None)
    else
      MallocKeeps(h, size, noise);
      var (g, b) := Malloc(h, size, noise);
      if was == None || b == None then (g, b)
      else
        BlockFits(g, was.value);
        BlockFits(g, b.value);
        CopyFits(h, was.value, size, noise);
        var n := Min(size, Capacity(g, was.value));
        MovedKeeps(g, b.value, was.value, n);
        FreeKeeps(Moved(g, b.value, was.value, n), was.value, noise2);
        (Free(Moved(g, b.value, was.value, n), was.value, noise2), b)
  }

  /** Every live block but `b` keeps its bytes. */
  ghost predicate KeptBut(h: Heap, r: Heap, b: nat) {
    && |r.pool.bytes| == |h.pool.bytes|
    && forall a, i :: a in h.live && a in r.live && a != b && InBlock(h, a, i) ==>
                        InBlock(r, a, i) && 0 <= i < |h.pool.bytes| && r.pool.bytes[i] == h.pool.bytes[i]
  }

  ghost predicate SameBytes(to: seq<bv8>, b: nat, from: seq<bv8>, a: nat, n: nat) {
    b + n <= |to| && a + n <= |from| && to[b..b + n] == from[a..a + n]
  }

  /** Copying into one live block. */
  lemma MovedKeeps(h: Heap, b: nat, a: nat, n: nat)
    requires HeapOk(h) && a in h.live && b in h.live && a / PGSIZE in h.arenas && b / PGSIZE in h.arenas
    requires n <= Capacity(h, a) && n <= Capacity(h, b)
    ensures a + n <= |h.pool.bytes| && b + n <= |h.pool.bytes|
    ensures var m := Moved(h, b, a, n);
            HeapOk(m) && KeptBut(h, m, b) && m.live == h.live && m.arenas == h.arenas && SameBytes(m.pool.bytes, b, h.pool.bytes, a, n)
  {
    BlockFits(h, a);
    BlockFits(h, b);
    MovedBytes(h, b, a, n);
    hide *;
    HeapIsCore(h);
    var m := Moved(h, b, a, n);
    BytesDoNotMatter(h, m.pool.bytes);
    BytesWritten(h, m, b, b, n);
    HeapIntro(m);
  }

  lemma MovedBytes(h: Heap, b: nat, a: nat, n: nat)
    requires a + n <= |h.pool.bytes| && b + n <= |h.pool.bytes|
    ensures var m := Moved(h, b, a, n);
            && m == h.(pool := h.pool.(bytes := m.pool.bytes)) && |m.pool.bytes| == |h.pool.bytes|
            && SameBytes(m.pool.bytes, b, h.pool.bytes, a, n)
            && forall i :: 0 <= i < |h.pool.bytes| && !(b <= i < b + n) ==> m.pool.bytes[i] == h.pool.bytes[i]
  {
  }

  /** Bytes written inside one live block. */
  lemma BytesWritten(h: Heap, m: Heap, b: nat, at: nat, n: nat)
    requires HeapOk(h) && b in h.live && b / PGSIZE in h.arenas && b <= at && at + n <= b + Capacity(h, b)
    requires m == h.(pool := h.pool.(bytes := m.pool.bytes)) && |m.pool.bytes| == |h.pool.bytes|
    requires forall i :: 0 <= i < |h.pool.bytes| && !(at <= i < at + n) ==> m.pool.bytes[i] == h.pool.bytes[i]
    ensures KeptBut(h, m, b)
  {
    HeapIsCore(h);
    BlockFits(h, b);
    forall a, i | a in h.live && a != b && InBlock(h, a, i)
      ensures InBlock(m, a, i) && 0 <= i < |h.pool.bytes| && m.pool.bytes[i] == h.pool.bytes[i]
    {
      SameCapacity(h, m, a);
      hide HeapOk, Core, Capacity;
      InBlockIsNat(h, a, i);
      BlockLies(h, a, i);
      if at <= i < at + n {
        LiveBlocksAreDisjoint(h, a, b, i);
      }
    }
  }

  /** What `realloc` promises: the bytes of the old block move along, as far as the new size wants them, and every
      other block stays as it is.  Without room it fails, nothing changes and the old block stays live. */
  ghost predicate Reallocated(h: Heap, was: Option<nat>, size: nat, r: Heap, b: Option<nat>) {
    && HeapOk(r) && Kept(h, r) && |h.lists| == DESCS && (b == None <==> size == 0 || NoRoom(h, size))
    && match b
       case None => if size == 0 && was.Some? then r.live == h.live - {was.value} else r == h
       case Some(x) =>
         && x !in h.live
         && match was
            case None => r.live == h.live[x := Granted(size)]
            case Some(a) =>
              && r.live == h.live[x := Granted(size)] - {a}
              && a in h.live && a / PGSIZE in h.arenas && Capacity(h, a) >= h.live[a]
              && SameBytes(r.pool.bytes, x, h.pool.bytes, a, Min(size, Capacity(h, a)))
  }

  lemma ReallocKeeps(h: Heap, was: Option<nat>, size: nat, noise: seq<bv8>, noise2: seq<bv8>)
    requires HeapOk(h) && MayResize(h, was, size)
    ensures var (r, b) := Realloc(h, was, size, noise, noise2); Reallocated(h, was, size, r, b)
  {
    hide HeapOk, Kept, Fits, Granted, Malloc, Free, KeptBut, SameBytes, Moved, MayResize, NoRoom, PoolOk;
    Resizes(h, was, size);
    DescsCount(h);
    if size == 0 {
      if was.Some? {
        FreeKeeps(h, was.value, noise2);
      } else {
        NothingAllocated(h, 0);
      }
    } else {
      MallocKeeps(h, size, noise);
      var (g, b) := Malloc(h, size, noise);
      if was.Some? && b.Some? {
        BlockFits(g, was.value);
        BlockFits(g, b.value);
        CopyFits(h, was.value, size, noise);
        var n := Min(size, Capacity(g, was.value));
        hide Capacity;
        MovedKeeps(g, b.value, was.value, n);
        var m := Moved(g, b.value, was.value, n);
        FreeKeeps(m, was.value, noise2);
        MovesContents(h, g, m, Free(m, was.value, noise2), was.value, b.value, size, n);
      }
    }
  }

  lemma DescsCount(h: Heap)
    requires HeapOk(h)
    ensures |h.lists| == DESCS
  {
    HeapIsCore(h);
  }

  lemma Resizes(h: Heap, was: Option<nat>, size: nat)
    requires MayResize(h, was, size)
    ensures size < WORD && (was.Some? ==> was.value in h.live)
  {
  }

  lemma MovesContents(h: Heap, g: Heap, m: Heap, r: Heap, a: nat, b: nat, size: nat, n: nat)
    requires HeapOk(h) && a in h.live && b !in h.live && HeapOk(g) && Kept(h, g) && g.live == h.live[b := Granted(size)]
    requires |h.lists| == DESCS && size > 0 && !NoRoom(h, size)
    requires a / PGSIZE in g.arenas && b / PGSIZE in g.arenas && n == Min(size, Capacity(g, a)) <= Capacity(g, b)
    requires HeapOk(m) && KeptBut(g, m, b) && m.live == g.live && m.arenas == g.arenas
             && SameBytes(m.pool.bytes, b, g.pool.bytes, a, n)
    requires Released(m, a, r)
    ensures Reallocated(h, Some(a), size, r, Some(b))
  {
    hide HeapOk, Kept, KeptBut, SameBytes, Capacity, NoRoom;
    KeptAround(h, g, m, r, a, b);
    BlockFits(h, a);
    BlockFits(g, a);
    BlockFits(g, b);
    BlockFits(m, b);
    NotSmaller(h, g, a);
    var k := Min(size, Capacity(h, a));
    SameCapacity(g, m, b);
    FirstBytes(h, g, a, k);
    FirstBytes(m, r, b, k);
    SameTrans(r, m, g, h, a, b, k, n);
  }

  lemma NotSmaller(h: Heap, g: Heap, a: nat)
    requires HeapOk(h) && HeapOk(g) && Kept(h, g) && a in h.live && a in g.live
    ensures a / PGSIZE in h.arenas && a / PGSIZE in g.arenas && Capacity(h, a) <= Capacity(g, a)
  {
    BlockFits(h, a);
    BlockFits(g, a);
    hide HeapOk, InBlock, Capacity;
    assert InBlock(h, a, a + Capacity(h, a) - 1);
  }

  /** All blocks but the old and the new one. */
  lemma KeptAround(h: Heap, g: Heap, m: Heap, r: Heap, a: nat, b: nat)
    requires Kept(h, g) && KeptBut(g, m, b) && Kept(m, r) && b !in h.live
    requires (forall c :: c in h.live ==> c in g.live) && (forall c :: c in g.live <==> c in m.live)
    ensures Kept(h, r)
  {
    hide InBlock;
  }

  lemma FirstBytes(h: Heap, r: Heap, a: nat, k: nat)
    requires HeapOk(h) && Kept(h, r) && a in h.live && a in r.live && a / PGSIZE in h.arenas && k <= Capacity(h, a)
    ensures SameBytes(r.pool.bytes, a, h.pool.bytes, a, k)
  {
    BlockFits(h, a);
    hide HeapOk, InBlock, Capacity;
    forall i | a <= i < a + k ensures r.pool.bytes[i] == h.pool.bytes[i] {
      assert InBlock(h, a, i);
    }
  }

  lemma FirstPart(s: seq<bv8>, at: nat, k: nat, n: nat)
    requires k <= n && at + n <= |s|
    ensures s[at..at + k] == s[at..at + n][..k]
  {
  }

  lemma SameTrans(r: Heap, m: Heap, g: Heap, h: Heap, a: nat, b: nat, k: nat, n: nat)
    requires SameBytes(r.pool.bytes, b, m.pool.bytes, b, k) && SameBytes(m.pool.bytes, b, g.pool.bytes, a, n)
             && SameBytes(g.pool.bytes, a, h.pool.bytes, a, k)
    requires k <= n
    ensures SameBytes(r.pool.bytes, b, h.pool.bytes, a, k)
  {
    FirstPart(m.pool.bytes, b, k, n);
    FirstPart(g.pool.bytes, a, k, n);
  }
}

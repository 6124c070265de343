/** `calloc`: a block of zeros. */
module HeapCalloc {
  import opened Basics
  import opened Maps = Bitmap
  import opened Palloc
  import opened Blocks
  import opened Heaps
  import opened HeapInv
  import opened HeapSteps
  import opened HeapRuns
  import opened HeapRealloc

  /** `memset` to 0. */
  function Zeroed(h: Heap, at: nat, n: nat): Heap
    requires at + n <= |h.pool.bytes|
  {
    h.(pool := h.pool.(bytes := Fill(h.pool.bytes, at, n, 0)))
  }

  /** What is zeroed lies in the block, if there will be one. */
  ghost predicate MayZero(h: Heap, a: nat, b: nat) {
    CallocAccepts(a, b) ==> Fits(CallocSize(a, b)) || NoRun(h.pool.used, 1)
  }

  /** `calloc` zeroes its new block alone exactly when it may. */
  lemma ZeroFitsIff(h: Heap, a: nat, b: nat, noise: seq<bv8>)
    requires HeapOk(h)
    ensures PoolOk(h.pool) && |h.lists| == DESCS
    ensures var (g, x) := Calloc(h, a, b, noise);
            && (x.Some? ==> x.value / PGSIZE in g.arenas)
            && ((x == None || CallocSize(a, b) <= Capacity(g, x.value)) <==> MayZero(h, a, b))
  {
    HeapIsCore(h);
    MallocPromiseIff(h, CallocSize(a, b), noise);
    hide HeapOk, Malloc, CallocSize, Fits, PoolOk, Capacity;
  }

  /** The whole of `calloc`. */
  function CallocZeroed(h: Heap, a: nat, b: nat, noise: seq<bv8>): (Heap, Option<nat>)
    requires HeapOk(h) && MayZero(h, a, b)
  {
    ZeroFitsIff(h, a, b, noise);
    var (g, x) := Calloc(h, a, b, noise);
    if x == None then (g, x)
    else CallocedFits(h, a, b, noise); (Zeroed(g, x.value, CallocSize(a, b)), x)
  }

  lemma CallocedFits(h: Heap, a: nat, b: nat, noise: seq<bv8>)
    requires HeapOk(h) && MayZero(h, a, b) && PoolOk(h.pool) && |h.lists| == DESCS
    ensures var (g, x) := Calloc(h, a, b, noise);
            x.Some? ==> HeapOk(g) && x.value in g.live && x.value / PGSIZE in g.arenas
                        && CallocSize(a, b) <= Capacity(g, x.value) && x.value + CallocSize(a, b) <= |g.pool.bytes|
  {
    ZeroFitsIff(h, a, b, noise);
    MallocKeeps(h, CallocSize(a, b), noise);
    hide HeapOk, Malloc, CallocSize, MayZero, PoolOk, Capacity, Kept, NoRoom;
    var (g, x) := Calloc(h, a, b, noise);
    if x.Some? {
      BlockFits(g, x.value);
    }
  }

  /** What `calloc` promises: `s` zeros in a new block, every other block as it is, or nothing at all. */
  ghost predicate Calloced(h: Heap, s: nat, r: Heap, x: Option<nat>) {
    && Allocated(h, Granted(s), r, x)
    && (x.Some? ==> x.value + s <= |r.pool.bytes| && forall i :: x.value <= i < x.value + s ==> r.pool.bytes[i] == 0)
  }

  /** `calloc` fails exactly for a product that is below a factor, or 0, or finds no room. */
  lemma CallocKeeps(h: Heap, a: nat, b: nat, noise: seq<bv8>)
    requires HeapOk(h) && MayZero(h, a, b)
    ensures |h.lists| == DESCS
    ensures var (r, x), s := CallocZeroed(h, a, b, noise), a * b % WORD;
            Calloced(h, s, r, x) && (x == None <==> s < a || s < b || s == 0 || NoRoom(h, s))
  {
    HeapIsCore(h);
    var s := CallocSize(a, b);
    assert s == a * b % WORD;
    hide HeapOk, Malloc, CallocSize, MayZero, PoolOk, Capacity, Kept, NoRoom, Zeroed, Calloced, Granted;
    MallocKeeps(h, s, noise);
    CallocedFits(h, a, b, noise);
    var (g, x) := Calloc(h, a, b, noise);
    if x.Some? {
      ZeroedKeeps(h, g, x.value, Granted(s), s);
    } else {
      NothingCalloced(h, s);
    }
  }

  lemma NothingCalloced(h: Heap, s: nat)
    requires HeapOk(h)
    ensures Calloced(h, s, h, None)
  {
    NothingAllocated(h, Granted(s));
  }

  lemma ZeroedKeeps(h: Heap, g: Heap, x: nat, granted: nat, s: nat)
    requires Allocated(h, granted, g, Some(x)) && granted == Granted(s)
    requires x / PGSIZE in g.arenas && s <= Capacity(g, x) && x + s <= |g.pool.bytes|
    ensures Calloced(h, s, Zeroed(g, x, s), Some(x))
  {
    var r := Zeroed(g, x, s);
    HeapIsCore(g);
    BytesDoNotMatter(g, r.pool.bytes);
    hide HeapOk, Core, Capacity, Kept, KeptBut, Granted;
    HeapIntro(r);
    BytesWritten(g, r, x, x, s);
    KeptOthers(h, g, r, x);
  }

  lemma KeptOthers(h: Heap, g: Heap, r: Heap, x: nat)
    requires Kept(h, g) && KeptBut(g, r, x) && x !in h.live && r.live == g.live && forall c :: c in h.live ==> c in g.live
    ensures Kept(h, r)
  {
    hide InBlock;
  }
}

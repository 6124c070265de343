/** Every history of the heap, with the client writing into its blocks. */
module HeapHistories {
  import opened Basics
  import opened Maps = Bitmap
  import opened Palloc
  import opened Blocks
  import opened Heaps
  import opened HeapInv
  import opened HeapSteps
  import opened HeapRuns
  import opened HeapRealloc

  datatype HeapOp =
    | MallocOp(size: nat, noise: seq<bv8>)
    | FreeOp(a: nat, noise: seq<bv8>)
    | ReallocOp(was: Option<nat>, size: nat, noise: seq<bv8>, noise2: seq<bv8>)
    | WriteOp(a: nat, k: nat, v: bv8)

  /** Any request, blocks that are live, and writes inside what was granted. */
  ghost predicate MayDo(h: Heap, op: HeapOp) {
    match op
    case MallocOp(size, _) => size < WORD
    case FreeOp(a, _) => a in h.live
    case ReallocOp(was, size, _, _) => MayResize(h, was, size)
    case WriteOp(a, k, _) => a in h.live && k < h.live[a]
  }

  ghost function Write(h: Heap, i: nat, v: bv8): Heap {
    if i < |h.pool.bytes| then h.(pool := h.pool.(bytes := h.pool.bytes[i := v])) else h
  }

  ghost function Done(h: Heap, op: HeapOp): Heap
    requires HeapOk(h) && MayDo(h, op)
  {
    match op
    case MallocOp(size, noise) => HeapIsCore(h); Malloc(h, size, noise).0
    case FreeOp(a, noise) => FreeKeeps(h, a, noise); Free(h, a, noise)
    case ReallocOp(was, size, noise, noise2) => Realloc(h, was, size, noise, noise2).0
    case WriteOp(a, k, v) => Write(h, a + k, v)
  }

  lemma WriteKeeps(h: Heap, a: nat, k: nat, v: bv8)
    requires HeapOk(h) && a in h.live && k < h.live[a]
    ensures var w := Write(h, a + k, v);
            && HeapOk(w) && w.live == h.live && KeptBut(h, w, a)
            && a + k < |h.pool.bytes| && w.pool.bytes == h.pool.bytes[a + k := v]
  {
    BlockFits(h, a);
    HeapIsCore(h);
    var w := Write(h, a + k, v);
    hide HeapOk, Core, Capacity, KeptBut;
    BytesDoNotMatter(h, w.pool.bytes);
    HeapIntro(w);
    BytesWritten(h, w, a, a + k, 1);
  }

  /** Which block the client writes to, if any. */
  ghost predicate Writes(op: HeapOp, a: nat) {
    op.WriteOp? && op.a == a
  }

  /** The block is as large as it was, and holds the same bytes. */
  ghost predicate Lasting(h: Heap, r: Heap, a: nat) {
    a in h.live && a in r.live && r.live[a] == h.live[a] && SameBytes(r.pool.bytes, a, h.pool.bytes, a, h.live[a])
  }

  lemma KeptLasts(h: Heap, r: Heap, a: nat)
    requires HeapOk(h) && Kept(h, r) && a in h.live && a in r.live && r.live[a] == h.live[a]
    ensures Lasting(h, r, a)
  {
    BlockFits(h, a);
    hide HeapOk, Kept, SameBytes;
    FirstBytes(h, r, a, h.live[a]);
  }

  lemma SameLength(h: Heap, r: Heap, b: nat)
    requires KeptBut(h, r, b)
    ensures |r.pool.bytes| == |h.pool.bytes|
  {
  }

  lemma OtherByte(h: Heap, r: Heap, b: nat, a: nat, i: int)
    requires KeptBut(h, r, b) && a in h.live && a in r.live && a != b && InBlock(h, a, i)
    ensures 0 <= i < |h.pool.bytes| == |r.pool.bytes| && r.pool.bytes[i] == h.pool.bytes[i]
  {
    hide InBlock;
  }

  lemma LastsIntro(h: Heap, r: Heap, a: nat)
    requires a in h.live && a in r.live && r.live[a] == h.live[a] && a + h.live[a] <= |h.pool.bytes| == |r.pool.bytes|
    requires forall i :: a <= i < a + h.live[a] ==> r.pool.bytes[i] == h.pool.bytes[i]
    ensures Lasting(h, r, a)
  {
  }

  lemma WrittenLasts(h: Heap, r: Heap, b: nat, a: nat)
    requires HeapOk(h) && KeptBut(h, r, b) && a in h.live && a != b && r.live == h.live
    ensures Lasting(h, r, a)
  {
    hide *;
    BlockFits(h, a);
    SameLength(h, r, b);
    forall i | a <= i < a + h.live[a] ensures r.pool.bytes[i] == h.pool.bytes[i] {
      assert InBlock(h, a, i);
      OtherByte(h, r, b, a, i);
    }
    LastsIntro(h, r, a);
  }

  lemma DoneIsOk(h: Heap, op: HeapOp)
    requires HeapOk(h) && MayDo(h, op)
    ensures HeapOk(Done(h, op))
  {
    hide HeapOk, Kept, KeptBut, Malloc, Free, Realloc, MayResize, Granted, NoRoom, PoolOk, Write;
    match op {
      case MallocOp(size, noise) => MallocKeeps(h, size, noise);
      case FreeOp(a, noise) => FreeKeeps(h, a, noise);
      case ReallocOp(was, size, noise, noise2) => ReallocKeeps(h, was, size, noise, noise2);
      case WriteOp(a, k, v) => WriteKeeps(h, a, k, v);
    }
  }

  /** No operation changes a byte of a block that it neither frees nor writes. */
  lemma BlocksLast(h: Heap, op: HeapOp, a: nat)
    requires HeapOk(h) && MayDo(h, op) && a in h.live && a in Done(h, op).live && !Writes(op, a)
    ensures Lasting(h, Done(h, op), a)
  {
    hide HeapOk, Kept, KeptBut, Malloc, Free, Realloc, MayResize, Granted, NoRoom, PoolOk, Write, Lasting, SameBytes;
    match op {
      case MallocOp(size, noise) =>
        MallocKeeps(h, size, noise);
        KeptLasts(h, Done(h, op), a);
      case FreeOp(b, noise) =>
        FreeKeeps(h, b, noise);
        KeptLasts(h, Done(h, op), a);
      case ReallocOp(was, size, noise, noise2) =>
        ReallocKeeps(h, was, size, noise, noise2);
        KeptLasts(h, Done(h, op), a);
      case WriteOp(b, k, v) =>
        WriteKeeps(h, b, k, v);
        WrittenLasts(h, Done(h, op), b, a);
    }
  }

  // ---------------------------------------------------------------- whole histories

  ghost predicate IsHistory(hs: seq<Heap>, ops: seq<HeapOp>) {
    && |hs| == |ops| + 1
    && forall k :: 0 <= k < |ops| ==> MayDo(hs[k], ops[k]) && Follows(hs[k], ops[k], hs[k + 1])
  }

  /** `r` comes after `h`; it says nothing when `h` is broken, so that soundness of the heap is a theorem, not an
      assumption. */
  ghost predicate Follows(h: Heap, op: HeapOp, r: Heap)
    requires MayDo(h, op)
  {
    HeapOk(h) ==> r == Done(h, op)
  }

  /** All pages free, all lists empty. */
  ghost predicate Fresh(h: Heap) {
    && PoolOk(h.pool) && (forall i :: 0 <= i < |h.pool.used| ==> !h.pool.used[i])
    && h.arenas == map[] && h.live == map[] && |h.lists| == DESCS && forall d :: 0 <= d < DESCS ==> h.lists[d] == []
  }

  lemma FreshIsOk(h: Heap)
    requires Fresh(h)
    ensures HeapOk(h)
  {
    assert Extents(h.arenas) == {};
  }

  lemma {:induction false} HeapStaysOk(hs: seq<Heap>, ops: seq<HeapOp>, n: nat)
    requires IsHistory(hs, ops) && Fresh(hs[0]) && n < |hs|
    ensures HeapOk(hs[n])
  {
    if n == 0 {
      FreshIsOk(hs[0]);
    } else {
      hide HeapOk, MayDo, Done;
      HeapStaysOk(hs, ops, n - 1);
      DoneIsOk(hs[n - 1], ops[n - 1]);
    }
  }

  /** A block keeps its bytes for as long as it is live and its owner does not write to it, whatever else goes on. */
  lemma {:induction false} ContentsPersist(hs: seq<Heap>, ops: seq<HeapOp>, m: nat, n: nat, a: nat)
    requires IsHistory(hs, ops) && Fresh(hs[0]) && m < n < |hs|
    requires forall k :: m <= k <= n ==> a in hs[k].live
    requires forall k :: m <= k < n ==> !Writes(ops[k], a)
    ensures Lasting(hs[m], hs[n], a)
  {
    hide MayDo, Done, SameBytes, Writes, HeapOk, Fresh, Lasting;
    HeapStaysOk(hs, ops, n - 1);
    assert MayDo(hs[n - 1], ops[n - 1]) && Follows(hs[n - 1], ops[n - 1], hs[n - 1 + 1]);
    assert !Writes(ops[n - 1], a) && a in hs[n - 1].live && a in hs[n].live;
    BlocksLast(hs[n - 1], ops[n - 1], a);
    if m < n - 1 {
      ContentsPersist(hs, ops, m, n - 1, a);
      LastingTrans(hs[m], hs[n - 1], hs[n], a);
    }
  }

  lemma LastingTrans(h: Heap, g: Heap, r: Heap, a: nat)
    requires Lasting(h, g, a) && Lasting(g, r, a)
    ensures Lasting(h, r, a)
  {
  }

  /** However blocks were obtained and freed, once none is live all pages are free and all free lists are empty. */
  lemma FreeingAllFreesAll(hs: seq<Heap>, ops: seq<HeapOp>, n: nat)
    requires IsHistory(hs, ops) && Fresh(hs[0]) && n < |hs| && hs[n].live == map[]
    ensures Fresh(hs[n])
  {
    HeapStaysOk(hs, ops, n);
    HeapIsCore(hs[n]);
    hide IsHistory, HeapOk;
    NothingLeaks(hs[n]);
  }
}

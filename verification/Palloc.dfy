/** The page allocator: runs of pages, lowest first, recorded in a bitmap. */
module Palloc {
  import opened Basics
  import opened Maps = Bitmap

  const PGSIZE: nat := 4096

  /** The pool's pages and their bytes, both counted from the pool's base. */
  datatype PoolState = PoolState(used: seq<bool>, bytes: seq<bv8>)

  datatype Extent = Extent(first: nat, cnt: nat)

  // ---------------------------------------------------------------- memory

  /** `memset`. */
  function Fill(bytes: seq<bv8>, at: nat, n: nat, v: bv8): (r: seq<bv8>)
    requires at + n <= |bytes|
    ensures |r| == |bytes| && forall i :: 0 <= i < |bytes| ==> r[i] == if at <= i < at + n then v else bytes[i]
  {
    bytes[..at] + seq(n, _ => v) + bytes[at + n..]
  }

  ghost predicate PoolOk(p: PoolState) {
    |p.bytes| == |p.used| * PGSIZE
  }

  lemma PageFits(p: PoolState, first: nat, n: nat)
    requires PoolOk(p) && first + n <= |p.used|
    ensures first * PGSIZE + n * PGSIZE <= |p.bytes|
  {
  }

  // ---------------------------------------------------------------- what the operations do

  function FindRun(used: seq<bool>, from: nat, n: nat): Option<nat>
    decreases |used| - from
  {
    if from + n > |used| then None
    else if forall i :: from <= i < from + n ==> !used[i] then Some(from)
    else FindRun(used, from + 1, n)
  }

  lemma {:induction false} FindRunIsFirst(used: seq<bool>, from: nat, n: nat)
    ensures IsFirstRun(used, from, n, false, FindRun(used, from, n))
    decreases |used| - from
  {
    if from + n <= |used| && !forall i :: from <= i < from + n ==> !used[i] {
      FindRunIsFirst(used, from + 1, n);
    }
  }

  function GetPages(p: PoolState, zero: bool, n: nat): (r: (PoolState, Option<nat>))
    requires PoolOk(p)
  {
    if n == 0 then (p, None) else
    FindRunIsFirst(p.used, 0, n);
    match FindRun(p.used, 0, n)
    case None => (p, None)
    case Some(i) =>
      PageFits(p, i, n);
      (PoolState(Filled(p.used, i, n, true), if zero then Fill(p.bytes, i * PGSIZE, n * PGSIZE, 0) else p.bytes), Some(i))
  }

  /** Freed pages are filled with 0xcc. */
  function FreePages(p: PoolState, first: nat, n: nat): PoolState
    requires PoolOk(p) && first + n <= |p.used|
  {
    PageFits(p, first, n);
    PoolState(Filled(p.used, first, n, false), Fill(p.bytes, first * PGSIZE, n * PGSIZE, 0xcc))
  }

  lemma GetPagesIsFirstFit(p: PoolState, zero: bool, n: nat)
    requires PoolOk(p)
    ensures var (q, r) := GetPages(p, zero, n);
            && PoolOk(q) && |q.used| == |p.used|
            && (r.Some? <==> n > 0 && exists i :: AllAre(p.used, i, n, false))
            && (r.Some? ==> AllAre(p.used, r.value, n, false) && forall j :: 0 <= j < r.value ==> !AllAre(p.used, j, n, false))
            && (forall i :: 0 <= i < |p.used| ==> q.used[i] == if r.Some? && r.value <= i < r.value + n then true else p.used[i])
            && (r.None? ==> q == p)
  {
    FindRunIsFirst(p.used, 0, n);
    hide FindRun;
    var r := FindRun(p.used, 0, n);
    if n > 0 && r.Some? {
      PageFits(p, r.value, n);
    }
  }

  /** Byte `i` lies in `n` pages from page `first` on. */
  predicate OnPages(i: nat, first: nat, n: nat) {
    first * PGSIZE <= i < (first + n) * PGSIZE
  }

  /** Pages obtained with PAL_ZERO hold zeros; no other byte changes, and without it none does. */
  lemma PagesAreZeroed(p: PoolState, zero: bool, n: nat, i: nat)
    requires PoolOk(p) && i < |p.bytes|
    ensures var (q, r) := GetPages(p, zero, n);
            && |q.bytes| == |p.bytes|
            && q.bytes[i] == if zero && r.Some? && OnPages(i, r.value, n) then 0 else p.bytes[i]
  {
    FindRunIsFirst(p.used, 0, n);
    hide FindRun;
    var r := FindRun(p.used, 0, n);
    if n > 0 && r.Some? {
      PageFits(p, r.value, n);
    }
  }

  /** Freed pages hold 0xcc; no other byte changes, and their bits and no others are cleared. */
  lemma FreedPagesAreFilled(p: PoolState, first: nat, n: nat, i: nat)
    requires PoolOk(p) && first + n <= |p.used| && i < |p.bytes|
    ensures var q := FreePages(p, first, n);
            && |q.bytes| == |p.bytes| && q.bytes[i] == (if OnPages(i, first, n) then 0xcc else p.bytes[i])
            && |q.used| == |p.used| && forall k :: 0 <= k < |p.used| ==> q.used[k] == (p.used[k] && !(first <= k < first + n))
  {
    PageFits(p, first, n);
  }

  // ---------------------------------------------------------------- who holds what

  ghost predicate Covers(e: Extent, i: int) {
    e.first <= i < e.first + e.cnt
  }

  /** The extents handed out and not given back are disjoint, and their union is exactly the set bits. */
  ghost predicate HeldOk(used: seq<bool>, held: set<Extent>) {
    && (forall e :: e in held ==> e.cnt > 0 && e.first + e.cnt <= |used|)
    && (forall e, f, i :: e in held && f in held && Covers(e, i) && Covers(f, i) ==> e == f)
    && (forall i :: 0 <= i < |used| ==> (used[i] <==> exists e :: e in held && Covers(e, i)))
  }

  datatype PoolOp = Obtain(zero: bool, cnt: nat) | GiveUp(e: Extent)

  datatype Holding = Holding(pool: PoolState, held: set<Extent>)

  /** What the client owes: the pages it gives back are in use.  They need not be one extent as it was handed out. */
  ghost predicate Legal(h: Holding, op: PoolOp) {
    op.GiveUp? && op.e.cnt > 0 ==> AllAre(h.pool.used, op.e.first, op.e.cnt, true)
  }

  /** What is left of `e` on either side of `x`. */
  ghost function Left(e: Extent, x: Extent): Extent {
    Extent(e.first, if x.first <= e.first then 0 else if x.first - e.first < e.cnt then x.first - e.first else e.cnt)
  }

  ghost function Right(e: Extent, x: Extent): Extent {
    var at := if x.first + x.cnt < e.first then e.first else x.first + x.cnt;
    Extent(at, if at < e.first + e.cnt then e.first + e.cnt - at else 0)
  }

  ghost function Carved(held: set<Extent>, x: Extent): set<Extent> {
    if x.cnt == 0 then held
    else (set e | e in held && Left(e, x).cnt > 0 :: Left(e, x)) + (set e | e in held && Right(e, x).cnt > 0 :: Right(e, x))
  }

  ghost function After(h: Holding, op: PoolOp): Holding
    requires PoolOk(h.pool) && Legal(h, op)
  {
    match op
    case Obtain(zero, n) =>
      (match GetPages(h.pool, zero, n)
       case (q, None) => Holding(q, h.held)
       case (q, Some(i)) => Holding(q, h.held + {Extent(i, n)}))
    case GiveUp(e) => if e.cnt == 0 then h else Holding(FreePages(h.pool, e.first, e.cnt), Carved(h.held, e))
  }

  lemma GetKeepsHeld(h: Holding, zero: bool, n: nat)
    requires PoolOk(h.pool) && HeldOk(h.pool.used, h.held)
    ensures var a := After(h, Obtain(zero, n)); PoolOk(a.pool) && HeldOk(a.pool.used, a.held) && |a.pool.used| == |h.pool.used|
  {
    GetPagesIsFirstFit(h.pool, zero, n);
    hide GetPages;
    var (q, r) := GetPages(h.pool, zero, n);
    if r.Some? {
      TakenIsHeld(h.pool.used, q.used, h.held, Extent(r.value, n));
    }
  }

  lemma TakenIsHeld(used: seq<bool>, now: seq<bool>, held: set<Extent>, x: Extent)
    requires HeldOk(used, held) && x.cnt > 0 && x.first + x.cnt <= |used| == |now|
    requires forall i :: 0 <= i < |used| ==> now[i] == (Covers(x, i) || used[i])
    requires forall i :: x.first <= i < x.first + x.cnt ==> !used[i]
    ensures HeldOk(now, held + {x})
  {
    var more := held + {x};
    forall e, i | e in held && Covers(e, i) ensures !Covers(x, i) {
      assert used[i];
    }
    forall i | 0 <= i < |now| ensures now[i] <==> exists e :: e in more && Covers(e, i) {
      assert x in more;
      if used[i] {
        var e :| e in held && Covers(e, i);
        assert e in more;
      }
    }
  }

  lemma FreeKeepsHeld(h: Holding, e: Extent)
    requires PoolOk(h.pool) && HeldOk(h.pool.used, h.held) && Legal(h, GiveUp(e))
    ensures var a := After(h, GiveUp(e));
            PoolOk(a.pool) && HeldOk(a.pool.used, a.held) && |a.pool.used| == |h.pool.used|
  {
    if e.cnt > 0 {
      PageFits(h.pool, e.first, e.cnt);
      var now := FreePages(h.pool, e.first, e.cnt).used;
      hide FreePages;
      GivenIsFree(h.pool.used, now, h.held, e);
    }
  }

  lemma GivenIsFree(used: seq<bool>, now: seq<bool>, held: set<Extent>, x: Extent)
    requires HeldOk(used, held) && x.cnt > 0 && |now| == |used|
    requires forall i :: 0 <= i < |used| ==> now[i] == (!Covers(x, i) && used[i])
    ensures HeldOk(now, Carved(held, x))
  {
    var less := Carved(held, x);
    forall f | f in less ensures f.cnt > 0 && f.first + f.cnt <= |now| {
      var e := PieceOf(held, x, f);
    }
    forall f, g, i | f in less && g in less && Covers(f, i) && Covers(g, i) ensures f == g {
      var d := PieceOf(held, x, f);
      var e := PieceOf(held, x, g);
      PieceCovers(x, d, f, i);
      PieceCovers(x, e, g, i);
    }
    hide HeldOk, Carved;
    forall i | 0 <= i < |now| ensures now[i] <==> exists f :: f in less && Covers(f, i) {
      CarvedCovers(used, held, x, i);
    }
    HeldIntro(now, less);
  }

  /** The extent that a piece comes from. */
  lemma PieceOf(held: set<Extent>, x: Extent, f: Extent) returns (e: Extent)
    requires f in Carved(held, x) && x.cnt > 0
    ensures e in held && f.cnt > 0 && (f == Left(e, x) || f == Right(e, x))
  {
    if e :| e in held && Left(e, x).cnt > 0 && f == Left(e, x) {
      return e;
    }
    e :| e in held && Right(e, x).cnt > 0 && f == Right(e, x);
  }

  lemma PieceCovers(x: Extent, e: Extent, f: Extent, i: int)
    requires x.cnt > 0 && Covers(f, i) && (f == Left(e, x) || f == Right(e, x))
    ensures Covers(e, i) && !Covers(x, i) && f == if i < x.first then Left(e, x) else Right(e, x)
  {
  }

  lemma CarvedCovers(used: seq<bool>, held: set<Extent>, x: Extent, i: nat)
    requires HeldOk(used, held) && x.cnt > 0 && i < |used|
    ensures used[i] && !Covers(x, i) <==> exists f :: f in Carved(held, x) && Covers(f, i)
  {
    if used[i] && !Covers(x, i) {
      var e :| e in held && Covers(e, i);
      var f := if i < x.first then Left(e, x) else Right(e, x);
      assert f in Carved(held, x) && Covers(f, i);
    }
    if f :| f in Carved(held, x) && Covers(f, i) {
      var e := PieceOf(held, x, f);
      PieceCovers(x, e, f, i);
    }
  }

  lemma NothingHeld(used: seq<bool>)
    requires forall i :: 0 <= i < |used| ==> !used[i]
    ensures HeldOk(used, {})
  {
  }

  lemma HeldIntro(used: seq<bool>, held: set<Extent>)
    requires forall e :: e in held ==> e.cnt > 0 && e.first + e.cnt <= |used|
    requires forall e, f, i :: e in held && f in held && Covers(e, i) && Covers(f, i) ==> e == f
    requires forall i :: 0 <= i < |used| ==> (used[i] <==> exists e :: e in held && Covers(e, i))
    ensures HeldOk(used, held)
  {
  }

  /** An extent given back as it was handed out leaves the others as they are. */
  lemma CarvedWhole(used: seq<bool>, held: set<Extent>, x: Extent)
    requires HeldOk(used, held) && x in held
    ensures AllAre(used, x.first, x.cnt, true) && Carved(held, x) == held - {x}
  {
    forall i | x.first <= i < x.first + x.cnt ensures used[i] {
      assert Covers(x, i);
    }
    forall e | e in held && e != x ensures e.cnt > 0 && (e.first + e.cnt <= x.first || x.first + x.cnt <= e.first) {
      assert Covers(e, e.first) && Covers(x, x.first);
      assert !Covers(x, e.first) && !Covers(e, x.first);
    }
    assert x.cnt > 0;
    hide HeldOk, Covers;
    CarvedApart(held, x);
  }

  lemma CarvedApart(held: set<Extent>, x: Extent)
    requires x.cnt > 0
    requires forall e :: e in held && e != x ==> e.cnt > 0 && (e.first + e.cnt <= x.first || x.first + x.cnt <= e.first)
    ensures Carved(held, x) == held - {x}
  {
    forall e | e in held && e != x ensures e in Carved(held, x) {
      assert e == Left(e, x) || e == Right(e, x);
    }
    forall f | f in Carved(held, x) ensures f in held - {x} {
      var e := PieceOf(held, x, f);
    }
  }

  /** `b` comes after `a`; it says nothing when `a` is broken, so that consistency is a theorem, not an assumption. */
  ghost predicate Follows(a: Holding, op: PoolOp, b: Holding)
    requires Legal(a, op)
  {
    PoolOk(a.pool) && HeldOk(a.pool.used, a.held) ==> b == After(a, op)
  }

  ghost predicate IsHistory(hs: seq<Holding>, ops: seq<PoolOp>) {
    && |hs| == |ops| + 1
    && forall k :: 0 <= k < |ops| ==> Legal(hs[k], ops[k]) && Follows(hs[k], ops[k], hs[k + 1])
  }

  /** Over every history that starts with all pages free. */
  lemma {:induction false} HistoriesAreConsistent(hs: seq<Holding>, ops: seq<PoolOp>, k: nat)
    requires IsHistory(hs, ops) && k < |hs| && PoolOk(hs[0].pool) && hs[0].held == {}
    requires forall i :: 0 <= i < |hs[0].pool.used| ==> !hs[0].pool.used[i]
    ensures PoolOk(hs[k].pool) && HeldOk(hs[k].pool.used, hs[k].held) && |hs[k].pool.used| == |hs[0].pool.used|
  {
    if k > 0 {
      HistoriesAreConsistent(hs, ops, k - 1);
      hide After, HeldOk, Legal;
      match ops[k - 1]
      case Obtain(zero, n) => GetKeepsHeld(hs[k - 1], zero, n);
      case GiveUp(e) => FreeKeepsHeld(hs[k - 1], e);
    }
  }

  // ---------------------------------------------------------------- the pool

  datatype Pages = At(addr: nat) | NoPages | Panic

  class Pool {
    const base: nat
    const usedMap: Maps.Bitmap
    var bytes: seq<bv8>
    ghost var held: set<Extent>

    ghost predicate Valid()
      reads this, usedMap.bits
    {
      && base > 0 && base % PGSIZE == 0
      && usedMap.Valid() && PoolOk(Value()) && HeldOk(usedMap.Bits(), held)
    }

    function Value(): PoolState
      requires usedMap.Valid()
      reads this, usedMap.bits
    {
      PoolState(usedMap.Bits(), bytes)
    }

    /** `init_pool` over a page-aligned chunk with room for its bitmap; `contents` is what the pages happen to hold. */
    constructor (start: nat, pageCnt: nat, contents: seq<bv8>)
      requires start > 0 && start % PGSIZE == 0 && BitmapPages(pageCnt).Some?
      requires |contents| == (pageCnt - BitmapPages(pageCnt).value) * PGSIZE
      ensures Valid() && fresh(usedMap) && fresh(usedMap.bits)
      ensures ELEM_BITS == 32 && STRUCT_BYTES == 8 && 8 * (base - start - STRUCT_BYTES) >= ELEM_BITS * usedMap.bits.Length
      ensures base == start + BitmapPages(pageCnt).value * PGSIZE && bytes == contents && held == {}
      ensures |usedMap.Bits()| == pageCnt - BitmapPages(pageCnt).value && forall i :: 0 <= i < |usedMap.Bits()| ==> !usedMap.Bits()[i]
    {
      hide BufSize, DivRoundUp, BitmapPages, ElemCnt, Maps.BitsOf, HeldOk;
      BitmapFits(pageCnt);
      var bmPages := BitmapPages(pageCnt).value;
      var words := new bv32[ElemCnt(pageCnt - bmPages)];
      usedMap := new Maps.Bitmap(pageCnt - bmPages, words);
      base := start + bmPages * PGSIZE;
      bytes := contents;
      held := {};
      new;
      NothingHeld(usedMap.Bits());
    }

    /** `palloc_get_multiple`; `must` is PAL_ASSERT. */
    method GetMultiple(zero: bool, must: bool, pageCnt: nat) returns (r: Pages)
      requires Valid()
      modifies this, usedMap.bits
      ensures Valid()
      ensures var (q, i) := GetPages(old(Value()), zero, pageCnt);
              && Value() == q
              && r == (if i.Some? then At(base + PGSIZE * i.value) else if must && pageCnt > 0 then Panic else NoPages)
              && held == if i.Some? then old(held) + {Extent(i.value, pageCnt)} else old(held)
      ensures |bytes| == |old(bytes)|
      ensures forall i :: 0 <= i < |bytes| ==>
                            bytes[i] == if zero && r.At? && 0 <= i - (r.addr - base) < pageCnt * PGSIZE then 0 else old(bytes)[i]
    {
      GetKeepsHeld(Holding(Value(), held), zero, pageCnt);
      if pageCnt == 0 {
        return NoPages;
      }
      ghost var before := Value();
      FindRunIsFirst(before.used, 0, pageCnt);
      var pageIdx := usedMap.ScanAndFlip(0, pageCnt, false);
      FirstRunIsUnique(before.used, 0, pageCnt, false, pageIdx, FindRun(before.used, 0, pageCnt));
      hide FindRun, IsFirstRun, HeldOk;
      if pageIdx == None {
        return if must then Panic else NoPages;
      }
      held := held + {Extent(pageIdx.value, pageCnt)};
      if zero {
        PageFits(before, pageIdx.value, pageCnt);
        bytes := Fill(bytes, pageIdx.value * PGSIZE, pageCnt * PGSIZE, 0);
      }
      r := At(base + PGSIZE * pageIdx.value);
    }

    /** `palloc_free_multiple`; a null pointer is address 0, and the pages are in use, as the code asserts. */
    method FreeMultiple(pages: nat, pageCnt: nat)
      requires Valid()
      requires pages % PGSIZE == 0
      requires pages != 0 && pageCnt != 0 ==> pages >= base && AllAre(usedMap.Bits(), (pages - base) / PGSIZE, pageCnt, true)
      modifies this, usedMap.bits
      ensures Valid()
      ensures pages == 0 || pageCnt == 0 ==> Value() == old(Value()) && held == old(held)
      ensures pages != 0 && pageCnt != 0 ==>
                && (pages - base) / PGSIZE + pageCnt <= |old(Value()).used|
                && Value() == FreePages(old(Value()), (pages - base) / PGSIZE, pageCnt)
                && held == Carved(old(held), Extent((pages - base) / PGSIZE, pageCnt))
      ensures |bytes| == |old(bytes)|
      ensures forall i :: 0 <= i < |bytes| ==>
                            bytes[i] == if pages != 0 && 0 <= i - (pages - base) < pageCnt * PGSIZE then 0xcc else old(bytes)[i]
    {
      if pages == 0 || pageCnt == 0 {
        return;
      }
      ghost var e := Extent((pages - base) / PGSIZE, pageCnt);
      var pageIdx := pages / PGSIZE - base / PGSIZE;
      assert pageIdx == e.first;
      FreeKeepsHeld(Holding(Value(), held), e);
      PageFits(Value(), pageIdx, pageCnt);
      bytes := Fill(bytes, pageIdx * PGSIZE, pageCnt * PGSIZE, 0xcc);
      hide HeldOk, Carved;
      usedMap.SetMultiple(pageIdx, pageCnt, false);
      held := Carved(held, e);
    }
  }

  // ---------------------------------------------------------------- init_pool

  /** Pages that the bitmap takes at the start of the chunk, or nothing when it does not fit. */
  function BitmapPages(pageCnt: nat): Option<nat> {
    var bm := DivRoundUp(BufSize(pageCnt), PGSIZE);
    if bm > pageCnt then None else Some(bm)
  }

  /** The pages reserved are the least that hold two words and a bit for each page of the chunk, so that the bitmap
      fits, though it is then sized for fewer pages; only a chunk without a page has no room for it. */
  lemma BitmapFits(pageCnt: nat)
    ensures BitmapPages(pageCnt).Some? <==> pageCnt > 0
    ensures pageCnt > 0 ==>
              var bm, words := BitmapPages(pageCnt).value, (pageCnt + 31) / 32;
              && 1 <= bm <= pageCnt && (bm - 1) * 4096 < 8 + 4 * words <= bm * 4096
              && 8 + 4 * ElemCnt(pageCnt - bm) <= bm * 4096
              && bm * PGSIZE + (pageCnt - bm) * PGSIZE == pageCnt * PGSIZE
  {
  }
}

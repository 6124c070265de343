/** A bitmap of machine words, proved to be a sequence of bools. */
module Bitmap {
  import opened Basics

  const ELEM_BITS: nat := 32
  const ELEM_BYTES: nat := 4
  const STRUCT_BYTES: nat := 8

  function DivRoundUp(x: nat, step: nat): nat
    requires step >= 1
  {
    (x + step - 1) / step
  }

  function ElemIdx(bitIdx: nat): nat {
    bitIdx / ELEM_BITS
  }

  function BitMask(bitIdx: nat): bv32 {
    (1 as bv32) << (bitIdx % ELEM_BITS)
  }

  function ElemCnt(bitCnt: nat): nat {
    DivRoundUp(bitCnt, ELEM_BITS)
  }

  function ByteCnt(bitCnt: nat): nat {
    ELEM_BYTES * ElemCnt(bitCnt)
  }

  /** `bitmap_buf_size`: the structure and its elements. */
  function BufSize(bitCnt: nat): nat {
    STRUCT_BYTES + ByteCnt(bitCnt)
  }

  /** `w` has the bit of the mask. */
  function Has(w: bv32, bitIdx: nat): bool {
    w & BitMask(bitIdx) != 0
  }

  function Marked(w: bv32, bitIdx: nat): bv32 {
    w | BitMask(bitIdx)
  }

  function Cleared(w: bv32, bitIdx: nat): bv32 {
    w & !BitMask(bitIdx)
  }

  function Toggled(w: bv32, bitIdx: nat): bv32 {
    w ^ BitMask(bitIdx)
  }

  function TestIn(words: seq<bv32>, idx: nat): bool
    requires ElemIdx(idx) < |words|
  {
    Has(words[ElemIdx(idx)], idx)
  }

  // ---------------------------------------------------------------- words

  lemma OrSelf(w: bv32, i: nat)
    requires i < 32
    ensures (w | ((1 as bv32) << i)) & ((1 as bv32) << i) != 0
  {
  }

  lemma MasksApart(i: nat, j: nat)
    requires i < 32 && j < 32 && i != j
    ensures ((1 as bv32) << i) & ((1 as bv32) << j) == 0
  {
  }

  lemma OrApart(w: bv32, x: bv32, y: bv32)
    requires x & y == 0
    ensures (w | x) & y == w & y
  {
  }

  lemma AndNotSelf(w: bv32, i: nat)
    requires i < 32
    ensures (w & !((1 as bv32) << i)) & ((1 as bv32) << i) == 0
  {
  }

  lemma AndNotApart(w: bv32, x: bv32, y: bv32)
    requires x & y == 0
    ensures (w & !x) & y == w & y
  {
  }

  lemma XorSelf(w: bv32, i: nat)
    requires i < 32
    ensures ((w ^ ((1 as bv32) << i)) & ((1 as bv32) << i) != 0) <==> (w & ((1 as bv32) << i) == 0)
  {
  }

  lemma XorApart(w: bv32, x: bv32, y: bv32)
    requires x & y == 0
    ensures (w ^ x) & y == w & y
  {
  }

  lemma MarkedSelf(w: bv32, i: nat)
    ensures Has(Marked(w, i), i)
  {
    OrSelf(w, i % 32);
  }

  lemma MarkedOther(w: bv32, i: nat, j: nat)
    requires i % 32 != j % 32
    ensures Has(Marked(w, i), j) == Has(w, j)
  {
    MasksApart(i % 32, j % 32);
    OrApart(w, BitMask(i), BitMask(j));
  }

  /** Setting one bit of a word leaves the others alone. */
  lemma MarkedHas(w: bv32, i: nat, j: nat)
    requires ElemIdx(i) == ElemIdx(j)
    ensures Has(Marked(w, i), j) <==> i == j || Has(w, j)
  {
    if i == j {
      hide *;
      MarkedSelf(w, i);
    } else {
      assert i % 32 != j % 32;
      hide *;
      MarkedOther(w, i, j);
    }
  }

  lemma ClearedSelf(w: bv32, i: nat)
    ensures !Has(Cleared(w, i), i)
  {
    AndNotSelf(w, i % 32);
  }

  lemma ClearedOther(w: bv32, i: nat, j: nat)
    requires i % 32 != j % 32
    ensures Has(Cleared(w, i), j) == Has(w, j)
  {
    MasksApart(i % 32, j % 32);
    AndNotApart(w, BitMask(i), BitMask(j));
  }

  /** So does clearing it. */
  lemma ClearedHas(w: bv32, i: nat, j: nat)
    requires ElemIdx(i) == ElemIdx(j)
    ensures Has(Cleared(w, i), j) <==> i != j && Has(w, j)
  {
    if i == j {
      hide *;
      ClearedSelf(w, i);
    } else {
      assert i % 32 != j % 32;
      hide *;
      ClearedOther(w, i, j);
    }
  }

  lemma ToggledSelf(w: bv32, i: nat)
    ensures Has(Toggled(w, i), i) <==> !Has(w, i)
  {
    XorSelf(w, i % 32);
  }

  lemma ToggledOther(w: bv32, i: nat, j: nat)
    requires i % 32 != j % 32
    ensures Has(Toggled(w, i), j) == Has(w, j)
  {
    MasksApart(i % 32, j % 32);
    XorApart(w, BitMask(i), BitMask(j));
  }

  /** And toggling it. */
  lemma ToggledHas(w: bv32, i: nat, j: nat)
    requires ElemIdx(i) == ElemIdx(j)
    ensures Has(Toggled(w, i), j) <==> (if i == j then !Has(w, j) else Has(w, j))
  {
    if i == j {
      hide *;
      ToggledSelf(w, i);
    } else {
      assert i % 32 != j % 32;
      hide *;
      ToggledOther(w, i, j);
    }
  }

  lemma TestIs(words: seq<bv32>, idx: nat)
    requires ElemIdx(idx) < |words|
    ensures TestIn(words, idx) == Has(words[ElemIdx(idx)], idx)
  {
    hide Has, ElemIdx;
  }

  lemma IdxFits(bitIdx: nat, bitCnt: nat)
    requires bitIdx < bitCnt
    ensures ElemIdx(bitIdx) < ElemCnt(bitCnt)
  {
  }

  /** Bit `idx` becomes `value` when only its word changes, and of that only that bit. */
  lemma OneBitChanges(before: seq<bv32>, after: seq<bv32>, idx: nat, value: bool, bitCnt: nat)
    requires idx < bitCnt && |before| == |after| == ElemCnt(bitCnt)
    requires ElemIdx(idx) < |before| && after == before[ElemIdx(idx) := after[ElemIdx(idx)]]
    requires forall j: nat :: ElemIdx(j) == ElemIdx(idx) ==>
                                Has(after[ElemIdx(idx)], j) == if j == idx then value else Has(before[ElemIdx(idx)], j)
    ensures BitsOf(after, bitCnt) == BitsOf(before, bitCnt)[idx := value]
  {
    hide Has, ElemIdx, ElemCnt;
  }

  /** What a bitmap stands for. */
  function BitsOf(words: seq<bv32>, bitCnt: nat): (s: seq<bool>)
    requires |words| == ElemCnt(bitCnt)
    ensures |s| == bitCnt
    ensures forall i :: 0 <= i < bitCnt ==> ElemIdx(i) < |words| && s[i] == TestIn(words, i)
  {
    AllFit(bitCnt);
    seq(bitCnt, i requires 0 <= i < bitCnt && ElemIdx(i) < |words| => TestIn(words, i))
  }

  lemma AllFit(bitCnt: nat)
    ensures forall i :: 0 <= i < bitCnt ==> ElemIdx(i) < ElemCnt(bitCnt)
  {
    forall i | 0 <= i < bitCnt ensures ElemIdx(i) < ElemCnt(bitCnt) {
      IdxFits(i, bitCnt);
    }
  }

  // ---------------------------------------------------------------- sequences of bools

  function Filled(s: seq<bool>, start: nat, cnt: nat, value: bool): (r: seq<bool>)
    requires start + cnt <= |s|
    ensures |r| == |s|
    ensures forall i :: 0 <= i < |s| ==> r[i] == if start <= i < start + cnt then value else s[i]
  {
    s[..start] + seq(cnt, _ => value) + s[start + cnt..]
  }

  ghost predicate AllAre(s: seq<bool>, start: nat, cnt: nat, value: bool) {
    start + cnt <= |s| && forall i :: start <= i < start + cnt ==> s[i] == value
  }

  /** The lowest index from `start` on where `cnt` bits in a row have the value. */
  ghost predicate IsFirstRun(s: seq<bool>, start: nat, cnt: nat, value: bool, r: Option<nat>) {
    match r
    case Some(i) => start <= i && AllAre(s, i, cnt, value) && forall j :: start <= j < i ==> !AllAre(s, j, cnt, value)
    case None => forall j :: start <= j ==> !AllAre(s, j, cnt, value)
  }

  lemma FirstRunIsUnique(s: seq<bool>, start: nat, cnt: nat, value: bool, q: Option<nat>, r: Option<nat>)
    requires IsFirstRun(s, start, cnt, value, q) && IsFirstRun(s, start, cnt, value, r)
    ensures q == r
  {
    hide AllAre;
  }

  function CountOf(s: seq<bool>, value: bool): nat {
    if s == [] then 0 else CountOf(s[..|s| - 1], value) + if s[|s| - 1] == value then 1 else 0
  }

  /** A scan for no bits at all answers with its starting point; the comment on `bitmap_scan_and_flip` promises 0. */
  lemma NoBitsAreFoundAtStart(s: seq<bool>, start: nat, value: bool, r: Option<nat>)
    requires start <= |s| && IsFirstRun(s, start, 0, value, r)
    ensures r == Some(start) && (r == Some(0) <==> start == 0)
  {
    assert AllAre(s, start, 0, value);
  }

  lemma CountNothing(value: bool)
    ensures CountOf([], value) == 0
  {
  }

  lemma CountOneMore(s: seq<bool>, start: nat, i: nat, value: bool)
    requires start + i < |s|
    ensures CountOf(s[start..start + i + 1], value) == CountOf(s[start..start + i], value) + if s[start + i] == value then 1 else 0
  {
    assert s[start..start + i + 1][..i] == s[start..start + i];
  }

  // ---------------------------------------------------------------- the bitmap itself

  class Bitmap {
    const bitCnt: nat
    const bits: array<bv32>

    ghost predicate Valid() {
      bits.Length == ElemCnt(bitCnt)
    }

    function Bits(): (s: seq<bool>)
      requires Valid()
      reads bits
      ensures |s| == bitCnt
    {
      BitsOf(bits[..], bitCnt)
    }

    /** `bitmap_create_in_buf`, whatever the buffer holds. */
    constructor (bitCnt: nat, words: array<bv32>)
      requires words.Length == ElemCnt(bitCnt)
      modifies words
      ensures Valid() && this.bitCnt == bitCnt && bits == words
      ensures forall i :: 0 <= i < bitCnt ==> !Bits()[i]
    {
      this.bitCnt := bitCnt;
      bits := words;
      new;
      SetMultiple(0, bitCnt, false);
    }

    method Mark(bitIdx: nat)
      requires Valid() && bitIdx < bitCnt
      modifies bits
      ensures Bits() == old(Bits())[bitIdx := true]
    {
      ghost var before := bits[..];
      IdxFits(bitIdx, bitCnt);
      hide *;
      var idx := ElemIdx(bitIdx);
      bits[idx] := Marked(bits[idx], bitIdx);
      forall j: nat | ElemIdx(j) == idx ensures Has(bits[idx], j) == if j == bitIdx then true else Has(before[idx], j) {
        MarkedHas(before[idx], bitIdx, j);
      }
      OneBitChanges(before, bits[..], bitIdx, true, bitCnt);
    }

    method Reset(bitIdx: nat)
      requires Valid() && bitIdx < bitCnt
      modifies bits
      ensures Bits() == old(Bits())[bitIdx := false]
    {
      ghost var before := bits[..];
      IdxFits(bitIdx, bitCnt);
      hide *;
      var idx := ElemIdx(bitIdx);
      bits[idx] := Cleared(bits[idx], bitIdx);
      forall j: nat | ElemIdx(j) == idx
        ensures Has(bits[idx], j) == if j == bitIdx then false else Has(before[idx], j)
      {
        ClearedHas(before[idx], bitIdx, j);
      }
      OneBitChanges(before, bits[..], bitIdx, false, bitCnt);
    }

    method Flip(bitIdx: nat)
      requires Valid() && bitIdx < bitCnt
      modifies bits
      ensures Bits() == old(Bits())[bitIdx := !old(Bits())[bitIdx]]
    {
      ghost var before := bits[..];
      IdxFits(bitIdx, bitCnt);
      hide *;
      var idx := ElemIdx(bitIdx);
      bits[idx] := Toggled(bits[idx], bitIdx);
      forall j: nat | ElemIdx(j) == idx
        ensures Has(bits[idx], j) == if j == bitIdx then !Has(before[idx], bitIdx) else Has(before[idx], j)
      {
        ToggledHas(before[idx], bitIdx, j);
      }
      OneBitChanges(before, bits[..], bitIdx, !Has(before[idx], bitIdx), bitCnt);
      TestIs(before, bitIdx);
    }

    method Test(idx: nat) returns (b: bool)
      requires Valid() && idx < bitCnt
      ensures b == Bits()[idx]
    {
      IdxFits(idx, bitCnt);
      hide Has, ElemIdx, ElemCnt;
      b := Has(bits[ElemIdx(idx)], idx);
    }

    method Set(idx: nat, value: bool)
      requires Valid() && idx < bitCnt
      modifies bits
      ensures Bits() == old(Bits())[idx := value]
    {
      if value {
        Mark(idx);
      } else {
        Reset(idx);
      }
    }

    method SetMultiple(start: nat, cnt: nat, value: bool)
      requires Valid() && start + cnt <= bitCnt
      modifies bits
      ensures Bits() == Filled(old(Bits()), start, cnt, value)
    {
      for i := 0 to cnt
        invariant Bits() == Filled(old(Bits()), start, i, value)
      {
        Set(start + i, value);
      }
    }

    method Count(start: nat, cnt: nat, value: bool) returns (valueCnt: nat)
      requires Valid() && start + cnt <= bitCnt
      ensures valueCnt == CountOf(Bits()[start..start + cnt], value)
    {
      hide *;
      CountNothing(value);
      assert Bits()[start..start + 0] == [];
      valueCnt := 0;
      for i := 0 to cnt
        invariant valueCnt == CountOf(Bits()[start..start + i], value)
      {
        var b := Test(start + i);
        CountOneMore(Bits(), start, i, value);
        if b == value {
          valueCnt := valueCnt + 1;
        }
      }
    }

    method Contains(start: nat, cnt: nat, value: bool) returns (found: bool)
      requires Valid() && start + cnt <= bitCnt
      ensures !found <==> AllAre(Bits(), start, cnt, !value)
    {
      for i := 0 to cnt
        invariant AllAre(Bits(), start, i, !value)
      {
        var b := Test(start + i);
        if b == value {
          return true;
        }
      }
      return false;
    }

    /** `BITMAP_ERROR` is `None`. */
    method Scan(start: nat, cnt: nat, value: bool) returns (r: Option<nat>)
      requires Valid() && start <= bitCnt
      ensures IsFirstRun(Bits(), start, cnt, value, r)
    {
      if cnt <= bitCnt {
        var last := bitCnt - cnt;
        var i := start;
        while i <= last
          invariant start <= i
          invariant forall j :: start <= j < i ==> !AllAre(Bits(), j, cnt, value)
        {
          var bad := Contains(i, cnt, !value);
          if !bad {
            return Some(i);
          }
          i := i + 1;
        }
      }
      return None;
    }

    /** Nothing but the run found changes, and all of that. */
    method ScanAndFlip(start: nat, cnt: nat, value: bool) returns (r: Option<nat>)
      requires Valid() && start <= bitCnt
      modifies bits
      ensures IsFirstRun(old(Bits()), start, cnt, value, r)
      ensures Bits() == match r case Some(i) => Filled(old(Bits()), i, cnt, !value) case None => old(Bits())
    {
      r := Scan(start, cnt, value);
      if r.Some? {
        SetMultiple(r.value, cnt, !value);
      }
    }
  }
}

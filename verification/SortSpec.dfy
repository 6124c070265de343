/** What a partly sorted array with pending ranges looks like. */
module SortSpec {
  /** The indices from `lo` to `hi`, both included; empty when `hi < lo`. */
  datatype Range = Range(lo: int, hi: int)

  ghost predicate In(r: Range, i: int) {
    r.lo <= i <= r.hi
  }

  /** Both indices lie in one of the ranges still to be sorted. */
  ghost predicate Together(rs: seq<Range>, i: int, j: int) {
    exists r :: r in rs && In(r, i) && In(r, j)
  }

  ghost predicate Disjoint(rs: seq<Range>) {
    forall x, y, i :: 0 <= x < y < |rs| && In(rs[x], i) ==> !In(rs[y], i)
  }

  ghost predicate Within(rs: seq<Range>, r: Range) {
    forall q :: q in rs ==> r.lo <= q.lo && q.lo <= q.hi + 1 && q.hi <= r.hi
  }

  /** Any two elements of the range are in order unless they are still together in a pending range. */
  ghost predicate Ordered(a: seq<int>, r: Range, rs: seq<Range>)
    requires 0 <= r.lo && r.hi < |a|
  {
    forall i, j :: r.lo <= i < j <= r.hi ==> a[i] <= a[j] || Together(rs, i, j)
  }

  /** `b` is `a` with the elements of the range rearranged. */
  ghost predicate Rearranged(a: seq<int>, b: seq<int>, r: Range) {
    && |a| == |b| && multiset(a) == multiset(b)
    && forall i :: 0 <= i < |a| && !In(r, i) ==> b[i] == a[i]
  }

  ghost function Size(r: Range): nat {
    if r.lo <= r.hi then r.hi - r.lo + 1 else 0
  }

  ghost function Weight(rs: seq<Range>): nat {
    if rs == [] then 0 else Weight(rs[..|rs| - 1]) + 2 * Size(rs[|rs| - 1]) + 1
  }

  lemma {:induction false} WeightAdds(a: seq<Range>, b: seq<Range>)
    ensures Weight(a + b) == Weight(a) + Weight(b)
  {
    if b == [] {
      assert a + b == a;
    } else {
      WeightAdds(a, b[..|b| - 1]);
      assert (a + b)[..|a + b| - 1] == a + b[..|b| - 1];
    }
  }

  // ---------------------------------------------------------------- rearranging

  lemma RearrangedTrans(a: seq<int>, b: seq<int>, c: seq<int>, p: Range, q: Range, r: Range)
    requires Rearranged(a, b, p) && Rearranged(b, c, q)
    requires forall i :: In(p, i) || In(q, i) ==> In(r, i)
    ensures Rearranged(a, c, r)
  {
  }

  lemma SwapRearranges(a: seq<int>, i: nat, j: nat, r: Range)
    requires i < |a| && j < |a| && In(r, i) && In(r, j)
    ensures Rearranged(a, a[i := a[j]][j := a[i]], r)
  {
    SwapKeepsElements(a, i, j);
  }

  lemma SwapKeepsElements(a: seq<int>, i: nat, j: nat)
    requires i < |a| && j < |a|
    ensures multiset(a[i := a[j]][j := a[i]]) == multiset(a)
  {
    var b := a[i := a[j]];
    assert b[j] == a[j];
    assert multiset(b) == multiset(a) - multiset{a[i]} + multiset{a[j]};
    assert multiset(b[j := a[i]]) == multiset(b) - multiset{b[j]} + multiset{a[i]};
  }

  /** A rearranged range holds the same elements. */
  lemma RearrangedKeeps(a: seq<int>, b: seq<int>, r: Range, j: int) returns (i: int)
    requires Rearranged(a, b, r) && 0 <= r.lo && r.hi < |a| && In(r, j)
    ensures In(r, i) && a[i] == b[j]
  {
    var lo, hi := r.lo, r.hi + 1;
    SplitIn3(a, lo, hi);
    SplitIn3(b, lo, hi);
    assert forall i :: 0 <= i < |a| && !In(r, i) ==> b[i] == a[i];
    assert a[..lo] == b[..lo];
    assert a[hi..] == b[hi..];
    Cancel(multiset(a[lo..hi]), multiset(b[lo..hi]), multiset(a[..lo]), multiset(a[hi..]));
    assert b[j] == b[lo..hi][j - lo];
    assert b[j] in b[lo..hi];
    assert b[j] in multiset(b[lo..hi]);
    assert b[j] in a[lo..hi];
    var m :| 0 <= m < |a[lo..hi]| && a[lo..hi][m] == b[j];
    i := lo + m;
  }

  lemma Cancel(x: multiset<int>, y: multiset<int>, u: multiset<int>, v: multiset<int>)
    requires u + x + v == u + y + v
    ensures x == y
  {
    forall e ensures x[e] == y[e] {
      assert (u + x + v)[e] == (u + y + v)[e];
    }
  }

  lemma SplitIn3(a: seq<int>, lo: nat, hi: nat)
    requires lo <= hi <= |a|
    ensures multiset(a) == multiset(a[..lo]) + multiset(a[lo..hi]) + multiset(a[hi..])
  {
    assert a == a[..lo] + a[lo..hi] + a[hi..];
  }

  // ---------------------------------------------------------------- pending ranges

  /** Sorting one pending range up to `more` leaves that in its place. */
  lemma Refine(a: seq<int>, b: seq<int>, r: Range, q: Range, before: seq<Range>, after: seq<Range>, more: seq<Range>)
    requires 0 <= r.lo && r.hi < |a| && Within(before + [q] + after, r) && Disjoint(before + [q] + after)
    requires Ordered(a, r, before + [q] + after) && Rearranged(a, b, q) && Ordered(b, q, more)
    ensures Ordered(b, r, before + more + after)
  {
    var rs, now := before + [q] + after, before + more + after;
    assert rs[|before|] == q;
    forall i, j | r.lo <= i < j <= r.hi ensures b[i] <= b[j] || Together(now, i, j) {
      RefinePair(a, b, r, q, before, after, more, i, j);
    }
  }

  lemma RefinePair(a: seq<int>, b: seq<int>, r: Range, q: Range, before: seq<Range>, after: seq<Range>,
      more: seq<Range>, i: int, j: int)
    requires 0 <= r.lo && r.hi < |a| && r.lo <= i < j <= r.hi && r.lo <= q.lo && q.hi <= r.hi && Disjoint(before + [q] + after)
    requires Ordered(a, r, before + [q] + after) && Rearranged(a, b, q) && Ordered(b, q, more)
    ensures b[i] <= b[j] || Together(before + more + after, i, j)
  {
    var rs := before + [q] + after;
    if In(q, i) && In(q, j) {
      if Together(more, i, j) {
        TogetherIn(more, before + more + after, i, j);
      }
    } else {
      var i0, j0 := i, j;
      if In(q, i) {
        i0 := RearrangedKeeps(a, b, q, i);
      }
      if In(q, j) {
        j0 := RearrangedKeeps(a, b, q, j);
      }
      assert a[i0] == b[i] && a[j0] == b[j] && i0 < j0;
      if Together(rs, i0, j0) {
        ElsewhereStays(q, before, after, more, i, j, i0, j0);
      }
    }
  }

  lemma TogetherIn(rs: seq<Range>, more: seq<Range>, i: int, j: int)
    requires Together(rs, i, j) && forall r :: r in rs ==> r in more
    ensures Together(more, i, j)
  {
  }

  /** Indices outside `q` that are together stay together. */
  lemma ElsewhereStays(q: Range, before: seq<Range>, after: seq<Range>, more: seq<Range>, i: int, j: int, i0: int,
      j0: int)
    requires Together(before + [q] + after, i0, j0) && Disjoint(before + [q] + after) && !(In(q, i) && In(q, j))
    requires if In(q, i) then In(q, i0) else i0 == i
    requires if In(q, j) then In(q, j0) else j0 == j
    ensures Together(before + more + after, i, j)
  {
    var rs := before + [q] + after;
    var x :| 0 <= x < |rs| && In(rs[x], i0) && In(rs[x], j0);
    assert rs[|before|] == q;
    assert x != |before|;
    assert !In(q, i0) && !In(q, j0);
    var p := rs[x];
    assert p in before || p in after;
    assert p in before + more + after;
  }

  lemma DisjointReplace(q: Range, before: seq<Range>, after: seq<Range>, more: seq<Range>)
    requires Disjoint(before + [q] + after) && Disjoint(more) && Within(more, q)
    ensures Disjoint(before + more + after)
  {
    var rs, now, m, n := before + [q] + after, before + more + after, |before|, |more|;
    forall x, y, i | 0 <= x < y < |now| && In(now[x], i) ensures !In(now[y], i) {
      var x0 := if x < m then x else if x < m + n then m else x - n + 1;
      var y0 := if y < m then y else if y < m + n then m else y - n + 1;
      assert In(rs[x0], i);
      if x0 < y0 {
        assert !In(rs[y0], i);
      } else {
        assert more[x - m] == now[x] && more[y - m] == now[y];
      }
    }
  }

  lemma WithinReplace(r: Range, q: Range, before: seq<Range>, after: seq<Range>, more: seq<Range>)
    requires Within(before + [q] + after, r) && Within(more, q)
    ensures Within(before + more + after, r)
  {
    assert q in before + [q] + after;
    forall p | p in before + more + after ensures r.lo <= p.lo && p.lo <= p.hi + 1 && p.hi <= r.hi {
      assert p in before || p in after ==> p in before + [q] + after;
    }
  }

  lemma OrderedIsSorted(a: seq<int>, r: Range)
    requires 0 <= r.lo && r.hi < |a| && Ordered(a, r, [])
    ensures forall i, j :: r.lo <= i < j <= r.hi ==> a[i] <= a[j]
  {
    assert forall i, j :: !Together([], i, j);
  }

  lemma Rotate(a: seq<int>, r: Range, x: seq<Range>, y: seq<Range>)
    requires 0 <= r.lo && r.hi < |a| && Ordered(a, r, x + y) && Disjoint(x + y) && Within(x + y, r)
    ensures Ordered(a, r, y + x) && Disjoint(y + x) && Within(y + x, r)
  {
    assert forall q :: q in x + y <==> q in y + x;
    forall i, j | Together(x + y, i, j) ensures Together(y + x, i, j) {
      TogetherIn(x + y, y + x, i, j);
    }
    RotateDisjoint(x, y);
  }

  lemma RotateDisjoint(x: seq<Range>, y: seq<Range>)
    requires Disjoint(x + y)
    ensures Disjoint(y + x)
  {
    var was, now, m, n := x + y, y + x, |x|, |y|;
    forall u, v, i | 0 <= u < v < |now| && In(now[u], i) ensures !In(now[v], i) {
      var u0 := if u < n then u + m else u - n;
      var v0 := if v < n then v + m else v - n;
      assert was[u0] == now[u] && was[v0] == now[v];
      assert In(was[u0], i) && In(was[v0], i) == In(now[v], i);
    }
  }

  /** After partitioning, the parts left and right of the pivot are all that is left to sort. */
  lemma PartitionedIsOrdered(a: seq<int>, r: Range, p: int)
    requires 0 <= r.lo <= p <= r.hi < |a|
    requires (forall i :: r.lo <= i < p ==> a[i] < a[p]) && (forall i :: p < i <= r.hi ==> a[p] <= a[i])
    ensures var rs := [Range(r.lo, p - 1), Range(p + 1, r.hi)]; Ordered(a, r, rs) && Disjoint(rs) && Within(rs, r)
  {
    var rs := [Range(r.lo, p - 1), Range(p + 1, r.hi)];
    forall i, j | r.lo <= i < j <= r.hi ensures a[i] <= a[j] || Together(rs, i, j) {
      assert j < p ==> In(rs[0], i) && In(rs[0], j);
      assert i > p ==> In(rs[1], i) && In(rs[1], j);
    }
  }

  lemma PartsWeigh(r: Range, p: int, s: seq<Range>, t: seq<Range>)
    requires r.lo <= p <= r.hi
    requires Weight(s) <= Weight([Range(r.lo, p - 1)]) && Weight(t) <= Weight([Range(p + 1, r.hi)])
    ensures Weight(s + t) < Weight([r])
  {
    WeightAdds(s, t);
    WeightOfOne(Range(r.lo, p - 1));
    WeightOfOne(Range(p + 1, r.hi));
    WeightOfOne(r);
  }

  lemma WeightOfOne(r: Range)
    ensures Weight([r]) == 2 * Size(r) + 1
  {
    assert [r][..0] == [];
  }

  /** A range that nobody sorted is its own pending part. */
  lemma Untouched(a: seq<int>, r: Range)
    requires 0 <= r.lo <= r.hi + 1 <= |a|
    ensures Ordered(a, r, [r]) && Disjoint([r]) && Within([r], r) && Rearranged(a, a, r)
  {
    forall i, j | r.lo <= i < j <= r.hi ensures Together([r], i, j) {
      assert r in [r] && In(r, i) && In(r, j);
    }
  }
}

/** The parallel quicksort, in place, on the thread kernel. */
module Sort {
  import opened Sched
  import opened SchedInv
  import opened SchedEffects
  import opened SortSpec
  import opened Workers
  import K = Kernel

  /** `struct args`; the recursion overwrites `start` and `end`. */
  class Args {
    const nums: array<int>
    var start: int
    var end: int
    var cutoff: int

    constructor (nums: array<int>, start: int, end: int, cutoff: int)
      ensures this.nums == nums && this.start == start && this.end == end && this.cutoff == cutoff
    {
      this.nums := nums;
      this.start := start;
      this.end := end;
      this.cutoff := cutoff;
    }
  }

  /** The bytes of `struct args` that `thread_new` copies; `nums` is the same array everywhere. */
  function Encoded(start: int, end: int, cutoff: int): seq<int> {
    [start, end, cutoff]
  }

  ghost function Jobs(rs: seq<Range>, cutoff: int): (js: seq<seq<int>>)
  {
    seq(|rs|, x requires 0 <= x < |rs| => Encoded(rs[x].lo, rs[x].hi, cutoff))
  }

  method Swap(nums: array<int>, i: nat, j: nat, ghost r: Range)
    requires i < nums.Length && j < nums.Length && In(r, i) && In(r, j)
    modifies nums
    ensures nums[i] == old(nums[j]) && nums[j] == old(nums[i])
    ensures forall x :: 0 <= x < nums.Length && x != i && x != j ==> nums[x] == old(nums[x])
    ensures Rearranged(old(nums[..]), nums[..], r)
  {
    SwapRearranges(nums[..], i, j, r);
    var tmp := nums[i];
    nums[i] := nums[j];
    nums[j] := tmp;
    assert nums[..] == old(nums[..])[i := old(nums[j])][j := old(nums[i])];
  }

  /** No other element of the range equals the one at `pos`. */
  ghost predicate Once(a: seq<int>, r: Range, pos: int)
    requires 0 <= r.lo <= pos <= r.hi < |a|
  {
    forall i :: In(r, i) && i != pos ==> a[i] != a[pos]
  }

  /** The range is parted where the pivot ends up, which is the position returned when the pivot is the last element,
      as in the only call; if it is any other, then not, unless an equal element takes its place. */
  method Partition(nums: array<int>, start: int, end: int, pos: int) returns (p: int)
    requires 0 <= start <= pos <= end < nums.Length
    modifies nums
    ensures start <= p <= end && Rearranged(old(nums[..]), nums[..], Range(start, end))
    ensures nums[p] == old(nums[pos]) ==> PartedAt(nums[..], Range(start, end), p)
    ensures pos == end ==> nums[p] == old(nums[pos])
    ensures Once(old(nums[..]), Range(start, end), pos) && nums[p] == old(nums[pos]) ==> pos == end
  {
    hide Rearranged, PartedAt;
    ghost var r, a := Range(start, end), nums[..];
    var pivot := nums[pos];
    Swap(nums, pos, end, r);
    var s, e := start, end - 1;
    while s <= e
      invariant start <= s <= e + 1 && e < end
      invariant nums[end] == pivot
      invariant forall i :: start <= i < s ==> nums[i] < pivot
      invariant forall i :: e < i < end ==> pivot <= nums[i]
      invariant Once(a, r, pos) ==> forall i :: start <= i < end ==> nums[i] != pivot
      invariant Rearranged(a, nums[..], r)
    {
      if nums[s] < pivot {
        s := s + 1;
      } else {
        ghost var b := nums[..];
        Swap(nums, s, e, r);
        RearrangedTrans(a, b, nums[..], r, r, r);
        e := e - 1;
      }
    }
    ghost var b := nums[..];
    Swap(nums, s, pos, r);
    RearrangedTrans(a, b, nums[..], r, r, r);
    Parted(b, nums[..], r, s, pos, pivot);
    p := s;
  }

  lemma Parted(b: seq<int>, c: seq<int>, r: Range, s: int, pos: int, pivot: int)
    requires 0 <= r.lo <= s <= r.hi < |b| && r.lo <= pos <= r.hi && b[r.hi] == pivot
    requires (forall i :: r.lo <= i < s ==> b[i] < pivot) && (forall i :: s <= i < r.hi ==> pivot <= b[i])
    requires |c| == |b| && c[s] == b[pos] && c[pos] == b[s] && forall i :: 0 <= i < |b| && i != s && i != pos ==> c[i] == b[i]
    ensures c[s] == pivot ==> PartedAt(c, r, s)
  {
  }

  /** What `quick` leaves of its range: it is rearranged, and in order up to the ranges handed to new threads. */
  ghost predicate SortedUpTo(a: seq<int>, b: seq<int>, r: Range, spawned: seq<Range>)
    requires 0 <= r.lo && r.hi < |a|
  {
    Rearranged(a, b, r) && Ordered(b, r, spawned) && Disjoint(spawned) && Within(spawned, r)
  }

  /** All these ranges are longer than the cutoff. */
  ghost predicate Longer(rs: seq<Range>, cutoff: int) {
    forall r :: r in rs ==> r.hi - r.lo + 1 > cutoff
  }

  /** `thread_new(quick, args, sizeof *args)`. */
  method Spawn(args: Args, k: K.Kernel, ghost boss: Tid, ghost jobs: seq<seq<int>>)
    requires Crew(k.Value(), boss, jobs)
    modifies k
    ensures Crew(k.Value(), boss, jobs + [Encoded(args.start, args.end, args.cutoff)]) && k.current == old(k.current)
  {
    var copy := Encoded(args.start, args.end, args.cutoff);
    CrewNew(k.Value(), boss, jobs, copy);
    assert k.Valid() by {
      hide Sched.Items, Sched.Th;
    }
    NewIs(k.Value(), copy);
    hide Crew;
    var _ := k.ThreadNew(copy, true);
  }

  /** One half of `quick`: a new thread for a large part, recursion for a small one. */
  method Half(args: Args, k: K.Kernel, large: bool, ghost boss: Tid,
      ghost jobs: seq<seq<int>>) returns (ghost spawned: seq<Range>)
    requires 0 <= args.start <= args.end + 1 <= args.nums.Length && Crew(k.Value(), boss, jobs)
    modifies args, args.nums, k
    ensures SortedUpTo(old(args.nums[..]), args.nums[..], old(Range(args.start, args.end)), spawned)
    ensures Weight(spawned) <= Weight([old(Range(args.start, args.end))])
    ensures Crew(k.Value(), boss, jobs + Jobs(spawned, args.cutoff)) && k.current == old(k.current)
            && args.cutoff == old(args.cutoff)
    ensures if large then spawned == [old(Range(args.start, args.end))] else Longer(spawned, args.cutoff)
    decreases Size(Range(args.start, args.end)), 2
  {
    ghost var r := Range(args.start, args.end);
    if large {
      spawned := [r];
      Untouched(args.nums[..], r);
      Spawn(args, k, boss, jobs);
      assert Jobs(spawned, args.cutoff) == [Encoded(r.lo, r.hi, args.cutoff)];
    } else {
      spawned := Quick(args, k, boss, jobs);
    }
  }

  method Quick(args: Args, k: K.Kernel, ghost boss: Tid, ghost jobs: seq<seq<int>>) returns (ghost spawned: seq<Range>)
    requires 0 <= args.start && args.end < args.nums.Length && Crew(k.Value(), boss, jobs)
    modifies args, args.nums, k
    ensures SortedUpTo(old(args.nums[..]), args.nums[..], old(Range(args.start, args.end)), spawned)
    ensures Weight(spawned) < Weight([old(Range(args.start, args.end))])
    ensures Crew(k.Value(), boss, jobs + Jobs(spawned, args.cutoff)) && k.current == old(k.current)
            && args.cutoff == old(args.cutoff)
    ensures Longer(spawned, args.cutoff)
    decreases Size(Range(args.start, args.end)), 1
  {
    ghost var r := Range(args.start, args.end);
    if args.start < args.end {
      var pos := Partition(args.nums, args.start, args.end, args.end);
      hide Crew, SortedUpTo, Weight, Rearranged;
      spawned := Halves(args, k, pos, old(args.nums[..]), boss, jobs);
    } else {
      spawned := [];
      WeightOfOne(r);
      NothingToSort(args.nums[..], r, args.cutoff);
      assert jobs + [] == jobs;
    }
  }

  /** `quick` after its call of `partition`. */
  method Halves(args: Args, k: K.Kernel, pos: int, ghost a: seq<int>,
      ghost boss: Tid, ghost jobs: seq<seq<int>>) returns (ghost spawned: seq<Range>)
    requires 0 <= args.start <= pos <= args.end < args.nums.Length == |a| && Crew(k.Value(), boss, jobs)
    requires Rearranged(a, args.nums[..], Range(args.start, args.end))
             && PartedAt(args.nums[..], Range(args.start, args.end), pos)
    modifies args, args.nums, k
    ensures SortedUpTo(a, args.nums[..], old(Range(args.start, args.end)), spawned)
    ensures Weight(spawned) < Weight([old(Range(args.start, args.end))])
    ensures Crew(k.Value(), boss, jobs + Jobs(spawned, args.cutoff)) && k.current == old(k.current)
            && args.cutoff == old(args.cutoff)
    ensures Longer(spawned, args.cutoff)
    ensures old(pos - args.start > args.cutoff) ==> old(Range(args.start, pos - 1)) in spawned
    ensures old(args.end - pos > args.cutoff) ==> old(Range(pos + 1, args.end)) in spawned
    decreases Size(Range(args.start, args.end)), 0
  {
    hide Crew, SortedUpTo, Weight, Rearranged, Jobs, PartedAt;
    ghost var r := Range(args.start, args.end);
    var end := args.end;
    args.end := pos - 1;
    ghost var b := args.nums[..];
    ghost var left := Half(args, k, pos - args.start > args.cutoff, boss, jobs);
    args.start := pos + 1;
    args.end := end;
    ghost var c := args.nums[..];
    ghost var right := Half(args, k, end - pos > args.cutoff, boss, jobs + Jobs(left, args.cutoff));
    spawned := left + right;
    QuickDone(a, b, c, args.nums[..], r, pos, left, right);
    JobsAdd(jobs, left, right, args.cutoff);
  }

  lemma NothingToSort(a: seq<int>, r: Range, cutoff: int)
    requires 0 <= r.lo && r.hi < |a| && r.lo >= r.hi
    ensures SortedUpTo(a, a, r, []) && Jobs([], cutoff) == [] && Weight([]) == 0
  {
  }

  ghost predicate PartedAt(a: seq<int>, r: Range, p: int) {
    && 0 <= r.lo <= p <= r.hi < |a|
    && (forall i :: r.lo <= i < p ==> a[i] < a[p]) && (forall i :: p < i <= r.hi ==> a[p] <= a[i])
  }

  lemma QuickDone(a: seq<int>, b: seq<int>, c: seq<int>, d: seq<int>, r: Range, p: int, left: seq<Range>,
      right: seq<Range>)
    requires 0 <= r.lo <= p <= r.hi < |a| && Rearranged(a, b, r) && PartedAt(b, r, p)
    requires |b| == |c| == |a| && SortedUpTo(b, c, Range(r.lo, p - 1), left) && SortedUpTo(c, d, Range(p + 1, r.hi), right)
    requires Weight(left) <= Weight([Range(r.lo, p - 1)]) && Weight(right) <= Weight([Range(p + 1, r.hi)])
    ensures SortedUpTo(a, d, r, left + right) && Weight(left + right) < Weight([r])
  {
    PartitionedIsOrdered(b, r, p);
    PartsWeigh(r, p, left, right);
    hide SortedUpTo, Ordered, Rearranged, Disjoint, Within, Weight;
    TwoHalves(a, b, c, d, r, p, left, right);
  }

  lemma JobsAdd(jobs: seq<seq<int>>, left: seq<Range>, right: seq<Range>, cutoff: int)
    ensures jobs + Jobs(left, cutoff) + Jobs(right, cutoff) == jobs + Jobs(left + right, cutoff)
  {
    assert Jobs(left, cutoff) + Jobs(right, cutoff) == Jobs(left + right, cutoff);
  }

  /** Both halves together. */
  lemma TwoHalves(a: seq<int>, b: seq<int>, c: seq<int>, d: seq<int>, r: Range, p: int, left: seq<Range>,
      right: seq<Range>)
    requires 0 <= r.lo <= p <= r.hi < |a| && Rearranged(a, b, r)
    requires var rs := [Range(r.lo, p - 1), Range(p + 1, r.hi)]; Ordered(b, r, rs) && Disjoint(rs) && Within(rs, r)
    requires SortedUpTo(b, c, Range(r.lo, p - 1), left) && SortedUpTo(c, d, Range(p + 1, r.hi), right)
    ensures SortedUpTo(a, d, r, left + right)
  {
    var lo, hi := Range(r.lo, p - 1), Range(p + 1, r.hi);
    RearrangedTrans(a, b, c, r, lo, r);
    RearrangedTrans(a, c, d, r, hi, r);
    hide Ordered, Rearranged, Disjoint, Within;
    assert [] + [lo] + [hi] == [lo, hi];
    assert [] + left + [hi] == left + [hi] + [] == left + [hi];
    assert left + right + [] == left + right;
    Refine(b, c, r, lo, [], [hi], left);
    DisjointReplace(lo, [], [hi], left);
    WithinReplace(r, lo, [], [hi], left);
    Refine(c, d, r, hi, left, [], right);
    DisjointReplace(hi, left, [], right);
    WithinReplace(r, hi, left, [], right);
  }

  // ---------------------------------------------------------------- the whole sort

  lemma PendingSplits(pending: seq<Range>, spawned: seq<Range>)
    requires pending != []
    ensures pending == [] + [pending[0]] + pending[1..] && pending[0] in pending
            && [] + spawned + pending[1..] == spawned + pending[1..]
  {
  }

  lemma WorkerWeighs(pending: seq<Range>, spawned: seq<Range>)
    requires pending != [] && Weight(spawned) < Weight([pending[0]])
    ensures Weight(pending[1..] + spawned) < Weight(pending)
  {
    assert pending == [pending[0]] + pending[1..];
    hide Weight;
    WeightAdds([pending[0]], pending[1..]);
    WeightAdds(pending[1..], spawned);
  }

  /** A worker has sorted its range up to what it handed on; the queue holds the rest. */
  lemma WorkerDone(a: seq<int>, b: seq<int>, c: seq<int>, r: Range, pending: seq<Range>, spawned: seq<Range>)
    requires 0 <= r.lo && r.hi < |a| && pending != [] && SortedUpTo(a, b, r, pending)
    requires 0 <= pending[0].lo && pending[0].hi < |a| && SortedUpTo(b, c, pending[0], spawned) && Weight(spawned) < Weight([pending[0]])
    ensures SortedUpTo(a, c, r, pending[1..] + spawned) && Weight(pending[1..] + spawned) < Weight(pending)
  {
    var q, rest := pending[0], pending[1..];
    PendingSplits(pending, spawned);
    WorkerWeighs(pending, spawned);
    RearrangedTrans(a, b, c, r, q, r);
    hide Ordered, Rearranged, Disjoint, Within, Weight;
    Refine(b, c, r, q, [], rest, spawned);
    DisjointReplace(q, [], rest, spawned);
    WithinReplace(r, q, [], rest, spawned);
    Rotate(c, r, spawned, rest);
  }

  lemma CurrentWorks(st: State, boss: Tid, jobs: seq<seq<int>>)
    requires Crew(st, boss, jobs)
    ensures st.current in st.threads && Me(st) == st.threads[st.current]
  {
    hide Crew, Me;
    CrewParts(st, boss, jobs);
    CurrentIsThere(st);
  }

  lemma FirstIsWithin(a: seq<int>, b: seq<int>, r: Range, pending: seq<Range>)
    requires 0 <= r.lo && r.hi < |a| && SortedUpTo(a, b, r, pending) && pending != []
    ensures |b| == |a| && r.lo <= pending[0].lo && pending[0].lo <= pending[0].hi + 1 && pending[0].hi <= r.hi
  {
    assert pending[0] in pending;
  }

  /** One worker from its start to its exit. */
  method Work(nums: array<int>, k: K.Kernel, cutoff: int, ghost boss: Tid, ghost r: Range, ghost a: seq<int>,
      ghost pending: seq<Range>)
    returns (ghost now: seq<Range>)
    requires k.current != boss && pending != [] && Crew(k.Value(), boss, Jobs(pending[1..], cutoff))
    requires Me(k.Value()).args == Encoded(pending[0].lo, pending[0].hi, cutoff)
    requires 0 <= r.lo && r.hi < |a| == nums.Length && SortedUpTo(a, nums[..], r, pending)
    modifies nums, k
    ensures SortedUpTo(a, nums[..], r, now) && Weight(now) < Weight(pending)
    ensures if now == [] then Finished(k.Value(), boss) else
              && k.current != boss && Crew(k.Value(), boss, Jobs(now[1..], cutoff))
              && Me(k.Value()).args == Encoded(now[0].lo, now[0].hi, cutoff)
  {
    hide Crew, Me, Jobs, Inv, SortedUpTo, Weight;
    ghost var b, q, rest := nums[..], pending[0], pending[1..];
    FirstIsWithin(a, b, r, pending);
    CurrentWorks(k.Value(), boss, Jobs(rest, cutoff));
    var mine := k.threads[k.current].args;
    var args := new Args(nums, mine[0], mine[1], mine[2]);
    ghost var spawned := Quick(args, k, boss, Jobs(rest, cutoff));
    now := rest + spawned;
    WorkerDone(a, b, nums[..], r, pending, spawned);
    JobsAdd([], rest, spawned, cutoff);
    assert [] + Jobs(rest, cutoff) == Jobs(rest, cutoff);
    assert [] + Jobs(now, cutoff) == Jobs(now, cutoff);
    Leaves(k, boss, now, cutoff);
  }

  lemma CurrentIsThere(st: State)
    requires Inv(st) && st.status == Live
    ensures st.current in st.threads && Me(st) == st.threads[st.current]
  {
    CurrentIsAlive(st);
  }

  /** The boss is back and may go on after `thread_join(NULL)`. */
  ghost predicate Finished(st: State, boss: Tid) {
    Inv(st) && Enabled(st, ResumeOp) && st.current == boss && Me(st).blk == OnAll
  }

  lemma MayLeave(st: State, boss: Tid, now: seq<Range>, cutoff: int)
    requires st.current != boss && Crew(st, boss, Jobs(now, cutoff))
    ensures Inv(st) && Enabled(st, ExitOp(0)) && Step(st, ExitOp(0)) == Exit(st, 0)
    ensures var x := Exit(st, 0);
            if now == [] then Finished(x, boss) else
              && x.current != boss && Crew(x, boss, Jobs(now[1..], cutoff))
              && Me(x).args == Encoded(now[0].lo, now[0].hi, cutoff)
  {
    CrewParts(st, boss, Jobs(now, cutoff));
    if now == [] {
      assert Jobs(now, cutoff) == [];
      hide Crew, Enabled, Inv, Jobs, Sched.Exit;
      CrewEnds(st, boss, 0);
    } else {
      assert Jobs(now, cutoff)[1..] == Jobs(now[1..], cutoff);
      assert Jobs(now, cutoff)[0] == Encoded(now[0].lo, now[0].hi, cutoff);
      hide Crew, Enabled, Inv, Jobs, Sched.Exit;
      CrewExit(st, boss, Jobs(now, cutoff), 0);
    }
    ExitOpIs(st, 0);
  }

  /** `thread_exit(0)`: the next worker runs, or the boss. */
  method Leaves(k: K.Kernel, ghost boss: Tid, ghost now: seq<Range>, cutoff: int)
    requires k.current != boss && Crew(k.Value(), boss, Jobs(now, cutoff))
    modifies k
    ensures if now == [] then Finished(k.Value(), boss) else
              && k.current != boss && Crew(k.Value(), boss, Jobs(now[1..], cutoff))
              && Me(k.Value()).args == Encoded(now[0].lo, now[0].hi, cutoff)
  {
    hide Crew, Enabled, Sched.Exit, Jobs, Inv;
    MayLeave(k.Value(), boss, now, cutoff);
    assert k.Valid();
    k.ThreadExit(0);
  }

  /** From the boss's `thread_join(NULL)` to its return, the workers take turns. */
  method RunWorkers(nums: array<int>, k: K.Kernel, cutoff: int, boss: Tid, ghost r: Range, ghost a: seq<int>,
      ghost before: seq<Range>)
    requires before != [] && k.current != boss && Crew(k.Value(), boss, Jobs(before[1..], cutoff))
    requires Me(k.Value()).args == Encoded(before[0].lo, before[0].hi, cutoff)
    requires 0 <= r.lo && r.hi < |a| == nums.Length && SortedUpTo(a, nums[..], r, before)
    modifies nums, k
    ensures SortedUpTo(a, nums[..], r, []) && Inv(k.Value()) && k.current == boss && k.numThrs == 1
  {
    hide Crew, Jobs, Me, SortedUpTo, Inv, Enabled, Weight, Encoded;
    ghost var pending := before;
    while k.current != boss
      invariant SortedUpTo(a, nums[..], r, pending)
      invariant if pending == [] then Finished(k.Value(), boss) else
                  && k.current != boss && Crew(k.Value(), boss, Jobs(pending[1..], cutoff))
                  && Me(k.Value()).args == Encoded(pending[0].lo, pending[0].hi, cutoff)
      decreases Weight(pending)
    {
      pending := Work(nums, k, cutoff, boss, r, a, pending);
    }
    Resumes(k, boss);
  }

  lemma SortedIsSorted(a: seq<int>, b: seq<int>, r: Range)
    requires 0 <= r.lo && r.hi < |a| && SortedUpTo(a, b, r, [])
    ensures multiset(b) == multiset(a) && |b| == |a|
    ensures (forall i, j :: r.lo <= i < j <= r.hi ==> b[i] <= b[j])
    ensures (forall i :: 0 <= i < |b| && !(r.lo <= i <= r.hi) ==> b[i] == a[i])
  {
    OrderedIsSorted(b, r);
  }

  lemma MayWait(st: State, boss: Tid, pending: seq<Range>, cutoff: int)
    requires Crew(st, boss, Jobs(pending, cutoff)) && st.current == boss
    ensures Inv(st) && Enabled(st, JoinAllOp) && Step(st, JoinAllOp) == JoinAll(st) && (st.num == 1 <==> pending == [])
    ensures pending == [] ==> JoinAll(st) == st
    ensures var j := JoinAll(st);
            pending != [] ==> && j.current != boss && Crew(j, boss, Jobs(pending[1..], cutoff))
                              && Me(j).args == Encoded(pending[0].lo, pending[0].hi, cutoff)
  {
    assert pending != [] ==> Jobs(pending, cutoff)[1..] == Jobs(pending[1..], cutoff);
    assert pending != [] ==> Jobs(pending, cutoff)[0] == Encoded(pending[0].lo, pending[0].hi, cutoff);
    assert pending == [] <==> Jobs(pending, cutoff) == [];
    assert st.num == 1 ==> JoinAll(st) == st;
    hide Crew, Enabled, Inv, Me, Jobs, JoinAll, Encoded;
    CrewParts(st, boss, Jobs(pending, cutoff));
    CrewJoinAll(st, boss, Jobs(pending, cutoff));
    JoinAllIs(st);
  }

  /** `thread_join(NULL)` up to its call of `run`, which starts the first worker, if there is one. */
  method Waits(k: K.Kernel, ghost boss: Tid, ghost pending: seq<Range>, cutoff: int) returns (alone: bool)
    requires Crew(k.Value(), boss, Jobs(pending, cutoff)) && k.current == boss
    modifies k
    ensures alone <==> pending == []
    ensures alone ==> Inv(k.Value()) && k.current == boss && k.numThrs == 1
    ensures !alone ==> && k.current != boss && Crew(k.Value(), boss, Jobs(pending[1..], cutoff))
                       && Me(k.Value()).args == Encoded(pending[0].lo, pending[0].hi, cutoff)
  {
    hide Crew, Enabled, Inv, Me, Jobs, JoinAll, Encoded;
    ghost var st := k.Value();
    MayWait(st, boss, pending, cutoff);
    assert k.Valid();
    alone := k.ThreadJoinAll();
  }

  /** `sort` on the only thread: sorted when `thread_join(NULL)` returns. */
  method Sort(nums: array<int>, start: int, end: int, cutoff: int, k: K.Kernel)
    requires 0 <= start && end < nums.Length
    requires Crew(k.Value(), k.current, [])
    modifies nums, k
    ensures forall i, j :: start <= i < j <= end ==> nums[i] <= nums[j]
    ensures multiset(nums[..]) == multiset(old(nums[..]))
    ensures forall i :: 0 <= i < nums.Length && !(start <= i <= end) ==> nums[i] == old(nums[i])
    ensures Inv(k.Value()) && k.current == old(k.current) && k.numThrs == 1
  {
    hide Crew, Jobs, Me, SortedUpTo, Inv, Weight;
    var boss := k.current;
    ghost var a, r := nums[..], Range(start, end);
    var args := new Args(nums, start, end, cutoff);
    ghost var pending := Quick(args, k, boss, []);
    assert [] + Jobs(pending, cutoff) == Jobs(pending, cutoff);
    var alone := Waits(k, boss, pending, cutoff);
    if !alone {
      RunWorkers(nums, k, cutoff, boss, r, a, pending);
      pending := [];
    }
    SortedIsSorted(a, nums[..], r);
  }

  method Resumes(k: K.Kernel, ghost boss: Tid)
    requires Finished(k.Value(), boss)
    modifies k
    ensures Inv(k.Value()) && k.current == boss && k.numThrs == 1
  {
    var code := k.JoinReturns();
  }
}

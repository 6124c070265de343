/** The invariant of the sieve network, one channel at a time. */
module SieveInv {
  import opened Primes
  import opened Rendezvous
  import opened Sieve

  predicate Survives(ps: seq<int>, n: int) {
    IsSource(n) && Sieved(ps, n)
  }

  /** The source numbers up to `n` that none of `ps` divides. */
  function Survivors(ps: seq<int>, n: int): seq<int> {
    if n < 2 then [] else Survivors(ps, n - 1) + if Survives(ps, n) then [n] else []
  }

  /** No survivor strictly between `a` and `b`. */
  ghost predicate Gap(ps: seq<int>, a: int, b: int) {
    forall n :: a < n < b ==> !Survives(ps, n)
  }

  // ---------------------------------------------------------------- one channel

  /** The process still has to make its receive of size zero. */
  predicate Open(pc: Pc) {
    !pc.Joining? && !pc.Finished?
  }

  predicate Talks(u: Pc, s: Slot, d: Pc, x: int) {
    match s
    case Empty => if Open(d) then u.Filtering? || u.Sending? else u.Closing? || u.Joining? || u.Finished?
    case Offered(m) => Open(d) && u.Awaiting? && m == [x]
    case Taken(n) => u.Awaiting? && n == if Open(d) then 1 else 0
  }

  predicate Holds(u: Pc, s: Slot) {
    u.Sending? || s.Offered?
  }

  /** Between `u` and `d`: `d` has received every survivor that `u` has found, except the one `u` may be holding. */
  ghost predicate ChannelOk(u: Node, s: Slot, d: Node, ps: seq<int>) {
    && Talks(u.pc, s, d.pc, u.x)
    && d.x <= u.x && Gap(ps, d.x, u.x)
    && (Holds(u.pc, s) ==> d.x < u.x && Survives(ps, u.x))
    && (!Holds(u.pc, s) && Open(d.pc) ==> Gap(ps, d.x, u.x + 1))
  }

  // ---------------------------------------------------------------- one process

  /** How many primes the processes before node `k` hold. */
  function Base(k: nat, p: Params): int {
    (k - 1) * p.n
  }

  lemma BaseNext(k: nat, p: Params)
    ensures Base(k + 1, p) == Base(k, p) + p.n && (k >= 1 ==> Base(k, p) >= 0)
  {
    if k >= 1 {
      TimesNat(k - 1, p.n);
    }
  }

  lemma TimesNat(a: nat, b: nat)
    ensures a * b >= 0
  {
  }

  ghost predicate SourceOk(nd: Node) {
    (nd.pc.Sending? || nd.pc.Awaiting? || nd.pc.Finished?) && nd.primes == [] && IsSource(nd.x)
  }

  ghost predicate NodeOk(nd: Node, k: nat, isLast: bool, actual: seq<int>, p: Params)
    requires k >= 1
  {
    && 0 <= Base(k, p) && Base(k, p) + |nd.primes| <= |actual|
    && nd.primes == actual[Base(k, p)..Base(k, p) + |nd.primes|]
    && nd.got == Survivors(actual[..Base(k, p)], nd.x)
    && if isLast then |nd.primes| < p.n && Base(k, p) + |nd.primes| == |actual| && (nd.pc.Sinking? || nd.pc.Ending? || nd.pc.Finished?)
       else |nd.primes| == p.n && !nd.pc.Sinking? && !nd.pc.Ending?
  }

  /** A sender of survivors that no divisor up to `last` can stop: numbers one above a multiple of `2 * last!`. */
  function Universal(c: int, p: Params): int {
    c * (2 * Factorial(p.last)) + 1
  }

  /** The last sink has recorded exactly the primes among the numbers it knows to be through with. */
  ghost predicate ActualOk(last: Node, actual: seq<int>, p: Params) {
    && actual == PrimesUpTo(if last.x < p.last then last.x else p.last)
    && last.x >= 1
    && (if last.pc.Sinking? then last.x < Universal(1, p) else p.last < last.x <= Universal(1, p))
  }

  ghost predicate Shape(net: Net, p: Params) {
    p.n >= 1 && |net.nodes| >= 2 && |net.slots| == |net.nodes|
  }

  ghost predicate ChannelAt(net: Net, k: nat, p: Params)
    requires Shape(net, p) && 1 <= k < |net.nodes|
  {
    0 <= Base(k, p) <= |net.actual| && ChannelOk(net.nodes[k - 1], net.slots[k], net.nodes[k], net.actual[..Base(k, p)])
  }

  /** `full` says that the last node has all its primes and is about to start another sink. */
  ghost predicate Linked(net: Net, full: bool, p: Params) {
    && Shape(net, p)
    && SourceOk(net.nodes[0])
    && (forall k :: 1 <= k < |net.nodes| ==> NodeOk(net.nodes[k], k, k == |net.nodes| - 1 && !full, net.actual, p))
    && (forall k :: 1 <= k < |net.nodes| ==> ChannelAt(net, k, p))
    && (forall k :: 1 <= k < |net.nodes| - 1 && net.nodes[k].pc.Finished? ==> net.nodes[k + 1].pc.Finished?)
  }

  ghost predicate Inv(net: Net, p: Params) {
    Linked(net, false, p) && ActualOk(net.nodes[|net.nodes| - 1], net.actual, p)
  }

  // ---------------------------------------------------------------- what a step does to a channel

  lemma OfferKeeps(u: Node, s: Slot, d: Node, ps: seq<int>)
    requires ChannelOk(u, s, d, ps) && u.pc.Sending? && s.Empty?
    ensures ChannelOk(u.(pc := Awaiting), Offered([u.x]), d, ps)
  {
  }

  /** The receiver of a channel moves on without touching it. */
  lemma ReceiverMoves(u: Node, s: Slot, d: Node, e: Node, ps: seq<int>)
    requires ChannelOk(u, s, d, ps) && e.x == d.x && Open(e.pc) == Open(d.pc)
    ensures ChannelOk(u, s, e, ps)
  {
  }

  lemma FilterTold(u: Node, s: Slot, d: Node, ps: seq<int>)
    requires ChannelOk(u, s, d, ps) && u.pc.Awaiting? && s.Taken?
    ensures ChannelOk(Sent(u, false, s.n), Empty, d, ps)
  {
  }

  lemma SourceTold(u: Node, s: Slot, d: Node)
    requires ChannelOk(u, s, d, []) && u.pc.Awaiting? && s.Taken? && IsSource(u.x)
    ensures ChannelOk(Sent(u, true, s.n), Empty, d, []) && SourceOk(Sent(u, true, s.n).(primes := []))
  {
  }

  /** A number is taken: sender side. */
  lemma TakeKeeps(u: Node, s: Slot, d: Node, e: Node, ps: seq<int>)
    requires ChannelOk(u, s, d, ps) && s.Offered? && Open(e.pc) && e.x == u.x
    ensures Delivered(s, d.x) == u.x && After(s, Take(1)) == Taken(1) && ChannelOk(u, Taken(1), e, ps)
  {
  }

  lemma CloseKeeps(u: Node, s: Slot, d: Node, e: Node, ps: seq<int>)
    requires ChannelOk(u, s, d, ps) && s.Offered? && !Open(e.pc) && e.x == d.x
    ensures After(s, Take(0)) == Taken(0) && ChannelOk(u, Taken(0), e, ps)
  {
  }

  /** A number is taken: the channel to the next process. */
  lemma FilteredKeeps(u: Node, s: Slot, d: Node, ps: seq<int>, x: int)
    requires ChannelOk(u, s, d, ps + u.primes) && u.pc.Filtering? && u.x < x && Gap(ps, u.x, x) && Survives(ps, x)
    ensures ChannelOk(Filtered(u, x), s, d, ps + u.primes)
  {
    forall n | n < x && Survives(ps + u.primes, n) ensures n <= d.x {
      assert forall p :: p in ps ==> p in ps + u.primes;
      assert Survives(ps, n);
    }
    assert Sieved(ps + u.primes, x) <==> Sieved(u.primes, x) by {
      assert forall p :: p in u.primes ==> p in ps + u.primes;
      assert forall p :: p in ps + u.primes ==> p in ps || p in u.primes;
    }
  }

  lemma JoinKeeps(u: Node, s: Slot, d: Node, ps: seq<int>)
    requires ChannelOk(u, s, d, ps) && (u.pc.Closing? || u.pc.Joining?)
    ensures ChannelOk(u.(pc := Joining), s, d, ps) && ChannelOk(u.(pc := Finished), s, d, ps)
  {
  }

  /** A new sink knows what its parent knows. */
  lemma SpawnKeeps(ps: seq<int>, u: Node)
    requires u.pc.Filtering? && u.x in ps && u.x >= 2
    ensures ChannelOk(u, Empty, Node(Sinking, [], u.x, []), ps)
  {
    assert u.x % u.x == 0;
  }

  // ---------------------------------------------------------------- what a step does to a process

  lemma {:induction false} SurvivorsStay(ps: seq<int>, a: int, b: int)
    requires a <= b && Gap(ps, a, b + 1)
    ensures Survivors(ps, b) == Survivors(ps, a)
    decreases b - a
  {
    if a < b {
      SurvivorsStay(ps, a, b - 1);
    }
  }

  lemma SurvivorsGrow(ps: seq<int>, a: int, x: int)
    requires a < x && Gap(ps, a, x) && Survives(ps, x)
    ensures Survivors(ps, x) == Survivors(ps, a) + [x]
  {
    SurvivorsStay(ps, a, x - 1);
  }

  /** Nothing up to the largest recorded prime survives all recorded primes. */
  lemma {:induction false} NoSurvivorsYet(x: int, n: int)
    requires n <= x
    ensures Survivors(PrimesUpTo(x), n) == []
  {
    if n >= 2 {
      NoSurvivorsYet(x, n - 1);
      var q := PrimeDivisor(n);
      PrimesAreThese(x, q);
    }
  }

  lemma UniversalSurvives(p: Params, c: int, ps: seq<int>)
    requires c >= 1 && forall q :: q in ps ==> q in PrimesUpTo(p.last)
    ensures Survives(ps, Universal(c, p)) && Universal(c, p) > p.last
  {
    OneMoreIsSieved(p.last, c);
    FactorialPositive(p.last);
    var f := Factorial(p.last);
    assert Universal(c, p) == 2 * (c * f) + 1 by {
      Twice(c, f);
    }
    Grows(c, f);
    Grows(f, c);
    Commutes(c, f);
  }

  lemma Twice(c: int, f: int)
    ensures c * (2 * f) == 2 * (c * f)
  {
  }

  lemma Commutes(a: int, b: int)
    ensures a * b == b * a
  {
  }

  /** Numbers that `ps` stopped are no primes, once all of `ps` is below them. */
  lemma StoppedIsNoPrime(ps: seq<int>, a: int, n: int)
    requires 1 <= a < n && !Survives(ps, n) && (forall q :: q in ps ==> 2 <= q <= a)
    ensures !IsPrime(n)
  {
    if n % 2 == 0 && n != 2 {
      assert Divides(2, n);
    }
  }

  /** The number that the last sink receives next. */
  lemma SinkKeeps(nd: Node, x: int, ps: seq<int>, actual: seq<int>, p: Params)
    requires ActualOk(nd, actual, p) && nd.pc.Sinking? && actual == ps + nd.primes
    requires nd.x < x && Gap(ps, nd.x, x) && Survives(ps, x)
    ensures var m := Sunk(nd, x, p);
            var now := if Accepts(nd, x, p) then actual + [x] else actual;
            && x <= Universal(1, p) && now == PrimesUpTo(if x < p.last then x else p.last)
            && (if m.pc.Sinking? || m.pc.Filtering? then x < Universal(1, p) else p.last < x)
  {
    hide Universal, Factorial, IsSource;
    var low, high := if nd.x < p.last then nd.x else p.last, if x < p.last then x else p.last;
    SinkUniversal(nd, x, ps, actual, p);
    if x <= p.last {
      NextPrime(nd, x, ps, actual);
    } else {
      NoNextPrime(nd, x, ps, actual, p);
    }
  }

  lemma SinkUniversal(nd: Node, x: int, ps: seq<int>, actual: seq<int>, p: Params)
    requires ActualOk(nd, actual, p) && nd.pc.Sinking? && actual == ps + nd.primes
    requires nd.x < x && Gap(ps, nd.x, x)
    ensures x <= Universal(1, p) && Universal(1, p) > p.last && Sieved(nd.primes, Universal(1, p))
  {
    hide PrimesUpTo, Universal;
    forall q | q in actual ensures q in PrimesUpTo(p.last) {
      PrimesAreThese(if nd.x < p.last then nd.x else p.last, q);
      PrimesAreThese(p.last, q);
    }
    assert forall q :: q in ps ==> q in actual;
    assert forall q :: q in nd.primes ==> q in actual;
    UniversalSurvives(p, 1, ps);
    UniversalSurvives(p, 1, nd.primes);
  }

  /** Below `last`, the number is recorded exactly if it is the next prime. */
  lemma NextPrime(nd: Node, x: int, ps: seq<int>, actual: seq<int>)
    requires 1 <= nd.x < x && actual == PrimesUpTo(nd.x) && actual == ps + nd.primes && Gap(ps, nd.x, x)
             && Survives(ps, x)
    ensures PrimesUpTo(x) == if Sieved(nd.primes, x) then actual + [x] else actual
  {
    hide Divides, IsSource;
    forall q ensures q in actual <==> q <= nd.x && IsPrime(q) {
      PrimesAreThese(nd.x, q);
    }
    NoPrimesInGap(nd.x, x, ps, actual);
    NoPrimesBetween(nd.x, x - 1);
    SinkJudges(nd, x, ps, actual);
  }

  lemma NoPrimesInGap(a: int, b: int, ps: seq<int>, actual: seq<int>)
    requires 1 <= a && Gap(ps, a, b) && (forall q :: q in ps ==> q in actual) && (forall q :: q in actual ==> q <= a && IsPrime(q))
    ensures forall n :: a < n < b ==> !IsPrime(n)
  {
    forall n | a < n < b ensures !IsPrime(n) {
      StoppedIsNoPrime(ps, a, n);
    }
  }

  /** Above `last` nothing is recorded any more, and nothing was missed. */
  lemma NoNextPrime(nd: Node, x: int, ps: seq<int>, actual: seq<int>, p: Params)
    requires ActualOk(nd, actual, p) && actual == ps + nd.primes && Gap(ps, nd.x, x) && x > p.last
    ensures actual == PrimesUpTo(p.last)
  {
    hide Divides, IsSource, Universal, PrimesUpTo;
    if nd.x < p.last {
      forall q ensures q in actual <==> q <= nd.x && IsPrime(q) {
        PrimesAreThese(nd.x, q);
      }
      NoPrimesInGap(nd.x, x, ps, actual);
      NoPrimesBetween(nd.x, p.last);
    }
  }

  /** A survivor of everything before is prime exactly when the sink's own primes let it pass. */
  lemma SinkJudges(nd: Node, x: int, ps: seq<int>, actual: seq<int>)
    requires 1 <= nd.x < x && actual == ps + nd.primes && Survives(ps, x)
    requires forall q :: q in actual <==> q <= nd.x && IsPrime(q)
    requires forall n :: nd.x < n < x ==> !IsPrime(n)
    ensures IsPrime(x) <==> Sieved(nd.primes, x)
  {
    hide Divides, IsSource;
    var q := PrimeDivisor(x);
    if !Sieved(nd.primes, x) {
      var d :| d in nd.primes && Divides(d, x);
      assert d in actual;
    } else {
      assert q in actual ==> q in ps || q in nd.primes;
    }
  }
}

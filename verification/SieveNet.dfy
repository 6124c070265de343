/** The sieve network updated in place, and run to its end under an arbitrary schedule. */
module SieveNet {
  import opened Primes
  import opened Rendezvous
  import opened Sieve
  import opened SieveInv
  import opened SieveSteps
  import opened SieveRuns

  /** The inner loop of `filter` and `sink`: the list of primes ends with a zero. */
  method FirstDivisor(primes: seq<int>, x: int) returns (j: nat)
    requires 0 in primes
    ensures j < |primes| && (primes[j] == 0 || Divides(primes[j], x))
    ensures forall i :: 0 <= i < j ==> primes[i] != 0 && !Divides(primes[i], x)
  {
    j := 0;
    while primes[j] != 0 && x % primes[j] != 0
      invariant j < |primes|
      invariant forall i :: 0 <= i < j ==> primes[i] != 0 && !Divides(primes[i], x)
      decreases |primes| - j
    {
      assert j == |primes| - 1 ==> 0 !in primes;
      j := j + 1;
    }
  }

  class Network {
    const p: Params
    const actual: array<int>
    var cnt: nat
    var nodes: seq<Node>
    var slots: seq<Slot>

    function Value(): Net
      requires cnt <= actual.Length
      reads this, actual
    {
      Net(nodes, slots, actual[..cnt])
    }

    ghost predicate Valid()
      reads this, actual
    {
      actual.Length == p.last && cnt <= actual.Length && Inv(Value(), p)
    }

    constructor (p: Params)
      requires p.n >= 1
      ensures Valid() && Value() == START && this.p == p && fresh(actual)
    {
      this.p := p;
      actual := new int[p.last];
      cnt := 0;
      nodes := START.nodes;
      slots := START.slots;
      new;
      StartInv(p);
      assert actual[..0] == [];
    }

    /** Whether the process lets `x` pass. */
    method Passes(k: nat, x: int) returns (ok: bool)
      requires k < |nodes| && 0 !in nodes[k].primes
      ensures ok <==> Sieved(nodes[k].primes, x)
    {
      var primes := nodes[k].primes + [0];
      var j := FirstDivisor(primes, x);
      ok := primes[j] == 0;
      assert forall i :: 0 <= i < |nodes[k].primes| ==> nodes[k].primes[i] == primes[i];
      assert !ok ==> primes[j] in nodes[k].primes;
      assert ok ==> j == |nodes[k].primes|;
    }

    method FilterReceives(k: nat)
      requires Valid() && CanGo(Value(), k) && nodes[k].pc.Filtering?
      modifies this`nodes, this`slots
      ensures Value() == Next(old(Value()), k, p)
    {
      ghost var before := Value();
      NoZeroPrimes(before, k, p);
      MessageIsThere(before, k, p);
      hide *;
      var x := Delivered(slots[k], nodes[k].x);
      var passes := Passes(k, x);
      var nd := nodes[k].(x := x, got := nodes[k].got + [x], pc := if passes then Sending else Filtering);
      FilterShape(before, k, nd, passes, p);
      nodes := nodes[k := nd];
      slots := slots[k := Taken(1)];
    }

    method SinkReceives(k: nat)
      requires Valid() && CanGo(Value(), k) && nodes[k].pc.Sinking?
      modifies this, actual
      ensures cnt <= actual.Length && Value() == Next(old(Value()), k, p)
    {
      ghost var before := Value();
      NoZeroPrimes(before, k, p);
      ActualFits(before, k, p);
      MessageIsThere(before, k, p);
      hide *;
      var nd, x := nodes[k], Delivered(slots[k], nodes[k].x);
      var m := nd.(x := x, got := nd.got + [x]);
      var passes := Passes(k, x);
      SinkIs(before, k, passes, p);
      slots := slots[k := Taken(1)];
      if !passes {
        nodes := nodes[k := m];
        return;
      }
      if x > p.last {
        nodes := nodes[k := m.(pc := Ending)];
        return;
      }
      actual[cnt] := x;
      cnt := cnt + 1;
      assert actual[..cnt] == before.actual + [x];
      if |nd.primes| + 1 == p.n {
        nodes := nodes[k := m.(primes := nd.primes + [x], pc := Filtering)] + [Node(Sinking, [], x, [])];
        slots := slots + [Empty];
      } else {
        nodes := nodes[k := m.(primes := nd.primes + [x])];
      }
    }

    /** One step of process `k`. */
    method Step(k: nat)
      requires Valid() && CanGo(Value(), k)
      modifies this, actual
      ensures Valid() && Value() == Next(old(Value()), k, p)
    {
      StepKeepsInv(Value(), k, p);
      var nd := nodes[k];
      var j := if nd.pc.Sending? || nd.pc.Awaiting? then k + 1 else k;
      hide Inv, Sieved, IsSource, Filtered, Sink, Sunk;
      match nd.pc
      case Sinking => SinkReceives(k);
      case Filtering => FilterReceives(k);
      case Sending =>
        slots := slots[j := Offered([nd.x])];
        nodes := nodes[k := nd.(pc := Awaiting)];
      case Awaiting =>
        nodes := nodes[k := Sent(nd, k == 0, slots[j].n)];
        slots := slots[j := Empty];
      case Closing =>
        slots := slots[k := Taken(0)];
        nodes := nodes[k := nd.(pc := Joining)];
      case Ending =>
        slots := slots[k := Taken(0)];
        nodes := nodes[k := nd.(pc := Finished)];
      case Joining =>
        nodes := nodes[k := nd.(pc := Finished)];
    }

    /** `thread_join(NULL)` in `sieve_test`: any process that can go may go next, until none is left. */
    method RunToEnd()
      requires Valid()
      modifies this, actual
      ensures Valid() && AllFinished(Value()) && actual[..cnt] == PrimesUpTo(p.last)
    {
      while exists i :: 0 <= i < |nodes| && CanGo(Value(), i)
        invariant Valid()
        decreases Measure(Value(), p)
      {
        var k: nat :| k < |nodes| && CanGo(Value(), k);
        MeasureDrops(Value(), k, p);
        WorkIsNat(Value(), p.last + 2, p);
        hide Inv, CanGo, WorkUpTo;
        Step(k);
      }
      StuckIsFinished(Value(), p);
      FinishedIsRight(Value(), p);
    }
  }

  lemma StuckIsFinished(net: Net, p: Params)
    requires Inv(net, p) && forall i :: 0 <= i < |net.nodes| ==> !CanGo(net, i)
    ensures AllFinished(net)
  {
    hide Inv, CanGo, AllFinished;
    if !AllFinished(net) {
      var i := SomebodyCanGo(net, p);
      CanGoExists(net, i);
    }
  }

  /** A receive finds a message of one int. */
  lemma MessageIsThere(net: Net, k: nat, p: Params)
    requires Inv(net, p) && CanGo(net, k) && (net.nodes[k].pc.Sinking? || net.nodes[k].pc.Filtering?)
    ensures |net.slots| == |net.nodes| && k < |net.slots| && net.slots[k].Offered? && |net.slots[k].msg| == 1
    ensures Possible(net.slots[k], Take(1)) && After(net.slots[k], Take(1)) == Taken(1)
  {
    SizesOf(net, p);
    TalksAt(net, k, p);
    hide Inv;
  }

  lemma NoZeroPrimes(net: Net, k: nat, p: Params)
    requires Inv(net, p) && k < |net.nodes|
    ensures 0 !in net.nodes[k].primes
  {
    if k >= 1 {
      PrimesOf(net, k, p);
      ActualIsSmall(net, p);
      hide Inv;
      if 0 in net.nodes[k].primes {
        assert 0 in net.actual[..Base(k, p)] + net.nodes[k].primes;
        assert 0 in net.actual;
        PrimesAreThese(p.last, 0);
      }
    }
  }

  /** There is room in `actual` for the next prime. */
  lemma ActualFits(net: Net, k: nat, p: Params)
    requires Inv(net, p) && CanGo(net, k) && net.nodes[k].pc.Sinking?
    ensures |net.actual| <= p.last && |net.slots| == |net.nodes| && k < |net.slots| && net.slots[k].Offered?
    ensures var x := Delivered(net.slots[k], net.nodes[k].x); Sieved(net.nodes[k].primes, x) && x <= p.last ==> |net.actual| < p.last
  {
    var m := Next(net, k, p);
    StepKeepsInv(net, k, p);
    FewPrimes(p.last);
    ResultFits(net, p);
    ResultFits(m, p);
    hide Inv, Sieved;
  }

  lemma ResultFits(net: Net, p: Params)
    requires Inv(net, p)
    ensures |net.actual| <= p.last
  {
    var x := net.nodes[|net.nodes| - 1].x;
    FewPrimes(if x < p.last then x else p.last);
    assert net.actual == PrimesUpTo(if x < p.last then x else p.last);
  }

  lemma FilterShape(net: Net, k: nat, nd: Node, passes: bool, p: Params)
    requires CanGo(net, k) && net.nodes[k].pc.Filtering? && |net.slots| == |net.nodes| && net.slots[k].Offered? && |net.slots[k].msg| == 1
    requires var x := Delivered(net.slots[k], net.nodes[k].x);
             && passes == Sieved(net.nodes[k].primes, x)
             && nd == net.nodes[k].(x := x, got := net.nodes[k].got + [x], pc := if passes then Sending else Filtering)
    ensures Next(net, k, p) == net.(nodes := net.nodes[k := nd], slots := net.slots[k := Taken(1)])
  {
    hide Sieved;
  }

  lemma SinkIs(net: Net, k: nat, passes: bool, p: Params)
    requires CanGo(net, k) && net.nodes[k].pc.Sinking? && |net.slots| == |net.nodes| && net.slots[k].Offered? && |net.slots[k].msg| == 1
    requires passes == Sieved(net.nodes[k].primes, Delivered(net.slots[k], net.nodes[k].x))
    ensures var nd, x := net.nodes[k], Delivered(net.slots[k], net.nodes[k].x);
            var m := nd.(x := x, got := nd.got + [x]);
            var slots := net.slots[k := Taken(1)];
            Next(net, k, p) ==
            if !passes then Net(net.nodes[k := m], slots, net.actual)
            else if x > p.last then Net(net.nodes[k := m.(pc := Ending)], slots, net.actual)
            else if |nd.primes| + 1 == p.n then
              Net(net.nodes[k := m.(primes := nd.primes + [x], pc := Filtering)] + [Node(Sinking, [], x, [])], slots + [Empty], net.actual + [x])
            else Net(net.nodes[k := m.(primes := nd.primes + [x])], slots, net.actual + [x])
  {
    hide Sieved;
  }
}

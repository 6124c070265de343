/** Every step of the sieve network keeps its invariant. */
module SieveSteps {
  import opened Primes
  import opened Rendezvous
  import opened Sieve
  import opened SieveInv

  /** Only process `k` and the channels next to it differ. */
  ghost predicate Around(net: Net, m: Net, k: nat) {
    && k < |net.nodes| == |m.nodes| && |m.slots| == |net.slots| == |net.nodes|
    && (forall i :: 0 <= i < |net.nodes| && i != k ==> m.nodes[i] == net.nodes[i])
    && (forall i :: 0 <= i < |net.nodes| && i != k && i != k + 1 ==> m.slots[i] == net.slots[i])
    && net.actual <= m.actual
    && (m.actual == net.actual || k == |net.nodes| - 1)
  }

  /** What has to be shown about the process that moved. */
  ghost predicate Good(m: Net, k: nat, full: bool, p: Params)
    requires Shape(m, p) && k < |m.nodes|
  {
    && (if k == 0 then SourceOk(m.nodes[0]) else NodeOk(m.nodes[k], k, k == |m.nodes| - 1 && !full, m.actual, p))
    && (k >= 1 ==> ChannelAt(m, k, p))
    && (k + 1 < |m.nodes| ==> ChannelAt(m, k + 1, p))
    && (1 <= k < |m.nodes| - 1 && m.nodes[k].pc.Finished? ==> m.nodes[k + 1].pc.Finished?)
  }

  lemma NodeStays(nd: Node, k: nat, actual: seq<int>, more: seq<int>, p: Params)
    requires k >= 1 && actual <= more && NodeOk(nd, k, false, actual, p)
    ensures NodeOk(nd, k, false, more, p)
  {
    assert more[..Base(k, p)] == actual[..Base(k, p)];
  }

  lemma ChannelStays(net: Net, m: Net, k: nat, i: nat, p: Params)
    requires Shape(net, p) && Around(net, m, k) && 1 <= i < |net.nodes| && i != k && i != k + 1 && ChannelAt(net, i, p)
    ensures ChannelAt(m, i, p)
  {
    hide ChannelOk, Base;
    assert m.actual[..Base(i, p)] == net.actual[..Base(i, p)];
  }

  lemma Relinked(net: Net, m: Net, k: nat, full: bool, p: Params)
    requires Linked(net, false, p) && Around(net, m, k) && Good(m, k, full, p) && !net.nodes[k].pc.Finished?
    requires full ==> k == |net.nodes| - 1
    ensures Linked(m, full, p)
  {
    hide ChannelOk, Base, NodeOk, SourceOk;
    forall i | 1 <= i < |m.nodes| ensures NodeOk(m.nodes[i], i, i == |m.nodes| - 1 && !full, m.actual, p) {
      if i != k && m.actual != net.actual {
        NodeStays(net.nodes[i], i, net.actual, m.actual, p);
      }
    }
    forall i | 1 <= i < |m.nodes| ensures ChannelAt(m, i, p) {
      if i != k && i != k + 1 {
        ChannelStays(net, m, k, i, p);
      }
    }
    assert forall i :: 1 <= i < |m.nodes| - 1 && i != k ==> m.nodes[i] == net.nodes[i];
  }

  // ---------------------------------------------------------------- steps that touch the output channel

  /** What the invariant says about node `k` and the channels next to it. */
  lemma Parts(net: Net, k: nat, p: Params)
    requires Inv(net, p) && 1 <= k < |net.nodes|
    ensures |net.slots| == |net.nodes| && 0 <= Base(k, p) <= |net.actual| && NodeOk(net.nodes[k], k, k == |net.nodes| - 1, net.actual, p)
    ensures ChannelOk(net.nodes[k - 1], net.slots[k], net.nodes[k], net.actual[..Base(k, p)])
    ensures k + 1 < |net.nodes| ==>
              && 0 <= Base(k + 1, p) <= |net.actual|
              && ChannelOk(net.nodes[k], net.slots[k + 1], net.nodes[k + 1], net.actual[..Base(k + 1, p)])
    ensures k == |net.nodes| - 1 ==> ActualOk(net.nodes[k], net.actual, p)
  {
    hide Base, ChannelOk, NodeOk, ActualOk, SourceOk;
    assert ChannelAt(net, k, p);
    assert k + 1 < |net.nodes| ==> ChannelAt(net, k + 1, p);
  }

  lemma SendingKeeps(net: Net, k: nat, p: Params)
    requires Inv(net, p) && CanGo(net, k) && net.nodes[k].pc.Sending?
    ensures Inv(Next(net, k, p), p)
  {
    var nd, m := net.nodes[k], Next(net, k, p);
    assert k + 1 < |net.nodes|;
    assert ChannelAt(net, k + 1, p);
    OfferKeeps(nd, net.slots[k + 1], net.nodes[k + 1], net.actual[..Base(k + 1, p)]);
    PassesOn(net, m, k, p);
  }

  lemma PassedNode(nd: Node, e: Node, k: nat, actual: seq<int>, p: Params)
    requires k >= 1 && NodeOk(nd, k, false, actual, p) && e.primes == nd.primes && e.got == nd.got && e.x == nd.x
    requires !e.pc.Sinking? && !e.pc.Ending?
    ensures NodeOk(e, k, false, actual, p)
  {
    hide Base, Survivors;
  }

  lemma InputSame(net: Net, m: Net, k: nat, p: Params)
    requires Shape(m, p) && 1 <= k < |m.nodes| && m.actual == net.actual && 0 <= Base(k, p) <= |net.actual|
    requires ChannelOk(m.nodes[k - 1], m.slots[k], m.nodes[k], net.actual[..Base(k, p)])
    ensures ChannelAt(m, k, p)
  {
    hide Base, ChannelOk;
  }

  /** The process keeps its number; its output channel is in order. */
  lemma PassesOn(net: Net, m: Net, k: nat, p: Params)
    requires Inv(net, p) && Around(net, m, k) && m.actual == net.actual && k + 1 < |net.nodes| && m.slots[k] == net.slots[k]
    requires var nd, e := net.nodes[k], m.nodes[k];
             && !nd.pc.Finished? && e.primes == nd.primes && e.got == nd.got && !e.pc.Sinking? && !e.pc.Ending?
             && (k == 0 ==> SourceOk(e))
             && (k >= 1 ==> e.x == nd.x && Open(e.pc) == Open(nd.pc) && !e.pc.Finished?)
    requires ChannelAt(m, k + 1, p)
    ensures Inv(m, p)
  {
    hide ChannelOk, Base, Open, NodeOk, ActualOk, SourceOk;
    if k >= 1 {
      Parts(net, k, p);
      ReceiverMoves(net.nodes[k - 1], net.slots[k], net.nodes[k], m.nodes[k], net.actual[..Base(k, p)]);
      PassedNode(net.nodes[k], m.nodes[k], k, net.actual, p);
    }
    hide ChannelAt;
    assert k >= 1 ==> ChannelAt(m, k, p) by {
      if k >= 1 {
        InputSame(net, m, k, p);
      }
    }
    Relinked(net, m, k, false, p);
  }

  lemma AwaitingKeeps(net: Net, k: nat, p: Params)
    requires Inv(net, p) && CanGo(net, k) && net.nodes[k].pc.Awaiting?
    ensures Inv(Next(net, k, p), p)
  {
    var nd, m := net.nodes[k], Next(net, k, p);
    assert k + 1 < |net.nodes|;
    assert ChannelAt(net, k + 1, p);
    if k == 0 {
      assert net.actual[..Base(1, p)] == [];
      SourceTold(nd, net.slots[1], net.nodes[1]);
    } else {
      FilterTold(nd, net.slots[k + 1], net.nodes[k + 1], net.actual[..Base(k + 1, p)]);
    }
    PassesOn(net, m, k, p);
  }

  // ---------------------------------------------------------------- steps that touch the input channel

  /** The next number is a survivor of everything before. */
  lemma Incoming(net: Net, k: nat, p: Params)
    requires Inv(net, p) && 1 <= k < |net.nodes| && net.slots[k].Offered?
    ensures 0 <= Base(k, p) <= |net.actual|
    ensures var d, x := net.nodes[k], net.nodes[k - 1].x;
            && Open(d.pc) && d.x < x && Gap(net.actual[..Base(k, p)], d.x, x) && Survives(net.actual[..Base(k, p)], x)
            && Delivered(net.slots[k], d.x) == x
  {
    hide Gap, Survives, Base;
    assert ChannelAt(net, k, p);
  }

  lemma HasInput(net: Net, k: nat, p: Params)
    requires Inv(net, p) && k < |net.nodes| && !net.nodes[k].pc.Sending? && !net.nodes[k].pc.Awaiting? && !net.nodes[k].pc.Finished?
    ensures k >= 1
  {
  }

  lemma PrimesOf(net: Net, k: nat, p: Params)
    requires Inv(net, p) && 1 <= k < |net.nodes|
    ensures 0 <= Base(k, p) <= Base(k, p) + |net.nodes[k].primes| <= |net.actual|
    ensures net.actual[..Base(k, p) + |net.nodes[k].primes|] == net.actual[..Base(k, p)] + net.nodes[k].primes
    ensures k < |net.nodes| - 1 ==> Base(k + 1, p) == Base(k, p) + |net.nodes[k].primes|
    ensures k == |net.nodes| - 1 ==> net.actual == net.actual[..Base(k, p)] + net.nodes[k].primes
  {
    hide Base, Survivors, ChannelOk;
    assert NodeOk(net.nodes[k], k, k == |net.nodes| - 1, net.actual, p);
    BaseNext(k, p);
  }

  /** A process and its input channel changed. */
  lemma Receives(net: Net, m: Net, k: nat, e: Node, s: Slot, p: Params)
    requires Inv(net, p) && 1 <= k < |net.nodes| == |net.slots| && !net.nodes[k].pc.Finished?
    requires m == net.(nodes := net.nodes[k := e], slots := net.slots[k := s])
    requires NodeOk(e, k, k == |net.nodes| - 1, net.actual, p) && 0 <= Base(k, p) <= |net.actual|
    requires ChannelOk(net.nodes[k - 1], s, e, net.actual[..Base(k, p)])
    requires k + 1 < |net.nodes| ==>
               && 0 <= Base(k + 1, p) <= |net.actual|
               && ChannelOk(e, net.slots[k + 1], net.nodes[k + 1], net.actual[..Base(k + 1, p)])
               && (e.pc.Finished? ==> net.nodes[k + 1].pc.Finished?)
    requires k == |net.nodes| - 1 ==> ActualOk(e, net.actual, p)
    ensures Inv(m, p)
  {
    hide Base, ChannelOk, NodeOk, ActualOk, SourceOk;
    assert ChannelAt(m, k, p);
    assert k + 1 < |net.nodes| ==> ChannelAt(m, k + 1, p);
    assert Good(m, k, false, p);
    assert Around(net, m, k);
    hide ChannelAt, Good, Around;
    Relinked(net, m, k, false, p);
  }

  lemma Filters(net: Net, k: nat, p: Params)
    requires Inv(net, p) && CanGo(net, k) && net.nodes[k].pc.Filtering?
    ensures 1 <= k < |net.nodes| - 1 && |net.slots| == |net.nodes| && net.slots[k].Offered? && Possible(net.slots[k], Take(1))
    ensures var x := Delivered(net.slots[k], net.nodes[k].x);
            Next(net, k, p) ==
            net.(nodes := net.nodes[k := Filtered(net.nodes[k], x)], slots := net.slots[k := After(net.slots[k], Take(1))])
  {
    HasInput(net, k, p);
    assert NodeOk(net.nodes[k], k, k == |net.nodes| - 1, net.actual, p);
    hide Filtered, Base, ChannelOk, NodeOk, Delivered;
  }

  lemma FilteredNode(nd: Node, k: nat, x: int, actual: seq<int>, p: Params)
    requires k >= 1 && NodeOk(nd, k, false, actual, p) && nd.pc.Filtering?
    requires Survivors(actual[..Base(k, p)], x) == Survivors(actual[..Base(k, p)], nd.x) + [x]
    ensures NodeOk(Filtered(nd, x), k, false, actual, p)
  {
    hide Base, Survivors, Sieved;
  }

  lemma FilteringKeeps(net: Net, k: nat, p: Params)
    requires Inv(net, p) && CanGo(net, k) && net.nodes[k].pc.Filtering?
    ensures Inv(Next(net, k, p), p)
  {
    hide *;
    Filters(net, k, p);
    Parts(net, k, p);
    Incoming(net, k, p);
    PrimesOf(net, k, p);
    var nd, x, ps := net.nodes[k], net.nodes[k - 1].x, net.actual[..Base(k, p)];
    var e := Filtered(nd, x);
    FilteredShape(nd, x);
    TakeKeeps(net.nodes[k - 1], net.slots[k], nd, e, ps);
    FilteredKeeps(nd, net.slots[k + 1], net.nodes[k + 1], ps, x);
    SurvivorsGrow(ps, nd.x, x);
    FilteredNode(nd, k, x, net.actual, p);
    Receives(net, Next(net, k, p), k, e, Taken(1), p);
  }

  lemma FilteredShape(nd: Node, x: int)
    ensures var e := Filtered(nd, x);
            Open(e.pc) && e.x == x && e.primes == nd.primes && e.got == nd.got + [x] && (e.pc.Sending? || e.pc.Filtering?)
  {
  }

  lemma Closes(net: Net, k: nat, p: Params)
    requires Inv(net, p) && CanGo(net, k) && (net.nodes[k].pc.Closing? || net.nodes[k].pc.Ending?)
    ensures 1 <= k < |net.nodes| == |net.slots| && net.slots[k].Offered? && Possible(net.slots[k], Take(0))
    ensures net.nodes[k].pc.Closing? <==> k < |net.nodes| - 1
    ensures Next(net, k, p) ==
            net.(nodes := net.nodes[k := net.nodes[k].(pc := if net.nodes[k].pc.Closing? then Joining else Finished)],
                 slots := net.slots[k := After(net.slots[k], Take(0))])
  {
    HasInput(net, k, p);
    assert NodeOk(net.nodes[k], k, k == |net.nodes| - 1, net.actual, p);
    hide Base, ChannelOk, Survivors;
  }

  lemma OpenOf(nd: Node)
    ensures Open(nd.pc) <==> !nd.pc.Joining? && !nd.pc.Finished?
  {
  }

  lemma ClosedNode(nd: Node, k: nat, isLast: bool, actual: seq<int>, p: Params)
    requires k >= 1 && NodeOk(nd, k, isLast, actual, p) && (if isLast then nd.pc.Ending? else !nd.pc.Ending?)
    ensures isLast ==> NodeOk(nd.(pc := Finished), k, true, actual, p)
    ensures isLast && ActualOk(nd, actual, p) ==> ActualOk(nd.(pc := Finished), actual, p)
    ensures !isLast ==> NodeOk(nd.(pc := Joining), k, false, actual, p) && NodeOk(nd.(pc := Finished), k, false, actual, p)
  {
    hide Base, Survivors, Universal, PrimesUpTo;
  }

  lemma ClosingKeeps(net: Net, k: nat, p: Params)
    requires Inv(net, p) && CanGo(net, k) && (net.nodes[k].pc.Closing? || net.nodes[k].pc.Ending?)
    ensures Inv(Next(net, k, p), p)
  {
    hide *;
    Closes(net, k, p);
    Parts(net, k, p);
    var nd := net.nodes[k];
    var e := nd.(pc := if nd.pc.Closing? then Joining else Finished);
    OpenOf(e);
    CloseKeeps(net.nodes[k - 1], net.slots[k], nd, e, net.actual[..Base(k, p)]);
    ClosedNode(nd, k, k == |net.nodes| - 1, net.actual, p);
    if k < |net.nodes| - 1 {
      JoinKeeps(nd, net.slots[k + 1], net.nodes[k + 1], net.actual[..Base(k + 1, p)]);
    }
    Receives(net, Next(net, k, p), k, e, Taken(0), p);
  }

  lemma Joins(net: Net, k: nat, p: Params)
    requires Inv(net, p) && CanGo(net, k) && net.nodes[k].pc.Joining?
    ensures 1 <= k < |net.nodes| - 1 && |net.slots| == |net.nodes| && net.nodes[k + 1].pc.Finished?
    ensures Next(net, k, p) == net.(nodes := net.nodes[k := net.nodes[k].(pc := Finished)], slots := net.slots[k := net.slots[k]])
  {
    HasInput(net, k, p);
    assert net.slots == net.slots[k := net.slots[k]];
    hide Base, ChannelOk, NodeOk;
  }

  lemma JoiningKeeps(net: Net, k: nat, p: Params)
    requires Inv(net, p) && CanGo(net, k) && net.nodes[k].pc.Joining?
    ensures Inv(Next(net, k, p), p)
  {
    hide *;
    Joins(net, k, p);
    Parts(net, k, p);
    var nd := net.nodes[k];
    var e := nd.(pc := Finished);
    OpenOf(nd);
    OpenOf(e);
    JoinKeeps(nd, net.slots[k + 1], net.nodes[k + 1], net.actual[..Base(k + 1, p)]);
    ReceiverMoves(net.nodes[k - 1], net.slots[k], nd, e, net.actual[..Base(k, p)]);
    ClosedNode(nd, k, false, net.actual, p);
    Receives(net, Next(net, k, p), k, e, net.slots[k], p);
  }

  // ---------------------------------------------------------------- the sink takes a number

  /** The network just before a full sink starts its successor. */
  function Before(net: Net, k: nat, p: Params): Net
    requires k < |net.nodes| && k < |net.slots| && Possible(net.slots[k], Take(1))
  {
    var x := Delivered(net.slots[k], net.nodes[k].x);
    Net(net.nodes[k := Sunk(net.nodes[k], x, p)], net.slots[k := After(net.slots[k], Take(1))],
        if Accepts(net.nodes[k], x, p) then net.actual + [x] else net.actual)
  }

  lemma SinkingKeeps(net: Net, k: nat, p: Params)
    requires Inv(net, p) && CanGo(net, k) && net.nodes[k].pc.Sinking?
    ensures Inv(Next(net, k, p), p)
  {
    HasInput(net, k, p);
    assert NodeOk(net.nodes[k], k, k == |net.nodes| - 1, net.actual, p);
    assert k == |net.nodes| - 1;
    var b := Before(net, k, p);
    BeforeIsLinked(net, k, p);
    SinkShape(net, k, p);
    hide *;
    if b.nodes[k].pc == Filtering {
      Spawned(net, b, k, p);
    }
  }

  lemma SinkShape(net: Net, k: nat, p: Params)
    requires CanGo(net, k) && net.nodes[k].pc.Sinking? && k == |net.nodes| - 1 == |net.slots| - 1
    ensures Possible(net.slots[k], Take(1))
    ensures var b, m := Before(net, k, p), Next(net, k, p);
            && |b.nodes| == |net.nodes|
            && if b.nodes[k].pc == Filtering then m == Net(b.nodes + [Node(Sinking, [], b.nodes[k].x, [])], b.slots + [Empty], b.actual)
               else m == b
  {
  }

  lemma BeforeIsLinked(net: Net, k: nat, p: Params)
    requires Inv(net, p) && CanGo(net, k) && k == |net.nodes| - 1 >= 1 && net.nodes[k].pc.Sinking?
    ensures Possible(net.slots[k], Take(1))
    ensures var b := Before(net, k, p);
            && |b.nodes| == |net.nodes|
            && Linked(b, b.nodes[k].pc == Filtering, p)
            && (b.nodes[k].pc != Filtering ==> Inv(b, p))
            && (b.nodes[k].pc == Filtering ==> FullSink(b, k, p))
  {
    SunkFacts(net, k, p);
    SunkInput(net, k, p);
    var b := Before(net, k, p);
    var full := b.nodes[k].pc == Filtering;
    assert !net.nodes[k].pc.Finished?;
    assert Inv(net, p) ==> Linked(net, false, p);
    hide *;
    BeforeAround(net, k, p);
    GoodSink(b, k, full, p);
    Relinked(net, b, k, full, p);
    LinkedIsInv(b, k, p);
  }

  lemma LinkedIsInv(b: Net, k: nat, p: Params)
    requires k == |b.nodes| - 1
    ensures Linked(b, false, p) && ActualOk(b.nodes[k], b.actual, p) ==> Inv(b, p)
  {
    hide Linked, ActualOk;
  }

  lemma BeforeAround(net: Net, k: nat, p: Params)
    requires Shape(net, p) && k == |net.nodes| - 1 && Possible(net.slots[k], Take(1))
    ensures Around(net, Before(net, k, p), k)
  {
    hide Sunk, Accepts;
  }

  lemma GoodSink(b: Net, k: nat, full: bool, p: Params)
    requires Shape(b, p) && k == |b.nodes| - 1 && k >= 1 && NodeOk(b.nodes[k], k, !full, b.actual, p) && ChannelAt(b, k, p)
    ensures Good(b, k, full, p)
  {
    hide NodeOk, ChannelAt;
  }

  lemma SinkStart(net: Net, k: nat, p: Params)
    requires Inv(net, p) && CanGo(net, k) && k == |net.nodes| - 1 >= 1 && net.nodes[k].pc.Sinking?
    ensures NodeOk(net.nodes[k], k, true, net.actual, p) && ActualOk(net.nodes[k], net.actual, p) && 1 <= net.nodes[k].x
    ensures k < |net.slots| && net.slots[k].Offered? && Possible(net.slots[k], Take(1)) && Shape(Before(net, k, p), p)
    ensures var nd, x, b := net.nodes[k], net.nodes[k - 1].x, Before(net, k, p);
            && |b.nodes| == |net.nodes| && b.nodes[k] == Sunk(nd, x, p)
            && b.actual == if Accepts(nd, x, p) then net.actual + [x] else net.actual
  {
    Incoming(net, k, p);
    hide Base, NodeOk, Accepts, Sunk, ChannelAt;
    assert Possible(net.slots[k], Take(1));
  }

  /** The sink after taking its number. */
  lemma SunkFacts(net: Net, k: nat, p: Params)
    requires Inv(net, p) && CanGo(net, k) && k == |net.nodes| - 1 >= 1 && net.nodes[k].pc.Sinking?
    ensures net.slots[k].Offered? && Shape(Before(net, k, p), p)
    ensures var b := Before(net, k, p);
            && |b.nodes| == |net.nodes|
            && NodeOk(b.nodes[k], k, b.nodes[k].pc != Filtering, b.actual, p)
            && (b.nodes[k].pc != Filtering ==> ActualOk(b.nodes[k], b.actual, p))
            && (b.nodes[k].pc == Filtering ==> FullSink(b, k, p))
  {
    hide *;
    var nd, x := net.nodes[k], net.nodes[k - 1].x;
    SinkStart(net, k, p);
    var b := Before(net, k, p);
    Incoming(net, k, p);
    BaseNext(k, p);
    SunkIsOk(nd, k, x, net.actual, p);
    SunkIsFull(b, nd, k, x, net.actual, p);
  }

  lemma SunkIsOk(nd: Node, k: nat, x: int, actual: seq<int>, p: Params)
    requires k >= 1 && NodeOk(nd, k, true, actual, p) && ActualOk(nd, actual, p) && nd.pc.Sinking? && nd.x < x
    requires Gap(actual[..Base(k, p)], nd.x, x) && Survives(actual[..Base(k, p)], x)
    ensures var e, now := Sunk(nd, x, p), if Accepts(nd, x, p) then actual + [x] else actual;
            && NodeOk(e, k, e.pc != Filtering, now, p) && Base(k, p) + |e.primes| == |now|
            && now == PrimesUpTo(if x < p.last then x else p.last)
            && (e.pc != Filtering ==> ActualOk(e, now, p))
            && (e.pc == Filtering ==> x < Universal(1, p))
  {
    var ps := actual[..Base(k, p)];
    assert actual == ps + nd.primes;
    hide Base, Gap, Survives, Survivors, IsSource, Universal, PrimesUpTo;
    SinkKeeps(nd, x, ps, actual, p);
    SurvivorsGrow(ps, nd.x, x);
    SunkNode(nd, k, x, actual, if Accepts(nd, x, p) then actual + [x] else actual, p);
  }

  lemma SunkIsFull(b: Net, nd: Node, k: nat, x: int, actual: seq<int>, p: Params)
    requires k < |b.nodes| && b.nodes[k] == Sunk(nd, x, p) && k >= 1 && NodeOk(b.nodes[k], k, b.nodes[k].pc != Filtering, b.actual, p)
    requires nd.pc.Sinking? && 1 <= nd.x < x && Base(k + 1, p) == Base(k, p) + p.n
    requires b.actual == if Accepts(nd, x, p) then actual + [x] else actual
    requires Base(k, p) + |b.nodes[k].primes| == |b.actual| && b.actual == PrimesUpTo(if x < p.last then x else p.last)
    requires b.nodes[k].pc == Filtering ==> x < Universal(1, p)
    ensures b.nodes[k].pc == Filtering ==> FullSink(b, k, p)
  {
    hide Base, Survivors, Universal, PrimesUpTo, Sieved;
  }

  lemma SunkInput(net: Net, k: nat, p: Params)
    requires Inv(net, p) && CanGo(net, k) && k == |net.nodes| - 1 >= 1 && net.nodes[k].pc.Sinking?
    ensures Possible(net.slots[k], Take(1)) && Shape(Before(net, k, p), p)
    ensures |Before(net, k, p).nodes| == |net.nodes| && ChannelAt(Before(net, k, p), k, p)
  {
    Incoming(net, k, p);
    var b, ps, x := Before(net, k, p), net.actual[..Base(k, p)], net.nodes[k - 1].x;
    assert b.nodes[k] == Sunk(net.nodes[k], x, p);
    hide Base, Gap, Survives, Sieved;
    assert b.actual[..Base(k, p)] == ps;
    assert ChannelAt(net, k, p);
    TakeKeeps(net.nodes[k - 1], net.slots[k], net.nodes[k], b.nodes[k], ps);
  }

  lemma SunkNode(nd: Node, k: nat, x: int, actual: seq<int>, now: seq<int>, p: Params)
    requires k >= 1 && NodeOk(nd, k, true, actual, p) && nd.pc.Sinking? && nd.x < x
    requires Survivors(actual[..Base(k, p)], x) == nd.got + [x]
    requires now == if Accepts(nd, x, p) then actual + [x] else actual
    ensures var e := Sunk(nd, x, p); NodeOk(e, k, e.pc != Filtering, now, p) && Base(k, p) + |e.primes| == |now|
  {
    hide Base, Survivors, Sieved;
    assert now[..Base(k, p)] == actual[..Base(k, p)];
  }

  /** A sink that has just recorded its last prime. */
  ghost predicate FullSink(b: Net, k: nat, p: Params)
    requires k < |b.nodes|
  {
    var e := b.nodes[k];
    && e.pc.Filtering? && 2 <= e.x <= p.last && e.x < Universal(1, p) && b.actual == PrimesUpTo(e.x)
    && Base(k + 1, p) == |b.actual| && e.x in b.actual
  }

  lemma FullSinkIs(b: Net, k: nat, p: Params)
    requires k < |b.nodes| && FullSink(b, k, p)
    ensures var e := b.nodes[k];
            && e.pc.Filtering? && 2 <= e.x <= p.last && e.x < Universal(1, p) && b.actual == PrimesUpTo(e.x)
            && Base(k + 1, p) == |b.actual| && e.x in b.actual
  {
  }

  ghost predicate IsSpawned(b: Net, m: Net, k: nat) {
    && k == |b.nodes| - 1 >= 1 && |b.slots| == |b.nodes|
    && m == Net(b.nodes + [Node(Sinking, [], b.nodes[k].x, [])], b.slots + [Empty], b.actual)
  }

  lemma SpawnedNode(b: Net, m: Net, k: nat, i: nat, p: Params)
    requires Linked(b, true, p) && IsSpawned(b, m, k) && 1 <= i <= k
    ensures Shape(m, p) && ChannelAt(m, i, p) && NodeOk(m.nodes[i], i, false, m.actual, p)
  {
    hide Base, NodeOk, ChannelOk, SourceOk;
    assert ChannelAt(b, i, p);
  }

  lemma SpawnedChild(b: Net, m: Net, k: nat, p: Params)
    requires Linked(b, true, p) && IsSpawned(b, m, k) && FullSink(b, k, p)
    ensures Shape(m, p) && ChannelAt(m, k + 1, p) && NodeOk(m.nodes[k + 1], k + 1, true, m.actual, p)
    ensures ActualOk(m.nodes[k + 1], m.actual, p) && !m.nodes[k].pc.Finished?
  {
    FullSinkIs(b, k, p);
    hide Base, NodeOk, ChannelOk, SourceOk, ActualOk, FullSink, PrimesUpTo, Universal;
    ChildIsOk(b.nodes[k], b.actual, k, p);
  }

  lemma SpawnedEnds(b: Net, m: Net, k: nat, p: Params)
    requires Linked(b, true, p) && IsSpawned(b, m, k) && !m.nodes[k].pc.Finished?
    ensures SourceOk(m.nodes[0])
    ensures forall i :: 1 <= i < |m.nodes| - 1 && m.nodes[i].pc.Finished? ==> m.nodes[i + 1].pc.Finished?
  {
    hide NodeOk, ChannelAt, SourceOk;
    assert forall i :: 0 <= i <= k ==> m.nodes[i] == b.nodes[i];
  }

  lemma InvIntro(m: Net, p: Params)
    requires Shape(m, p) && |m.nodes| >= 2 && SourceOk(m.nodes[0])
    requires forall i :: 1 <= i < |m.nodes| ==> NodeOk(m.nodes[i], i, i == |m.nodes| - 1, m.actual, p) && ChannelAt(m, i, p)
    requires forall i :: 1 <= i < |m.nodes| - 1 && m.nodes[i].pc.Finished? ==> m.nodes[i + 1].pc.Finished?
    requires ActualOk(m.nodes[|m.nodes| - 1], m.actual, p)
    ensures Inv(m, p)
  {
    hide NodeOk, ChannelAt, SourceOk, ActualOk;
  }

  lemma Spawned(net: Net, b: Net, k: nat, p: Params)
    requires k == |b.nodes| - 1 >= 1 && Linked(b, true, p) && FullSink(b, k, p)
    ensures Inv(Net(b.nodes + [Node(Sinking, [], b.nodes[k].x, [])], b.slots + [Empty], b.actual), p)
  {
    var m := Net(b.nodes + [Node(Sinking, [], b.nodes[k].x, [])], b.slots + [Empty], b.actual);
    assert IsSpawned(b, m, k);
    hide *;
    SpawnedChild(b, m, k, p);
    SpawnedEnds(b, m, k, p);
    forall i | 1 <= i < |m.nodes| ensures NodeOk(m.nodes[i], i, i == |m.nodes| - 1, m.actual, p) && ChannelAt(m, i, p) {
      if i <= k {
        SpawnedNode(b, m, k, i, p);
      }
    }
    InvIntro(m, p);
  }

  lemma ChildIsOk(e: Node, actual: seq<int>, k: nat, p: Params)
    requires k >= 1 && p.n >= 1 && e.pc.Filtering? && 2 <= e.x <= p.last && e.x < Universal(1, p)
             && actual == PrimesUpTo(e.x)
    requires Base(k + 1, p) == |actual| && e.x in actual
    ensures var child := Node(Sinking, [], e.x, []);
            && NodeOk(child, k + 1, true, actual, p) && ActualOk(child, actual, p)
            && 0 <= Base(k + 1, p) <= |actual| && ChannelOk(e, Empty, child, actual[..Base(k + 1, p)])
  {
    SpawnKeeps(actual, e);
    NoSurvivorsYet(e.x, e.x);
    assert actual[..Base(k + 1, p)] == actual;
    hide Base, Survivors, Universal, PrimesUpTo, ChannelOk;
  }

  // ---------------------------------------------------------------- all steps

  lemma StepKeepsInv(net: Net, k: nat, p: Params)
    requires Inv(net, p) && CanGo(net, k)
    ensures Inv(Next(net, k, p), p)
  {
    assert k < |net.nodes|;
    hide *;
    match net.nodes[k].pc
    case Sinking => SinkingKeeps(net, k, p);
    case Filtering => FilteringKeeps(net, k, p);
    case Sending => SendingKeeps(net, k, p);
    case Awaiting => AwaitingKeeps(net, k, p);
    case Closing => ClosingKeeps(net, k, p);
    case Ending => ClosingKeeps(net, k, p);
    case Joining => JoiningKeeps(net, k, p);
    case Finished => NotFinished(net, k);
  }

  lemma NotFinished(net: Net, k: nat)
    requires CanGo(net, k)
    ensures !net.nodes[k].pc.Finished?
  {
  }

  lemma StartInv(p: Params)
    requires p.n >= 1
    ensures Inv(START, p)
  {
    FactorialPositive(p.last);
    assert Base(1, p) == 0;
    assert Survivors([], 1) == [];
    assert Universal(1, p) > 1;
    assert PrimesUpTo(1) == [];
    assert ChannelAt(START, 1, p);
  }
}

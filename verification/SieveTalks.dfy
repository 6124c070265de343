/** Each channel call of a sieve thread is one step of the network, or none. */
module SieveTalks {
  import opened Basics
  import opened Sched
  import opened SchedEffects
  import opened Rendezvous
  import opened Primes
  import opened Sieve
  import opened SieveThreads
  import opened SieveMoves
  import opened SieveCalls
  import C = Channel
  import CR = ChannelRuns
  import V = SieveInv

  // ---------------------------------------------------------------- who sits where

  lemma SeatStays(c: C.System, d: C.System, i: nat, nd: Node, t: Tid)
    requires Seat(c, i, nd, t) && Moved(c, d) && t != c.k.current
    ensures Seat(d, i, nd, t)
  {
    hide C.StageOf, Th;
  }

  lemma SeatsStay(m: Machine, k: nat, n: Machine)
    requires Seated(m) && NoDup(m.tids) && k < |m.nodes| && m.tids[k] == m.c.k.current && Moved(m.c, n.c)
    requires n.tids == m.tids && |n.nodes| == |m.nodes| && n.nodes == m.nodes[k := n.nodes[k]] && Seat(n.c, k, n.nodes[k], n.tids[k])
    ensures Seated(n)
  {
    hide Seat, Moved, NoDup;
    forall i | 0 <= i < |n.nodes| ensures Seat(n.c, i, n.nodes[i], n.tids[i]) {
      if i != k {
        OtherTid(m, i, k);
        SeatStays(m.c, n.c, i, m.nodes[i], m.tids[i]);
      }
    }
  }

  lemma StaffStays(m: Machine, k: nat, n: Machine)
    requires Staffed(m) && k < |m.tids| && m.tids[k] == m.c.k.current && Moved(m.c, n.c) && n.tids == m.tids
    ensures Staffed(n)
  {
    hide C.StageOf, Th, NoDup;
    assert m.tids[k] in m.tids;
  }

  lemma SameAlive(m: Machine, k: nat, n: Machine, i: nat)
    requires NoDup(m.tids) && k < |m.tids| && m.tids[k] == m.c.k.current && Alive(m, k) && Moved(m.c, n.c) && n.tids == m.tids && i < |m.tids|
    ensures Alive(n, i) == Alive(m, i)
  {
    hide Th;
    if i != k {
      OtherTid(m, i, k);
    }
  }

  lemma HandlesStay(m: Machine, k: nat, n: Machine)
    requires |m.tids| == |m.nodes| == |n.nodes| && Handles(m) && NoDup(m.tids) && k < |m.nodes| && m.tids[k] == m.c.k.current
    requires Alive(m, k) && Moved(m.c, n.c) && n.tids == m.tids && n.nodes == m.nodes[k := n.nodes[k]]
    requires 1 <= k < |m.nodes| - 1 && n.nodes[k].pc.Finished? ==> !Alive(m, k + 1)
    ensures Handles(n)
  {
    forall i | 0 <= i < |m.tids| ensures Alive(n, i) == Alive(m, i) {
      SameAlive(m, k, n, i);
    }
    assert m.c.k.threads.Keys <= n.c.k.threads.Keys;
    hide Alive, Moved, NoDup;
  }

  // ---------------------------------------------------------------- channels

  lemma CallIsPossible(m: Machine, k: nat, p: Params)
    requires Sound(m, p) && k < |m.nodes| && m.tids[k] == m.c.k.current && Talking(m.nodes[k].pc)
    ensures |m.tids| == |m.nodes| && !m.nodes[k].pc.Joining? && C.CanMove(m.c, Call(m, k)) && !Call(m, k).Init? && !Call(m, k).Env?
  {
    hide Sound, C.CanMove, C.StageOf;
    ChannelsParts(m, p);
    if m.nodes[k].pc.Sending? {
      SendIs(m, k, p);
    } else if m.nodes[k].pc.Awaiting? {
      AwaitIs(m, k, p);
    } else {
      Uses(m, k, p);
      RecvIs(m, k, p);
    }
  }

  /** The channel invariant over a call. */
  lemma CallKeeps(m: Machine, k: nat, p: Params)
    requires Sound(m, p) && k < |m.nodes| && m.tids[k] == m.c.k.current && Talking(m.nodes[k].pc)
    ensures C.CanMove(m.c, Call(m, k)) && C.SysInv(C.Next(m.c, Call(m, k)))
  {
    hide *;
    CallIsPossible(m, k, p);
    ChannelsParts(m, p);
    OneSender(m);
    CR.OneSenderIsNeverPremature(m.c);
    CR.MoveKeepsInv(m.c, Call(m, k));
  }

  /** What the call means for each channel. */
  lemma EventIs(m: Machine, k: nat, p: Params, ch: nat)
    requires Sound(m, p) && k < |m.nodes| && m.tids[k] == m.c.k.current && Talking(m.nodes[k].pc) && C.Ready3(m.c, ch)
    ensures C.CanMove(m.c, Call(m, k))
    ensures var j := Port(m.nodes[k], k);
            CR.EventOf(m.c, Call(m, k), ch) ==
            if ch == j && Possible(SlotAt(m.c, j), Action(m.nodes[k])) then Some(Action(m.nodes[k])) else None
  {
    hide Sound, C.CanMove, SlotAt, Possible, Seated, C.StageOf, Seat;
    CallIsPossible(m, k, p);
    TokenIffPossible(m, k, p);
    ChannelsParts(m, p);
    SeatAt(m, k);
    SeatEvent(m, k, ch);
  }

  lemma SeatEvent(m: Machine, k: nat, ch: nat)
    requires k < |m.nodes| == |m.tids| && m.tids[k] == m.c.k.current && Talking(m.nodes[k].pc) && Seat(m.c, k, m.nodes[k], m.tids[k])
    requires C.CanMove(m.c, Call(m, k)) && C.Ready3(m.c, ch) && C.Ready3(m.c, Port(m.nodes[k], k))
    ensures var c, j := m.c, Port(m.nodes[k], k);
            var token := if m.nodes[k].pc.Sending? then c.k.sems[SendSem(j)] > 0
                         else if m.nodes[k].pc.Awaiting? then c.k.sems[SyncSem(j)] > 0
                         else c.k.sems[RecvSem(j)] > 0;
            CR.EventOf(c, Call(m, k), ch) == if ch == j && token then Some(Action(m.nodes[k])) else None
  {
    hide Th, C.StageOf, Enabled;
  }

  /** What is left of the call once it is known that the machine goes on: every channel is in turn, and its slot
      follows the rendezvous. */
  lemma ChannelAfter(m: Machine, k: nat, p: Params, ch: nat)
    requires Sound(m, p) && k < |m.nodes| && m.tids[k] == m.c.k.current && Talking(m.nodes[k].pc) && ch in m.c.chans
    requires C.CanMove(m.c, Call(m, k)) && C.Next(m.c, Call(m, k)).k.status == Live
             && CR.OneSender(C.Next(m.c, Call(m, k)))
    ensures var d, j := C.Next(m.c, Call(m, k)), Port(m.nodes[k], k);
            && C.Ready3(m.c, ch) && ch in d.chans
            && CR.Prescribed(m.c.chans[ch], d.chans[ch],
                             if ch == j && Possible(SlotAt(m.c, j), Action(m.nodes[k])) then Some(Action(m.nodes[k])) else None)
  {
    hide *;
    ChannelsParts(m, p);
    ChanFacts(m.c, ch);
    CallIsPossible(m, k, p);
    CallKeeps(m, k, p);
    EventIs(m, k, p, ch);
    CR.MoveRefinesRendezvous(m.c, Call(m, k), ch);
  }

  /** The slot of a channel, and what its user learns, after the call. */
  lemma SlotAfter(m: Machine, k: nat, p: Params, ch: nat)
    requires Sound(m, p) && k < |m.nodes| && m.tids[k] == m.c.k.current && Talking(m.nodes[k].pc) && ch in m.c.chans
    requires C.CanMove(m.c, Call(m, k)) && C.Next(m.c, Call(m, k)).k.status == Live
             && CR.OneSender(C.Next(m.c, Call(m, k)))
    ensures var d, s, v := C.Next(m.c, Call(m, k)), SlotAt(m.c, ch), Action(m.nodes[k]);
            if ch == Port(m.nodes[k], k) && Possible(s, v) then
              && SlotAt(d, ch) == After(s, v)
              && (v.Take? ==> s.Offered? && LastData(d, ch) == s.msg[..Min(|s.msg|, v.room)])
              && (v.Acknowledge? ==> s.Taken? && LastAck(d, ch) == s.n)
            else SlotAt(d, ch) == s
  {
    hide Sound, C.CanMove, C.Next, Call, CR.OneSender, CR.SlotOf, Action, Port, C.Ready3, Talking;
    ChannelAfter(m, k, p, ch);
  }

  lemma TurnsAfter(m: Machine, k: nat, p: Params)
    requires Sound(m, p) && k < |m.nodes| && m.tids[k] == m.c.k.current && Talking(m.nodes[k].pc)
    requires C.CanMove(m.c, Call(m, k)) && C.Next(m.c, Call(m, k)).k.status == Live
             && CR.OneSender(C.Next(m.c, Call(m, k)))
    ensures Channels(C.Next(m.c, Call(m, k)))
  {
    hide C.CanMove, C.Next, Call, CR.OneSender, C.SysInv, CR.AllInTurn, Sound;
    ChannelsParts(m, p);
    CallKeeps(m, k, p);
    CR.MoveKeepsTurns(m.c, Call(m, k));
  }

  // ---------------------------------------------------------------- a call that returns

  /** What process `k` becomes by its event. */
  function NodeIn(net: Net, k: nat, p: Params): Node
    requires k < |net.nodes| && Talking(net.nodes[k].pc)
    requires Port(net.nodes[k], k) < |net.slots| && Possible(net.slots[Port(net.nodes[k], k)], Action(net.nodes[k]))
  {
    var nd, s := net.nodes[k], net.slots[Port(net.nodes[k], k)];
    if nd.pc.Sending? then nd.(pc := Awaiting)
    else if nd.pc.Awaiting? then Sent(nd, k == 0, s.n)
    else Took(nd, s.msg[..Min(|s.msg|, Room(nd.pc))], p)
  }

  lemma GoesInNet(net: Net, k: nat, p: Params)
    requires k < |net.nodes| && Talking(net.nodes[k].pc)
    requires Port(net.nodes[k], k) < |net.slots| && Possible(net.slots[Port(net.nodes[k], k)], Action(net.nodes[k]))
    ensures CanGo(net, k)
    ensures var nd, e, j := net.nodes[k], NodeIn(net, k, p), Port(net.nodes[k], k);
            var now := if |e.primes| > |nd.primes| then net.actual + [e.x] else net.actual;
            var slots := net.slots[j := After(net.slots[j], Action(nd))];
            Next(net, k, p) ==
            if nd.pc.Sinking? && e.pc.Filtering? then Net(net.nodes[k := e] + [Node(Sinking, [], e.x, [])], slots + [Empty], now)
            else Net(net.nodes[k := e], slots, now)
  {
    hide Sieved;
  }

  lemma NodeReturns(m: Machine, k: nat, d: C.System, p: Params)
    requires k < |m.nodes| == |m.tids| && Talking(m.nodes[k].pc)
    requires if m.nodes[k].pc.Sending? then C.StageOf(d, m.tids[k]).Waiting? else C.StageOf(d, m.tids[k]) == C.Outside
    ensures NodeAfter(m, k, d, p) ==
            if m.nodes[k].pc.Sending? then m.nodes[k].(pc := Awaiting)
            else if m.nodes[k].pc.Awaiting? then Sent(m.nodes[k], k == 0, LastAck(d, k + 1))
            else Took(m.nodes[k], LastData(d, k), p)
    ensures NodeAfter(m, k, d, p).pc.Awaiting? <==> m.nodes[k].pc.Sending?
    ensures NodeAfter(m, k, d, p).pc.Finished? ==> m.nodes[k].pc.Ending? || (m.nodes[k].pc.Awaiting? && k == 0)
  {
    hide C.StageOf, LastAck, LastData, Sieved;
  }

  /** The machine after a call, before a full sink goes on. */
  ghost function Mid(m: Machine, k: nat, p: Params): Machine
    requires k < |m.nodes| == |m.tids| && Talking(m.nodes[k].pc) && C.CanMove(m.c, Call(m, k))
  {
    var d := C.Next(m.c, Call(m, k));
    var e := NodeAfter(m, k, d, p);
    Machine(d, m.nodes[k := e], m.tids, if |e.primes| > |m.nodes[k].primes| then m.actual + [e.x] else m.actual)
  }

  lemma MidIs(m: Machine, k: nat, p: Params)
    requires k < |m.nodes| == |m.tids| && Talking(m.nodes[k].pc) && C.CanMove(m.c, Call(m, k))
    ensures var n, d := Mid(m, k, p), C.Next(m.c, Call(m, k));
            && n.c == d && |n.nodes| == |m.nodes| && n.nodes == m.nodes[k := NodeAfter(m, k, d, p)] && n.tids == m.tids
            && n.actual == if |n.nodes[k].primes| > |m.nodes[k].primes| then m.actual + [n.nodes[k].x] else m.actual
  {
    hide C.Next, Call, NodeAfter;
  }

  /** Threads and channels after a call that came back. */
  lemma ReturnSeats(m: Machine, k: nat, p: Params)
    requires Sound(m, p) && k < |m.nodes| && m.tids[k] == m.c.k.current && Talking(m.nodes[k].pc)
    requires Possible(SlotAt(m.c, Port(m.nodes[k], k)), Action(m.nodes[k]))
    ensures |m.tids| == |m.nodes| && C.CanMove(m.c, Call(m, k))
    ensures var n := Mid(m, k, p); Back(m.c, n.c) && Seated(n) && Staffed(n) && Handles(n) && Wired(n) && Channels(n.c)
  {
    hide *;
    ChannelsParts(m, p);
    SeatAt(m, k);
    StaffParts(m);
    CallIsPossible(m, k, p);
    CallReturns(m, k, p);
    var d := C.Next(m.c, Call(m, k));
    NodeReturns(m, k, d, p);
    MidIs(m, k, p);
    var n := Mid(m, k, p);
    BackParts(m.c, d);
    ReturnedSeat(m, k, n, p);
    SeatsStay(m, k, n);
    StaffStays(m, k, n);
    OneSender(n);
    TurnsAfter(m, k, p);
    StillAlive(m, k);
    EndsLast(m, k, n, p);
    HandlesStay(m, k, n);
    WiredStays(m, n);
  }

  lemma BackParts(c: C.System, d: C.System)
    requires Back(c, d)
    ensures Moved(c, d) && d.k.status == Live && d.k.current == c.k.current && Th(d.k, c.k.current).blk == Running
            && Th(d.k, c.k.current).alive
    ensures forall ch :: ch in d.chans <==> ch in c.chans
  {
    hide Th, OthersKept, C.StageOf;
  }

  lemma ReturnedSeat(m: Machine, k: nat, n: Machine, p: Params)
    requires k < |m.nodes| == |m.tids| && Talking(m.nodes[k].pc) && m.tids[k] == m.c.k.current == n.c.k.current
    requires Th(n.c.k, m.tids[k]).alive && Th(n.c.k, m.tids[k]).blk == Running
    requires |n.nodes| == |m.nodes| && (n.nodes[k].pc.Awaiting? <==> m.nodes[k].pc.Sending?)
    requires if m.nodes[k].pc.Sending? then C.StageOf(n.c, m.tids[k]).Waiting? && C.StageOf(n.c, m.tids[k]).chan == k + 1
             else C.StageOf(n.c, m.tids[k]) == C.Outside
    ensures Seat(n.c, k, n.nodes[k], m.tids[k])
  {
    hide Th, C.StageOf;
  }

  lemma StillAlive(m: Machine, k: nat)
    requires k < |m.nodes| == |m.tids| && Seat(m.c, k, m.nodes[k], m.tids[k]) && Talking(m.nodes[k].pc)
    ensures !m.nodes[k].pc.Joining? && Alive(m, k) && Th(m.c.k, m.tids[k]).alive
  {
    hide Th, C.StageOf;
  }

  lemma EndsLast(m: Machine, k: nat, n: Machine, p: Params)
    requires V.Inv(NetOf(m), p) && k < |m.nodes| == |n.nodes|
    requires n.nodes[k].pc.Finished? ==> m.nodes[k].pc.Ending? || (m.nodes[k].pc.Awaiting? && k == 0)
    ensures n.nodes[k].pc.Finished? ==> k == 0 || k == |m.nodes| - 1
  {
    Place(m, k, p);
    hide V.Inv;
  }

  lemma WiredStays(m: Machine, n: Machine)
    requires Wired(m) && |n.nodes| == |m.nodes| && forall ch :: ch in n.c.chans <==> ch in m.c.chans
    ensures Wired(n)
  {
  }

  // ---------------------------------------------------------------- the network after it

  lemma SlotsBecome(m: Machine, n: Machine, j: nat, s: Slot)
    requires |n.nodes| == |m.nodes| && j < |m.nodes|
    requires forall ch :: 0 <= ch < |m.nodes| ==> SlotAt(n.c, ch) == if ch == j then s else SlotAt(m.c, ch)
    ensures NetOf(n).slots == NetOf(m).slots[j := s]
  {
    hide SlotAt;
  }

  /** The network of the machine after the call, and the node, are those of the event. */
  lemma ReturnNet(m: Machine, k: nat, p: Params)
    requires Sound(m, p) && k < |m.nodes| && m.tids[k] == m.c.k.current && Talking(m.nodes[k].pc)
    requires Possible(SlotAt(m.c, Port(m.nodes[k], k)), Action(m.nodes[k]))
    ensures |m.tids| == |m.nodes| && C.CanMove(m.c, Call(m, k))
    ensures var net, n, j := NetOf(m), Mid(m, k, p), Port(m.nodes[k], k);
            && net.nodes == m.nodes && net.actual == m.actual && j < |net.slots| == |m.nodes| && Possible(net.slots[j], Action(m.nodes[k]))
            && NetOf(n).slots == net.slots[j := After(net.slots[j], Action(m.nodes[k]))]
            && n.nodes[k] == NodeIn(net, k, p)
  {
    hide *;
    ReturnSeats(m, k, p);
    CallReturns(m, k, p);
    Uses(m, k, p);
    ChannelsParts(m, p);
    SeatAt(m, k);
    StillAlive(m, k);
    MidIs(m, k, p);
    var n, d, j, v := Mid(m, k, p), C.Next(m.c, Call(m, k)), Port(m.nodes[k], k), Action(m.nodes[k]);
    NetParts(m);
    OneSender(n);
    BackParts(m.c, n.c);
    forall ch | 0 <= ch < |m.nodes| ensures SlotAt(d, ch) == if ch == j then After(SlotAt(m.c, j), v) else SlotAt(m.c, ch) {
      if ch in m.c.chans {
        SlotAfter(m, k, p, ch);
      } else {
        NoSlot(m.c, ch);
        NoSlot(d, ch);
      }
    }
    SlotsBecome(m, n, j, After(SlotAt(m.c, j), v));
    SlotAfter(m, k, p, j);
    NodeReturns(m, k, d, p);
    LearnsRight(m, k, d, p);
  }

  lemma NoSlot(c: C.System, ch: nat)
    requires ch !in c.chans
    ensures SlotAt(c, ch) == Empty
  {
  }

  lemma LearnsRight(m: Machine, k: nat, d: C.System, p: Params)
    requires k < |m.nodes| && Talking(m.nodes[k].pc) && NetOf(m).nodes == m.nodes && Port(m.nodes[k], k) < |NetOf(m).slots|
    requires NetOf(m).slots[Port(m.nodes[k], k)] == SlotAt(m.c, Port(m.nodes[k], k))
    requires Possible(SlotAt(m.c, Port(m.nodes[k], k)), Action(m.nodes[k]))
    requires var j := Port(m.nodes[k], k);
             var s, v := SlotAt(m.c, j), Action(m.nodes[k]);
             && (v.Take? ==> s.Offered? && LastData(d, j) == s.msg[..Min(|s.msg|, v.room)])
             && (v.Acknowledge? ==> s.Taken? && LastAck(d, j) == s.n)
    ensures NodeIn(NetOf(m), k, p) ==
            if m.nodes[k].pc.Sending? then m.nodes[k].(pc := Awaiting)
            else if m.nodes[k].pc.Awaiting? then Sent(m.nodes[k], k == 0, LastAck(d, k + 1))
            else Took(m.nodes[k], LastData(d, k), p)
  {
    hide NetOf, SlotAt, LastData, LastAck, Took, Sent;
  }
}

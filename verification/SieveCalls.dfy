/** The calls that sieve threads make, and that they can make them. */
module SieveCalls {
  import opened Basics
  import opened Sched
  import opened SchedEffects
  import opened Rendezvous
  import opened Sieve
  import opened SieveThreads
  import opened SieveMoves
  import I = SchedInv
  import C = Channel
  import CR = ChannelRuns
  import V = SieveInv
  import SR = SieveRuns

  predicate Talking(pc: Pc) {
    !pc.Joining? && !pc.Finished?
  }

  predicate Receiver(pc: Pc) {
    pc.Sinking? || pc.Filtering? || pc.Closing? || pc.Ending?
  }

  function Room(pc: Pc): nat {
    if pc.Closing? || pc.Ending? then 0 else 1
  }

  /** The channel that a process uses next. */
  function Port(nd: Node, k: nat): nat {
    if nd.pc.Sending? || nd.pc.Awaiting? then k + 1 else k
  }

  /** Where a process can be in the network, by its place in the code. */
  lemma Place(m: Machine, k: nat, p: Params)
    requires V.Inv(NetOf(m), p) && k < |m.nodes|
    ensures |m.nodes| >= 2 && p.n >= 1
    ensures k == 0 ==> m.nodes[0].pc.Sending? || m.nodes[0].pc.Awaiting? || m.nodes[0].pc.Finished?
    ensures k == |m.nodes| - 1 <==> k >= 1 && (m.nodes[k].pc.Sinking? || m.nodes[k].pc.Ending? || (k == |m.nodes| - 1 && m.nodes[k].pc.Finished?))
    ensures 1 <= k < |m.nodes| - 1 && m.nodes[k].pc.Finished? ==> m.nodes[k + 1].pc.Finished?
  {
    var net := NetOf(m);
    SR.SizesOf(net, p);
    if k >= 1 {
      SR.TalksAt(net, k, p);
    }
    hide V.Inv, NetOf;
  }

  lemma SeatAt(m: Machine, k: nat)
    requires Seated(m) && k < |m.nodes|
    ensures |m.tids| == |m.nodes| && Seat(m.c, k, m.nodes[k], m.tids[k])
  {
    hide Seat;
  }

  lemma OtherTid(m: Machine, i: nat, k: nat)
    requires NoDup(m.tids) && i < |m.tids| && k < |m.tids| && i != k
    ensures m.tids[i] != m.tids[k]
  {
  }

  lemma ChannelsParts(m: Machine, p: Params)
    requires Sound(m, p)
    ensures Channels(m.c) && C.SysInv(m.c) && m.c.k.status == Live && CR.AllInTurn(m.c) && I.Inv(m.c.k)
    ensures V.Inv(NetOf(m), p) && Seated(m) && Staffed(m) && Wired(m) && Handles(m)
  {
    hide I.Inv, CR.AllInTurn, V.Inv, Seated, Staffed, Wired, Handles;
  }

  lemma JoinTalks(m: Machine, k: nat, p: Params)
    requires V.Inv(NetOf(m), p) && k < |m.nodes| && m.nodes[k].pc.Joining?
    ensures 1 <= k < |m.nodes| - 1 && (m.nodes[k + 1].pc.Joining? || m.nodes[k + 1].pc.Finished?)
  {
    Place(m, k, p);
    SR.TalksAt(NetOf(m), k + 1, p);
    hide V.Inv;
  }

  lemma StaffParts(m: Machine)
    requires Staffed(m)
    ensures NoDup(m.tids) && ROOT !in m.tids && Th(m.c.k, ROOT).alive && Th(m.c.k, ROOT).blk == OnAll
    ensures forall t :: t !in m.tids ==> C.StageOf(m.c, t) == C.Outside && (Th(m.c.k, t).alive ==> t == ROOT)
  {
    hide NoDup, Th, C.StageOf;
  }

  /** Only the running thread joins, or has finished and is still alive. */
  lemma AtItsEnd(c: C.System, k: nat, nd: Node, t: Tid)
    requires Seat(c, k, nd, t)
    ensures nd.pc.Joining? ==> t == c.k.current && Th(c.k, t).alive
    ensures nd.pc.Finished? ==> (Th(c.k, t).alive ==> t == c.k.current)
  {
    hide Th;
  }

  lemma HandleAt(m: Machine, k: nat)
    requires |m.tids| == |m.nodes| && Handles(m) && 1 <= k < |m.nodes| - 1
    ensures m.nodes[k].pc.Finished? ==> !Th(m.c.k, m.tids[k + 1]).alive
    ensures Th(m.c.k, m.tids[k]).alive && !Th(m.c.k, m.tids[k + 1]).alive ==> m.tids[k + 1] in m.c.k.threads
    ensures Th(m.c.k, m.tids[k + 1]).alive == Alive(m, k + 1)
  {
    assert Alive(m, k) == Th(m.c.k, m.tids[k]).alive && Alive(m, k + 1) == Th(m.c.k, m.tids[k + 1]).alive;
    hide Th;
  }

  /** Whoever joins finds its child dead, and its handle still good. */
  lemma DeadChild(m: Machine, k: nat, p: Params)
    requires Sound(m, p) && k < |m.nodes| && m.nodes[k].pc.Joining?
    ensures 1 <= k < |m.nodes| - 1 && m.nodes[k + 1].pc.Finished? && !Alive(m, k + 1) && m.tids[k + 1] in m.c.k.threads
  {
    hide *;
    ChannelsParts(m, p);
    JoinTalks(m, k, p);
    SeatAt(m, k);
    SeatAt(m, k + 1);
    StaffParts(m);
    OtherTid(m, k, k + 1);
    AtItsEnd(m.c, k, m.nodes[k], m.tids[k]);
    AtItsEnd(m.c, k + 1, m.nodes[k + 1], m.tids[k + 1]);
    HandleAt(m, k);
  }

  /** The slot that a process uses is a channel of the system. */
  lemma Uses(m: Machine, k: nat, p: Params)
    requires Sound(m, p) && k < |m.nodes| && Talking(m.nodes[k].pc)
    ensures var j := Port(m.nodes[k], k); 1 <= j < |m.nodes| && j in m.c.chans && C.Ready3(m.c, j)
    ensures m.nodes[k].pc.Sending? || m.nodes[k].pc.Awaiting? <==> !Receiver(m.nodes[k].pc)
  {
    hide Sound, Channels, Staffed, Seated, NetOf, C.Ready3;
    ChannelsParts(m, p);
    Place(m, k, p);
    Tokens(m.c, Port(m.nodes[k], k));
  }

  lemma SendCall(m: Machine, k: nat)
    requires k < |m.nodes| == |m.tids| && m.tids[k] == m.c.k.current && m.nodes[k].pc.Sending?
    requires Seat(m.c, k, m.nodes[k], m.tids[k]) && m.c.k.status == Live && C.Ready3(m.c, k + 1)
             && Me(m.c.k) == Th(m.c.k, m.c.k.current)
    ensures var c := m.c;
            && C.StageOf(c, c.k.current) == C.Outside && Enabled(c.k, DownOp(SendSem(k + 1)))
            && C.CanMove(c, Call(m, k)) && C.Next(c, Call(m, k)) == C.TrySend(c, k + 1, [m.nodes[k].x])
  {
    hide C.TrySend, Me, Th, C.StageOf;
  }

  /** What the call of a communicating process does: of a sender that has a new number, */
  lemma SendIs(m: Machine, k: nat, p: Params)
    requires Sound(m, p) && k < |m.nodes| && m.tids[k] == m.c.k.current && m.nodes[k].pc.Sending?
    ensures var c := m.c;
            && C.StageOf(c, c.k.current) == C.Outside && C.Ready3(c, k + 1) && Enabled(c.k, DownOp(SendSem(k + 1)))
            && C.CanMove(c, Call(m, k)) && C.Next(c, Call(m, k)) == C.TrySend(c, k + 1, [m.nodes[k].x])
  {
    hide Sound, NetOf, C.Ready3, C.CanMove, C.Next, C.TrySend, Enabled, Call, Me, Th, C.StageOf, Seated, Seat, I.Inv, V.Inv, Staffed;
    Uses(m, k, p);
    ChannelsParts(m, p);
    SeatAt(m, k);
    MeIs(m.c.k);
    SendCall(m, k);
  }

  lemma AwaitingSeat(c: C.System, k: nat, nd: Node, t: Tid)
    requires Seat(c, k, nd, t) && nd.pc.Awaiting?
    ensures C.StageOf(c, t).Waiting? && C.StageOf(c, t).chan == k + 1
  {
    hide C.StageOf, Th;
  }

  lemma AwaitCall(m: Machine, k: nat)
    requires k < |m.nodes| == |m.tids| && m.tids[k] == m.c.k.current && m.nodes[k].pc.Awaiting?
    requires C.StageOf(m.c, m.tids[k]).Waiting? && C.CanMove(m.c, C.GoOn)
    ensures C.Ready3(m.c, C.StageOf(m.c, m.tids[k]).chan) && Call(m, k) == C.GoOn && C.Next(m.c, C.GoOn) == C.AwaitSync(m.c)
  {
    hide C.StageOf, C.AwaitSync, Enabled;
  }

  /** of one whose message is offered, */
  lemma AwaitIs(m: Machine, k: nat, p: Params)
    requires Sound(m, p) && k < |m.nodes| && m.tids[k] == m.c.k.current && m.nodes[k].pc.Awaiting?
    ensures var c := m.c;
            && C.StageOf(c, c.k.current).Waiting? && C.StageOf(c, c.k.current).chan == k + 1 && C.Ready3(c, k + 1)
            && Enabled(c.k, DownOp(SyncSem(k + 1)))
            && C.CanMove(c, Call(m, k)) && C.Next(c, Call(m, k)) == C.AwaitSync(c)
  {
    hide Sound, NetOf, C.Ready3, C.CanMove, C.Next, C.AwaitSync, Enabled, Call, Th, C.StageOf, Seated, Seat, I.Inv, V.Inv, Staffed;
    Uses(m, k, p);
    ChannelsParts(m, p);
    SeatAt(m, k);
    AwaitingSeat(m.c, k, m.nodes[k], m.tids[k]);
    CR.CallsCanGoOn(m.c);
    AwaitCall(m, k);
  }

  lemma RecvCall(m: Machine, k: nat)
    requires k < |m.nodes| == |m.tids| && m.tids[k] == m.c.k.current && Receiver(m.nodes[k].pc)
    requires Seat(m.c, k, m.nodes[k], m.tids[k]) && m.c.k.status == Live && C.Ready3(m.c, k)
             && Me(m.c.k) == Th(m.c.k, m.c.k.current)
    requires C.StageOf(m.c, m.c.k.current) != C.Outside ==>
               C.CanMove(m.c, C.GoOn) && match C.StageOf(m.c, m.c.k.current)
                                         case Receiving(ch, _) => Enabled(m.c.k, DownOp(RecvSem(ch)))
                                         case _ => true
    ensures var c := m.c;
            && !C.StageOf(c, c.k.current).Waiting? && Enabled(c.k, DownOp(RecvSem(k)))
            && C.CanMove(c, Call(m, k)) && C.Next(c, Call(m, k)) == C.TryRecv(c, k, Room(m.nodes[k].pc))
  {
    hide C.TryRecv, Me, Th, C.StageOf;
  }

  /** and of a receiver. */
  lemma RecvIs(m: Machine, k: nat, p: Params)
    requires Sound(m, p) && k < |m.nodes| && m.tids[k] == m.c.k.current && Receiver(m.nodes[k].pc)
    ensures var c := m.c;
            && !C.StageOf(c, c.k.current).Waiting? && C.Ready3(c, k) && Enabled(c.k, DownOp(RecvSem(k)))
            && C.CanMove(c, Call(m, k)) && C.Next(c, Call(m, k)) == C.TryRecv(c, k, Room(m.nodes[k].pc))
  {
    hide Sound, NetOf, C.Ready3, C.CanMove, C.Next, C.TryRecv, Enabled, Call, Me, Th, C.StageOf, Seated, Seat, I.Inv, V.Inv, Staffed;
    Uses(m, k, p);
    ChannelsParts(m, p);
    SeatAt(m, k);
    MeIs(m.c.k);
    if C.StageOf(m.c, m.c.k.current) != C.Outside {
      CR.CallsCanGoOn(m.c);
    }
    RecvCall(m, k);
  }

  lemma NoWaiters(m: Machine, k: nat)
    requires Seated(m) && Staffed(m) && k + 1 < |m.nodes| && !m.nodes[k].pc.Awaiting?
    ensures C.Waiters(m.c, k + 1) == {}
  {
    hide Seated, Staffed, C.Waiters;
    if C.Waiters(m.c, k + 1) != {} {
      var t :| t in C.Waiters(m.c, k + 1);
      OnlyWaiter(m, k + 1, t);
    }
  }

  lemma PortOf(nd: Node, k: nat)
    ensures Port(nd, k) == if nd.pc.Sending? || nd.pc.Awaiting? then k + 1 else k
  {
  }

  lemma PossibleAction(s: Slot, nd: Node)
    requires Talking(nd.pc)
    ensures Possible(s, Action(nd)) <==> if nd.pc.Sending? then s.Empty? else if nd.pc.Awaiting? then s.Taken? else s.Offered?
  {
  }

  /** The running thread finds a token exactly if the network lets its process go. */
  lemma TokenIffPossible(m: Machine, k: nat, p: Params)
    requires Sound(m, p) && k < |m.nodes| && Talking(m.nodes[k].pc)
    ensures var j := Port(m.nodes[k], k);
            && C.Ready3(m.c, j)
            && (Possible(SlotAt(m.c, j), Action(m.nodes[k])) <==>
                if m.nodes[k].pc.Sending? then m.c.k.sems[SendSem(j)] > 0
                else if m.nodes[k].pc.Awaiting? then m.c.k.sems[SyncSem(j)] > 0
                else m.c.k.sems[RecvSem(j)] > 0)
    ensures m.nodes[k].pc.Sending? ==> Possible(SlotAt(m.c, k + 1), Action(m.nodes[k]))
  {
    hide *;
    Uses(m, k, p);
    ChannelsParts(m, p);
    var j := Port(m.nodes[k], k);
    Tokens(m.c, j);
    PortOf(m.nodes[k], k);
    PossibleAction(SlotAt(m.c, j), m.nodes[k]);
    if m.nodes[k].pc.Sending? {
      NoWaiters(m, k);
    }
  }

  /** A call that finds its token. */
  lemma CallReturns(m: Machine, k: nat, p: Params)
    requires Sound(m, p) && k < |m.nodes| && m.tids[k] == m.c.k.current && Talking(m.nodes[k].pc)
    requires Possible(SlotAt(m.c, Port(m.nodes[k], k)), Action(m.nodes[k]))
    ensures C.CanMove(m.c, Call(m, k))
    ensures var d := C.Next(m.c, Call(m, k));
            && Back(m.c, d)
            && if m.nodes[k].pc.Sending? then C.StageOf(d, m.tids[k]).Waiting? && C.StageOf(d, m.tids[k]).chan == k + 1
               else C.StageOf(d, m.tids[k]) == C.Outside
  {
    TokenIffPossible(m, k, p);
    Uses(m, k, p);
    ChannelsParts(m, p);
    var nd, c := m.nodes[k], m.c;
    hide Sound, Back, C.SysInv, Enabled, SlotAt, NetOf, C.TrySend, C.TryRecv, C.AwaitSync, C.CanMove, C.Next, Call, Possible, C.Ready3;
    match nd.pc
    case Sending => SendIs(m, k, p); SendMoves(c, k + 1, [nd.x]);
    case Awaiting => AwaitIs(m, k, p); ReturnMoves(c, k + 1);
    case _ => RecvIs(m, k, p); TakeMoves(c, k, Room(nd.pc));
  }

  /** A call that blocks while somebody is ready. */
  lemma CallBlocks(m: Machine, k: nat, p: Params)
    requires Sound(m, p) && k < |m.nodes| && m.tids[k] == m.c.k.current && Talking(m.nodes[k].pc)
    requires !Possible(SlotAt(m.c, Port(m.nodes[k], k)), Action(m.nodes[k])) && Items(m.c.k, Ready) != []
    ensures C.CanMove(m.c, Call(m, k)) && !m.nodes[k].pc.Sending?
    ensures var d := C.Next(m.c, Call(m, k));
            && Moved(m.c, d) && |Items(d.k, Ready)| < |Items(m.c.k, Ready)| && d.k.num == m.c.k.num
            && if m.nodes[k].pc.Awaiting? then C.StageOf(d, m.tids[k]).Waiting? && C.StageOf(d, m.tids[k]).chan == k + 1
               else C.StageOf(d, m.tids[k]) == C.Receiving(k, Room(m.nodes[k].pc))
  {
    TokenIffPossible(m, k, p);
    Uses(m, k, p);
    ChannelsParts(m, p);
    var nd, c := m.nodes[k], m.c;
    hide Sound, Moved, C.SysInv, Enabled, SlotAt, NetOf, C.CanMove, C.Next, Call, Possible, Items, Down, I.Inv;
    if nd.pc.Awaiting? {
      AwaitIs(m, k, p);
      CR.AwaitShape(c);
      BlockMoves(c, C.AwaitSync(c), SyncSem(k + 1), C.StageOf(c, c.k.current));
    } else {
      RecvIs(m, k, p);
      RecvBlocks(c, k, Room(nd.pc));
      BlockMoves(c, C.TryRecv(c, k, Room(nd.pc)), RecvSem(k), C.Receiving(k, Room(nd.pc)));
    }
  }

  lemma RecvBlocks(c: C.System, ch: nat, room: nat)
    requires C.Ready3(c, ch) && c.k.sems[RecvSem(ch)] == 0
    ensures C.TryRecv(c, ch, room) == c.(k := Down(c.k, RecvSem(ch)), stage := c.stage[c.k.current := C.Receiving(ch, room)])
  {
    hide Down;
  }
}

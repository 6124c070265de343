/** A full sink makes a channel and a thread for its successor, and the root starts the first two. */
module SieveSpawn {
  import opened Basics
  import opened Sched
  import opened SchedEffects
  import opened Rendezvous
  import opened Sieve
  import opened SieveThreads
  import opened SieveMoves
  import opened SieveCalls
  import opened SieveTalks
  import opened SieveSleep
  import opened SieveTest
  import I = SchedInv
  import C = Channel
  import CI = ChannelInv
  import CR = ChannelRuns
  import V = SieveInv
  import SS = SieveSteps

  // ---------------------------------------------------------------- two calls of the running thread

  /** The running thread is outside every channel call and may make any other. */
  ghost predicate InCode(c: C.System) {
    Channels(c) && CR.OneSender(c) && C.StageOf(c, c.k.current) == C.Outside && Me(c.k).blk == Running
  }

  lemma InCodeParts(c: C.System)
    requires InCode(c)
    ensures Channels(c) && C.SysInv(c) && I.Inv(c.k) && c.k.status == Live && CR.AllInTurn(c) && CR.OneSender(c)
    ensures C.StageOf(c, c.k.current) == C.Outside && Me(c.k).blk == Running
  {
    hide I.Inv, CR.AllInTurn, CR.OneSender, C.StageOf, Me;
  }

  lemma SameSenders(c: C.System, d: C.System)
    requires CR.OneSender(c) && d.stage == c.stage
    ensures CR.OneSender(d)
  {
    SameStages(c, d);
    hide C.StageOf;
    forall t, u | CR.InSend(d, t) && CR.InSend(d, u) && C.StageOf(d, t).chan == C.StageOf(d, u).chan ensures t == u {
      assert CR.InSend(c, t) && CR.InSend(c, u);
    }
  }

  /** `chan_init` of a new channel. */
  lemma InitGoes(c: C.System, ch: nat)
    requires InCode(c) && C.Unused(c, ch) && ch !in c.chans
    ensures C.CanMove(c, C.Init(ch))
    ensures var b := C.Next(c, C.Init(ch));
            && InCode(b) && b.stage == c.stage && b.k.current == c.k.current && b.k.threads == c.k.threads
            && b.chans == c.chans[ch := C.Chan([], None, [], [], [])]
  {
    InCodeParts(c);
    MayInit(c, ch);
    hide *;
    CI.InitSems3(c, ch);
    CR.MoveKeepsInv(c, C.Init(ch));
    var b := C.Next(c, C.Init(ch));
    InitIs(c, ch);
    SameSenders(c, b);
    CR.MoveKeepsTurns(c, C.Init(ch));
    InCodeAgain(c, b);
  }

  lemma MayInit(c: C.System, ch: nat)
    requires c.k.status == Live && C.StageOf(c, c.k.current) == C.Outside && Me(c.k).blk == Running && C.Unused(c, ch)
    ensures C.CanMove(c, C.Init(ch)) && C.Init(ch) != C.GoOn
  {
    hide C.Unused, C.StageOf, Me;
  }

  lemma InitIs(c: C.System, ch: nat)
    requires C.CanMove(c, C.Init(ch))
    ensures var b := C.Next(c, C.Init(ch));
            && b == C.InitChan(c, ch) && b.stage == c.stage && b.chans == c.chans[ch := C.Chan([], None, [], [], [])]
  {
    hide InitSem, C.CanMove;
  }

  lemma InCodeAgain(c: C.System, b: C.System)
    requires InCode(c) && C.SysInv(b) && b.k.status == Live && CR.AllInTurn(b) && CR.OneSender(b) && b.stage == c.stage
    requires b.k.current == c.k.current && b.k.threads == c.k.threads
    ensures InCode(b)
  {
    SameStages(c, b);
    hide C.SysInv, CR.AllInTurn, CR.OneSender, C.StageOf;
    assert Me(b.k) == Me(c.k);
  }

  /** `thread_new`: the thread has a new name, waits for its first turn, and only dead ones are freed. */
  lemma NewGoes(c: C.System)
    requires InCode(c)
    ensures C.CanMove(c, C.Env(NewOp([], true)))
    ensures var b, t := C.Next(c, C.Env(NewOp([], true))), c.k.next;
            && InCode(b) && b.stage == c.stage && b.chans == c.chans && b.k.current == c.k.current
            && t !in c.k.threads && Th(b.k, t).alive && Th(b.k, t).blk == Running
            && (forall u :: u != t ==> (Th(b.k, u).alive <==> Th(c.k, u).alive))
            && (forall u :: u != t && Th(b.k, u).alive ==> Th(b.k, u).blk == Th(c.k, u).blk)
            && Items(b.k, Ready) == Items(c.k, Ready) + [t] && b.k.num == c.k.num + 1
            && Items(b.k, AllJoin) == Items(c.k, AllJoin)
  {
    InCodeParts(c);
    MayNew(c);
    FreeIsDeadIn(c.k);
    hide *;
    CurrentIsAlive(c.k);
    PlacesOf(c.k);
    I.NextIsNew(c.k);
    NewShape(c.k, []);
    NewIsStep(c);
    var b := C.Next(c, C.Env(NewOp([], true)));
    CR.MoveKeepsInv(c, C.Env(NewOp([], true)));
    SameSenders(c, b);
    CR.MoveKeepsTurns(c, C.Env(NewOp([], true)));
    NewThreads(c.k, b.k, c.k.next);
    NewIsInCode(c, b, c.k.next);
  }

  lemma MayNew(c: C.System)
    requires c.k.status == Live && C.StageOf(c, c.k.current) == C.Outside && Me(c.k).blk == Running
    ensures C.CanMove(c, C.Env(NewOp([], true))) && C.Env(NewOp([], true)) != C.GoOn
  {
    hide C.StageOf, Me;
  }

  lemma NewIsStep(c: C.System)
    requires C.CanMove(c, C.Env(NewOp([], true)))
    ensures C.Next(c, C.Env(NewOp([], true))) == c.(k := New(c.k, [], true))
  {
    hide New, C.StageOf, Me;
  }

  lemma NewThreads(st: State, n: State, t: Tid)
    requires t !in st.threads && forall u :: u in Items(st, Free) ==> !Th(st, u).alive
    requires forall u :: Th(n, u) == if u == t then Thread(true, Some(Ready), 0, [], Running)
                                     else if u in Items(st, Free) then NOBODY else Th(st, u)
    ensures Th(n, t).alive && Th(n, t).blk == Running
    ensures forall u :: u != t ==> (Th(n, u).alive <==> Th(st, u).alive)
    ensures forall u :: u != t && Th(n, u).alive ==> Th(n, u).blk == Th(st, u).blk
  {
    hide Th, Items;
  }

  lemma NewIsInCode(c: C.System, b: C.System, t: Tid)
    requires InCode(c) && C.SysInv(b) && b.k.status == Live && CR.AllInTurn(b) && CR.OneSender(b) && b.stage == c.stage
    requires b.k.current == c.k.current && t != c.k.current && Th(b.k, c.k.current).alive
    requires forall u :: u != t && Th(b.k, u).alive ==> Th(b.k, u).blk == Th(c.k, u).blk
    ensures InCode(b)
  {
    SameStages(c, b);
    MeIs(b.k);
    MeIs(c.k);
    hide C.SysInv, CR.AllInTurn, CR.OneSender, C.StageOf, Th, Me;
  }

  // ---------------------------------------------------------------- the next sink

  /** While the last sink receives, nobody has finished. */
  lemma NobodyIsDead(m: Machine, k: nat, i: nat, p: Params)
    requires Sound(m, p) && k < |m.nodes| && m.nodes[k].pc == Sinking && m.tids[k] == m.c.k.current && i < |m.nodes|
    ensures |m.tids| == |m.nodes| && m.nodes[i].pc != Finished && Th(m.c.k, m.tids[i]).alive && k == |m.nodes| - 1 >= 1
  {
    hide *;
    ChannelsParts(m, p);
    SinksLast(m, k, p);
    SeatAt(m, i);
    if m.nodes[i].pc == Finished {
      if i >= 1 {
        FinishedChain(m, i, k, p);
      } else {
        SourceTalks(m, p);
        SeatAt(m, 1);
        AtItsEnd(m.c, 1, m.nodes[1], m.tids[1]);
        StaffParts(m);
        if k != 1 {
          OtherTid(m, 1, k);
          FinishedChain(m, 1, k, p);
        }
      }
      assert false;
    }
    DeadIsFinished(m.c, i, m.nodes[i], m.tids[i]);
  }

  lemma SinksLast(m: Machine, k: nat, p: Params)
    requires V.Inv(NetOf(m), p) && k < |m.nodes| && m.nodes[k].pc == Sinking
    ensures k == |m.nodes| - 1 >= 1
  {
    Place(m, k, p);
    hide V.Inv;
  }

  /** Nobody uses the channel behind the last process. */
  lemma NextIsUnused(m: Machine, ch: nat)
    requires Seated(m) && Staffed(m) && ch == |m.nodes| >= 1 && m.nodes[ch - 1].pc == Filtering
    ensures C.Unused(m.c, ch)
  {
    hide Seat, NoDup;
    forall t
      ensures match C.StageOf(m.c, t)
              case Outside => true
              case Sending(x, _) => x != ch
              case Waiting(x, _) => x != ch
              case Receiving(x, _) => x != ch
    {
      if t in m.tids {
        var i :| 0 <= i < |m.tids| && m.tids[i] == t;
        SeatsNear(m.c, i, m.nodes[i], t);
      }
    }
  }

  lemma SeatsNear(c: C.System, i: nat, nd: Node, t: Tid)
    requires Seat(c, i, nd, t)
    ensures match C.StageOf(c, t)
            case Outside => true
            case Sending(x, _) => false
            case Waiting(x, _) => x == i + 1 && nd.pc == Awaiting
            case Receiving(x, _) => x == i
  {
    hide C.StageOf, Th;
  }

  /** The machine after a full sink went on: one process, thread and channel more. */
  ghost predicate Grown(n0: Machine, n: Machine, x: int, t: Tid) {
    && |n0.nodes| == |n0.tids| && n.actual == n0.actual
    && n.nodes == n0.nodes + [Node(Sinking, [], x, [])] && n.tids == n0.tids + [t]
    && n.c.stage == n0.c.stage && n.c.chans == n0.c.chans[|n0.nodes| := C.Chan([], None, [], [], [])]
    && n.c.k.current == n0.c.k.current
    && t !in n0.c.k.threads && Th(n.c.k, t).alive && Th(n.c.k, t).blk == Running
    && (forall u :: u != t ==> (Th(n.c.k, u).alive <==> Th(n0.c.k, u).alive))
    && (forall u :: u != t && Th(n.c.k, u).alive ==> Th(n.c.k, u).blk == Th(n0.c.k, u).blk)
  }

  /** All threads of the processes are alive, and so known. */
  ghost predicate AllThere(n0: Machine)
    requires |n0.tids| == |n0.nodes|
  {
    forall i :: 0 <= i < |n0.nodes| ==> n0.nodes[i].pc != Finished && Th(n0.c.k, n0.tids[i]).alive
  }

  lemma NewTid(n0: Machine, n: Machine, x: int, t: Tid)
    requires Grown(n0, n, x, t) && AllThere(n0) && Th(n0.c.k, ROOT).alive
    ensures t !in n0.tids && t != ROOT
  {
    hide Th;
    forall u | Th(n0.c.k, u).alive ensures u != t {
      AliveIsThere(n0.c.k, u);
    }
  }

  lemma GrownSeats(n0: Machine, n: Machine, x: int, t: Tid)
    requires Grown(n0, n, x, t) && AllThere(n0) && Seated(n0) && Staffed(n0) && t !in n0.tids
    ensures Seated(n)
  {
    SameStages(n0.c, n.c);
    hide Th, C.StageOf, NoDup;
    forall i | 0 <= i < |n.nodes| ensures Seat(n.c, i, n.nodes[i], n.tids[i]) {
      if i < |n0.nodes| {
        assert Seat(n0.c, i, n0.nodes[i], n0.tids[i]) && n0.tids[i] in n0.tids;
      }
    }
  }

  lemma GrownStaff(n0: Machine, n: Machine, x: int, t: Tid)
    requires Grown(n0, n, x, t) && Staffed(n0) && t !in n0.tids && t != ROOT
    ensures Staffed(n)
  {
    SameStages(n0.c, n.c);
    I.AppendKeepsNoDup(n0.tids, t);
    hide Th, C.StageOf, NoDup;
    assert forall u :: u in n.tids <==> u in n0.tids || u == t;
  }

  lemma GrownWired(n0: Machine, n: Machine, x: int, t: Tid)
    requires Grown(n0, n, x, t) && Wired(n0) && |n0.nodes| >= 1
    ensures Wired(n)
  {
    hide Th, NoDup;
  }

  lemma GrownHandles(n0: Machine, n: Machine, x: int, t: Tid)
    requires Grown(n0, n, x, t) && AllThere(n0) && t !in n0.tids
    ensures Handles(n)
  {
    hide Th, NoDup;
    forall i | 0 <= i < |n.nodes| ensures Alive(n, i) && n.nodes[i].pc != Finished {
      if i < |n0.nodes| {
        assert n0.tids[i] in n0.tids;
      }
    }
    hide Alive;
  }

  lemma GrownNet(n0: Machine, n: Machine, x: int, t: Tid)
    requires Grown(n0, n, x, t) && Wired(n0)
    ensures NetOf(n).slots == NetOf(n0).slots + [Empty]
  {
    NetParts(n0);
    NetParts(n);
    hide NetOf, Th;
    forall i | 0 <= i < |n0.nodes| ensures NetOf(n).slots[i] == NetOf(n0).slots[i] {
    }
    FreshSlot(n.c, |n0.nodes|);
  }

  lemma FreshSlot(c: C.System, ch: nat)
    requires ch in c.chans && c.chans[ch] == C.Chan([], None, [], [], [])
    ensures SlotAt(c, ch) == Empty
  {
  }

  /** The machine with a new channel and a new thread. */
  ghost function Grow(n0: Machine, k: nat): Machine
    requires k < |n0.nodes| && C.CanMove(n0.c, C.Init(k + 1)) && C.CanMove(C.Next(n0.c, C.Init(k + 1)), C.Env(NewOp([], true)))
  {
    var b := C.Next(n0.c, C.Init(k + 1));
    Machine(C.Next(b, C.Env(NewOp([], true))), n0.nodes + [Node(Sinking, [], n0.nodes[k].x, [])], n0.tids + [b.k.next], n0.actual)
  }

  lemma GoesGrow(m: Machine, k: nat, p: Params)
    requires k < |m.nodes| == |m.tids| && m.tids[k] == m.c.k.current && Talking(m.nodes[k].pc) && C.CanMove(m.c, Call(m, k))
    requires var n0 := Mid(m, k, p);
             && m.nodes[k].pc.Sinking? && n0.nodes[k].pc.Filtering? && C.CanMove(n0.c, C.Init(k + 1))
             && C.CanMove(C.Next(n0.c, C.Init(k + 1)), C.Env(NewOp([], true)))
    ensures Goes(m, k, Grow(Mid(m, k, p), k), p)
  {
    hide C.CanMove, C.Next, Call, NodeAfter;
  }

  lemma GrowIs(n0: Machine, k: nat)
    requires k < |n0.nodes| && C.CanMove(n0.c, C.Init(k + 1)) && C.CanMove(C.Next(n0.c, C.Init(k + 1)), C.Env(NewOp([], true)))
    ensures var b, n := C.Next(n0.c, C.Init(k + 1)), Grow(n0, k);
            && n.c == C.Next(b, C.Env(NewOp([], true))) && n.nodes == n0.nodes + [Node(Sinking, [], n0.nodes[k].x, [])]
            && n.tids == n0.tids + [b.k.next] && n.actual == n0.actual
  {
    hide C.CanMove, C.Next;
  }

  lemma GrownIntro(n0: Machine, b: C.System, d: C.System, n: Machine, x: int)
    requires |n0.nodes| == |n0.tids| && n.actual == n0.actual
    requires n.nodes == n0.nodes + [Node(Sinking, [], x, [])] && n.tids == n0.tids + [b.k.next]
    requires b.stage == n0.c.stage && b.k.current == n0.c.k.current && b.k.threads == n0.c.k.threads
    requires b.chans == n0.c.chans[|n0.nodes| := C.Chan([], None, [], [], [])]
    requires n.c == d && Joined(b, d)
    ensures Grown(n0, n, x, b.k.next)
  {
    SameThs(n0.c.k, b.k);
    hide Th;
  }

  lemma InitThen(c: C.System, ch: nat) returns (b: C.System)
    requires InCode(c) && C.Unused(c, ch) && ch !in c.chans
    ensures C.CanMove(c, C.Init(ch)) && b == C.Next(c, C.Init(ch)) && InCode(b)
    ensures b.stage == c.stage && b.k.current == c.k.current && b.k.threads == c.k.threads
    ensures b.chans == c.chans[ch := C.Chan([], None, [], [], [])]
  {
    hide *;
    InitGoes(c, ch);
    b := C.Next(c, C.Init(ch));
  }

  /** What `thread_new` does to the rest of the system. */
  ghost predicate Joined(b: C.System, d: C.System) {
    && d.stage == b.stage && d.chans == b.chans && d.k.current == b.k.current
    && var t := b.k.next;
       && t !in b.k.threads && Th(d.k, t).alive && Th(d.k, t).blk == Running
       && (forall u :: u != t ==> (Th(d.k, u).alive <==> Th(b.k, u).alive))
       && (forall u :: u != t && Th(d.k, u).alive ==> Th(d.k, u).blk == Th(b.k, u).blk)
  }

  lemma NewThen(b: C.System) returns (d: C.System)
    requires InCode(b)
    ensures C.CanMove(b, C.Env(NewOp([], true))) && d == C.Next(b, C.Env(NewOp([], true))) && InCode(d) && Joined(b, d)
  {
    hide InCode, C.CanMove, C.Next, Th, Items;
    NewGoes(b);
    d := C.Next(b, C.Env(NewOp([], true)));
  }

  lemma NotWired(m: Machine, ch: nat)
    requires Wired(m) && ch >= |m.nodes|
    ensures ch !in m.c.chans
  {
  }

  lemma Grows(n0: Machine, k: nat)
    requires InCode(n0.c) && Wired(n0) && Seated(n0) && Staffed(n0) && k + 1 == |n0.nodes| && n0.nodes[k].pc == Filtering
    ensures C.CanMove(n0.c, C.Init(k + 1)) && C.CanMove(C.Next(n0.c, C.Init(k + 1)), C.Env(NewOp([], true)))
    ensures var n := Grow(n0, k);
            InCode(n.c) && Grown(n0, n, n0.nodes[k].x, C.Next(n0.c, C.Init(k + 1)).k.next)
  {
    hide *;
    NextIsUnused(n0, k + 1);
    SeatAt(n0, k);
    NotWired(n0, k + 1);
    var b := InitThen(n0.c, k + 1);
    var d := NewThen(b);
    GrowIs(n0, k);
    GrownIntro(n0, b, d, Grow(n0, k), n0.nodes[k].x);
  }

  lemma SameThs(st: State, b: State)
    requires b.threads == st.threads
    ensures forall u :: Th(b, u) == Th(st, u)
  {
  }

  lemma SpawnSteps(m: Machine, k: nat, p: Params)
    requires Sound(m, p) && k < |m.nodes| && m.tids[k] == m.c.k.current && m.nodes[k].pc.Sinking?
    requires Possible(SlotAt(m.c, Port(m.nodes[k], k)), Action(m.nodes[k]))
    requires |m.tids| == |m.nodes| && C.CanMove(m.c, Call(m, k)) && Mid(m, k, p).nodes[k].pc.Filtering?
    ensures exists n :: Stepped(m, k, n, p)
  {
    SinkTalks(m.nodes[k]);
    hide *;
    var n0 := Mid(m, k, p);
    ChannelsParts(m, p);
    SeatAt(m, k);
    NobodyIsDead(m, k, k, p);
    ReturnSeats(m, k, p);
    ReturnNet(m, k, p);
    CallReturns(m, k, p);
    MidIs(m, k, p);
    BackInCode(m, k, n0);
    Grows(n0, k);
    var n, x, t := Grow(n0, k), n0.nodes[k].x, C.Next(n0.c, C.Init(k + 1)).k.next;
    StillThere(m, k, n0, p);
    StaffParts(n0);
    NewTid(n0, n, x, t);
    GrownSeats(n0, n, x, t);
    GrownStaff(n0, n, x, t);
    GrownWired(n0, n, x, t);
    GrownHandles(n0, n, x, t);
    GrownNet(n0, n, x, t);
    GrownParts(n0, n, x, t);
    GoesGrow(m, k, p);
    NetParts(m);
    NetParts(n);
    GoesInNet(NetOf(m), k, p);
    SameNet(NetOf(n), Next(NetOf(m), k, p));
    SS.StepKeepsInv(NetOf(m), k, p);
    InCodeParts(n.c);
    SoundIntro(n, p);
    NetStepped(m, k, n, p);
  }

  lemma SinkTalks(nd: Node)
    requires nd.pc.Sinking?
    ensures Talking(nd.pc)
  {
  }

  lemma BackInCode(m: Machine, k: nat, n0: Machine)
    requires Back(m.c, n0.c) && k < |m.tids| && m.tids[k] == m.c.k.current && C.StageOf(n0.c, m.tids[k]) == C.Outside
    requires Channels(n0.c) && Seated(n0) && Staffed(n0)
    ensures InCode(n0.c)
  {
    BackParts(m.c, n0.c);
    OneSender(n0);
    MeIs(n0.c.k);
    hide Back, Channels, Seated, Staffed, C.StageOf, Th, Me, CR.OneSender;
  }

  lemma StillThere(m: Machine, k: nat, n0: Machine, p: Params)
    requires Sound(m, p) && k < |m.nodes| && m.nodes[k].pc == Sinking && m.tids[k] == m.c.k.current
    requires Back(m.c, n0.c) && n0.tids == m.tids && |n0.nodes| == |m.nodes| && n0.nodes == m.nodes[k := n0.nodes[k]] && n0.nodes[k].pc == Filtering
    ensures |n0.tids| == |n0.nodes| && AllThere(n0)
  {
    hide Sound, Back, Th, NoDup, Staffed;
    ChannelsParts(m, p);
    StaffParts(m);
    SeatAt(m, k);
    BackParts(m.c, n0.c);
    forall i | 0 <= i < |n0.nodes| ensures n0.nodes[i].pc != Finished && Th(n0.c.k, n0.tids[i]).alive {
      NobodyIsDead(m, k, i, p);
      NobodyIsDead(m, k, k, p);
      SameAlive(m, k, n0, i);
    }
  }

  lemma GrownParts(n0: Machine, n: Machine, x: int, t: Tid)
    requires Grown(n0, n, x, t)
    ensures n.nodes == n0.nodes + [Node(Sinking, [], x, [])] && n.actual == n0.actual
  {
    hide Th;
  }
}

/** What each segment of a channel call does, said of stages, messages, semaphores and ready threads. */
module ChannelOps {
  import opened Basics
  import opened Sched
  import opened SchedInv
  import opened SchedEffects
  import opened SchedOps
  import opened Channel
  import opened ChannelInv
  import opened ChannelRuns

  function FirstOf(q: seq<Tid>): seq<Tid> {
    if q == [] then [] else [q[0]]
  }

  /** Nothing but the kernel, the stage of the running thread and channel `ch` differs. */
  ghost predicate OnlyChan(c: System, n: System, ch: nat) {
    && (forall t :: t != c.k.current ==> StageOf(n, t) == StageOf(c, t))
    && (forall x :: x in n.chans <==> x in c.chans || x == ch)
    && (forall x :: x in c.chans && x != ch ==> n.chans[x] == c.chans[x])
  }

  /** The caller waits for a token of `s`, and the channels are as they were. */
  ghost predicate WaitsFor(c: System, n: System, s: SemId, g: Stage) {
    && n.chans == c.chans && n.cell == c.cell && StageOf(n, c.k.current) == g
    && GivesWay(c.k, n.k, OnSem(s), WaitersOf(s))
  }

  lemma InitMakesAChannel(c: System, ch: nat)
    requires SysInv(c) && CanMove(c, Init(ch))
    ensures var n := Next(c, Init(ch));
            && OnlyChan(c, n, ch) && ch in n.chans && n.chans[ch] == Chan([], None, [], [], [])
            && n.stage == c.stage && n.cell == c.cell
            && n.k.sems == c.k.sems[SendSem(ch) := 1][RecvSem(ch) := 0][SyncSem(ch) := 0]
            && n.k.threads == c.k.threads && n.k.current == c.k.current && n.k.status == Live
  {
    hide *;
    InitSems3(c, ch);
    InitShape(c, ch);
    InitFields(c, ch);
  }

  lemma InitFields(c: System, ch: nat)
    requires CanMove(c, Init(ch))
    requires InitChan(c, ch) == c.(k := InitChan(c, ch).k, chans := c.chans[ch := Chan([], None, [], [], [])])
    ensures var n := Next(c, Init(ch));
            && n == InitChan(c, ch) && OnlyChan(c, n, ch) && ch in n.chans && n.chans[ch] == Chan([], None, [], [], [])
            && n.stage == c.stage && n.cell == c.cell
  {
    hide InitChan, Unused;
  }

  lemma LiveIs(st: State, s: SemId)
    requires Enabled(st, DownOp(s))
    ensures st.status == Live && s in st.sems
  {
  }

  // ---------------------------------------------------------------- chan_send

  /** The message is posted and a receiver readied if `chan->send` has its token; otherwise the caller waits for that. */
  ghost predicate PostsOrWaits(c: System, n: System, ch: nat, msg: Message)
    requires Ready3(c, ch)
  {
    && OnlyChan(c, n, ch)
    && if c.k.sems[SendSem(ch)] == 0 then WaitsFor(c, n, SendSem(ch), Sending(ch, msg))
       else
         var me, x := c.k.current, c.chans[ch];
         && StageOf(n, me) == Waiting(ch, |x.sends|) && n.cell == c.cell[me := |msg|]
         && n.chans[ch] == x.(ptr := msg, size := Some(me), sends := x.sends + [msg])
         && n.k.current == me && n.k.status == Live
         && n.k.sems == c.k.sems[SendSem(ch) := c.k.sems[SendSem(ch)] - 1][RecvSem(ch) := c.k.sems[RecvSem(ch)] + 1]
         && Items(n.k, Ready) == Items(c.k, Ready) + FirstOf(Items(c.k, WaitersOf(RecvSem(ch))))
  }

  lemma TakeThenUp(st: State, s: SemId, r: SemId)
    requires st.status == Live && s in st.sems && st.sems[s] > 0 && r in st.sems && r != s && st.current in st.threads
    ensures var d := Down(st, s);
            && r in d.sems
            && var u := UpSem(d, r);
               && u.status == Live && u.current == st.current && u.sems == st.sems[s := st.sems[s] - 1][r := st.sems[r] + 1]
               && Items(u, Ready) == Items(st, Ready) + FirstOf(Items(st, WaitersOf(r)))
               && forall x :: x != r ==> Items(u, WaitersOf(x)) == Items(st, WaitersOf(x))
  {
    DownTakesOne(st, s);
    var d := Down(st, s);
    assert forall m :: Items(d, m) == Items(st, m);
    hide Down, UpSem, Items, Th;
    UpReadies(d, r);
  }

  lemma SendFields(c: System, ch: nat, msg: Message)
    requires Ready3(c, ch)
    ensures var n, me, x := TrySend(c, ch, msg), c.k.current, c.chans[ch];
            && OnlyChan(c, n, ch)
            && if c.k.sems[SendSem(ch)] == 0 then
                 && n.chans == c.chans && n.cell == c.cell && StageOf(n, me) == Sending(ch, msg)
                 && n.k == Down(c.k, SendSem(ch))
               else
                 && StageOf(n, me) == Waiting(ch, |x.sends|) && n.cell == c.cell[me := |msg|] && ch in n.chans
                 && n.chans[ch] == x.(ptr := msg, size := Some(me), sends := x.sends + [msg])
                 && n.k == UpSem(Down(c.k, SendSem(ch)), RecvSem(ch))
  {
    hide Down, UpSem;
  }

  lemma SendPostsOrWaits(c: System, ch: nat, msg: Message)
    requires Inv(c.k) && Ready3(c, ch) && Enabled(c.k, DownOp(SendSem(ch)))
    ensures PostsOrWaits(c, TrySend(c, ch, msg), ch, msg)
  {
    hide Inv, Enabled, Step, TrySend, Down, UpSem, GivesWay, Takes, Items, Th, FirstOf, OnlyChan, StageOf;
    LiveIs(c.k, SendSem(ch));
    CurrentIsAlive(c.k);
    DownTakesOrWaits(c.k, SendSem(ch));
    DownIs(c.k, SendSem(ch));
    SendFields(c, ch, msg);
    if c.k.sems[SendSem(ch)] > 0 {
      TakeThenUp(c.k, SendSem(ch), RecvSem(ch));
    }
  }

  /** `chan_send` from its start. */
  lemma CallSendPostsOrWaits(c: System, ch: nat, msg: Message)
    requires SysInv(c) && CanMove(c, CallSend(ch, msg))
    ensures PostsOrWaits(c, Next(c, CallSend(ch, msg)), ch, msg)
  {
    SendPostsOrWaits(c, ch, msg);
    hide SysInv, TrySend, PostsOrWaits;
  }

  /** The second wait of `chan_send`: with a token it returns what the receiver left in its variable. */
  ghost predicate ReturnsOrWaits(c: System, n: System)
    requires StageOf(c, c.k.current).Waiting? && Ready3(c, StageOf(c, c.k.current).chan)
  {
    var me := c.k.current;
    var ch, idx := StageOf(c, me).chan, StageOf(c, me).idx;
    && OnlyChan(c, n, ch)
    && if c.k.sems[SyncSem(ch)] == 0 then WaitsFor(c, n, SyncSem(ch), StageOf(c, me))
       else
         && StageOf(n, me) == Outside && n.cell == c.cell && Takes(c.k, n.k, SyncSem(ch))
         && n.chans[ch] == c.chans[ch].(acks := c.chans[ch].acks + [Ack(idx, Cell(c, me))])
  }

  lemma AwaitFields(c: System)
    requires StageOf(c, c.k.current).Waiting? && Ready3(c, StageOf(c, c.k.current).chan)
    ensures var n, me := AwaitSync(c), c.k.current;
            var ch, idx := StageOf(c, me).chan, StageOf(c, me).idx;
            && OnlyChan(c, n, ch) && n.k == Down(c.k, SyncSem(ch)) && n.cell == c.cell
            && if c.k.sems[SyncSem(ch)] == 0 then n.chans == c.chans && StageOf(n, me) == StageOf(c, me)
               else StageOf(n, me) == Outside && ch in n.chans
                    && n.chans[ch] == c.chans[ch].(acks := c.chans[ch].acks + [Ack(idx, Cell(c, me))])
  {
    hide Down;
  }

  lemma AwaitReturnsOrWaits(c: System)
    requires Inv(c.k) && StageOf(c, c.k.current).Waiting? && Ready3(c, StageOf(c, c.k.current).chan)
    requires Enabled(c.k, DownOp(SyncSem(StageOf(c, c.k.current).chan)))
    ensures ReturnsOrWaits(c, AwaitSync(c))
  {
    hide Inv, Enabled, Step, AwaitSync, Down, GivesWay, Takes, Items, Th, OnlyChan;
    var s := SyncSem(StageOf(c, c.k.current).chan);
    DownTakesOrWaits(c.k, s);
    DownIs(c.k, s);
    AwaitFields(c);
  }

  // ---------------------------------------------------------------- chan_recv

  /** The message is received, truncated to the room there is, and its sender and the next one readied; without a
      message the caller waits for one. */
  ghost predicate ReceivesOrWaits(c: System, n: System, ch: nat, room: nat)
    requires Ready3(c, ch)
  {
    && OnlyChan(c, n, ch)
    && if c.k.sems[RecvSem(ch)] == 0 then WaitsFor(c, n, RecvSem(ch), Receiving(ch, room))
       else
         var me, x := c.k.current, c.chans[ch];
         && StageOf(n, me) == Outside && n.k.current == me && n.k.status == Live
         && n.k.sems == c.k.sems[RecvSem(ch) := c.k.sems[RecvSem(ch)] - 1][SyncSem(ch) := c.k.sems[SyncSem(ch)] + 1]
                              [SendSem(ch) := c.k.sems[SendSem(ch)] + 1]
         && Items(n.k, Ready) ==
            Items(c.k, Ready) + FirstOf(Items(c.k, WaitersOf(SyncSem(ch)))) + FirstOf(Items(c.k, WaitersOf(SendSem(ch))))
         && (x.size.Some? && Cell(c, x.size.value) <= |x.ptr| ==>
               var k := Min(Cell(c, x.size.value), room);
               n.cell == c.cell[x.size.value := k] && n.chans[ch] == x.(recvs := x.recvs + [Receipt(x.ptr[..k], room)]))
  }

  lemma TakeThenTwoUps(st: State, s: SemId, r: SemId, q: SemId)
    requires st.status == Live && s in st.sems && st.sems[s] > 0 && r in st.sems && q in st.sems && st.current in st.threads
    requires s != r && s != q && r != q
    ensures var d := Down(st, s);
            && r in d.sems && q in UpSem(d, r).sems
            && var u := UpSem(UpSem(d, r), q);
               && u.status == Live && u.current == st.current
               && u.sems == st.sems[s := st.sems[s] - 1][r := st.sems[r] + 1][q := st.sems[q] + 1]
               && Items(u, Ready) == Items(st, Ready) + FirstOf(Items(st, WaitersOf(r))) + FirstOf(Items(st, WaitersOf(q)))
  {
    TakeThenUp(st, s, r);
    var u := UpSem(Down(st, s), r);
    hide Down, UpSem, Items, Th;
    UpReadies(u, q);
  }

  lemma RecvFields(c: System, ch: nat, room: nat)
    requires Ready3(c, ch)
    ensures var n, me, x := TryRecv(c, ch, room), c.k.current, c.chans[ch];
            && OnlyChan(c, n, ch)
            && if c.k.sems[RecvSem(ch)] == 0 then
                 && n.chans == c.chans && n.cell == c.cell && StageOf(n, me) == Receiving(ch, room)
                 && n.k == Down(c.k, RecvSem(ch))
               else
                 && StageOf(n, me) == Outside && ch in n.chans
                 && n.k == UpSem(UpSem(Down(c.k, RecvSem(ch)), SyncSem(ch)), SendSem(ch))
                 && (x.size.Some? && Cell(c, x.size.value) <= |x.ptr| ==>
                       var k := Min(Cell(c, x.size.value), room);
                       && n.cell == c.cell[x.size.value := k]
                       && n.chans[ch] == x.(recvs := x.recvs + [Receipt(x.ptr[..k], room)]))
  {
    hide Down, UpSem;
  }

  lemma RecvReceivesOrWaits(c: System, ch: nat, room: nat)
    requires Inv(c.k) && Ready3(c, ch) && Enabled(c.k, DownOp(RecvSem(ch)))
    ensures ReceivesOrWaits(c, TryRecv(c, ch, room), ch, room)
  {
    hide Inv, Enabled, Step, TryRecv, Down, UpSem, GivesWay, Takes, Items, Th, FirstOf, OnlyChan, StageOf;
    LiveIs(c.k, RecvSem(ch));
    CurrentIsAlive(c.k);
    DownTakesOrWaits(c.k, RecvSem(ch));
    DownIs(c.k, RecvSem(ch));
    RecvFields(c, ch, room);
    if c.k.sems[RecvSem(ch)] > 0 {
      TakeThenTwoUps(c.k, RecvSem(ch), SyncSem(ch), SendSem(ch));
    }
  }

  /** `chan_recv` from its start. */
  lemma CallRecvReceivesOrWaits(c: System, ch: nat, room: nat)
    requires SysInv(c) && CanMove(c, CallRecv(ch, room))
    ensures ReceivesOrWaits(c, Next(c, CallRecv(ch, room)), ch, room)
  {
    RecvReceivesOrWaits(c, ch, room);
    hide SysInv, TryRecv, ReceivesOrWaits;
  }

  /** A thread that is switched back in goes on with the wait that it was in. */
  lemma GoOnTestsAgain(c: System)
    requires SysInv(c) && CanMove(c, GoOn)
    ensures match StageOf(c, c.k.current)
            case Sending(ch, msg) => PostsOrWaits(c, Next(c, GoOn), ch, msg)
            case Receiving(ch, room) => ReceivesOrWaits(c, Next(c, GoOn), ch, room)
            case Waiting(_, _) => ReturnsOrWaits(c, Next(c, GoOn))
            case Outside => false
  {
    CallsCanGoOn(c);
    hide TrySend, TryRecv, AwaitSync, PostsOrWaits, ReceivesOrWaits, ReturnsOrWaits, Enabled, Inv, ChanOk, StageAgrees;
    match StageOf(c, c.k.current)
    case Sending(ch, msg) => SendPostsOrWaits(c, ch, msg);
    case Receiving(ch, room) => RecvReceivesOrWaits(c, ch, room);
    case Waiting(_, _) => AwaitReturnsOrWaits(c);
  }
}

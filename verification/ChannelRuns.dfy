/** Theorems about every run of a system with channels. */
module ChannelRuns {
  import opened Basics
  import opened Sched
  import opened SchedInv
  import opened SchedEffects
  import opened Channel
  import opened ChannelInv
  import R = Rendezvous

  // ---------------------------------------------------------------- every move

  /** A thread inside a channel call can always go on with it when it runs. */
  lemma CallsCanGoOn(c: System)
    requires SysInv(c) && c.k.status == Live && StageOf(c, c.k.current) != Outside
    ensures CanMove(c, GoOn)
    ensures match StageOf(c, c.k.current)
            case Sending(ch, _) => Enabled(c.k, DownOp(SendSem(ch)))
            case Receiving(ch, _) => Enabled(c.k, DownOp(RecvSem(ch)))
            case Waiting(ch, _) => Enabled(c.k, DownOp(SyncSem(ch)))
            case Outside => false
  {
    hide Inv, ChanOk;
    assert StageAgrees(c, c.k.current);
  }

  lemma SendKeeps(c: System, ch: nat, msg: Message)
    requires SysInv(c) && c.k.status == Live && Ready3(c, ch) && !StageOf(c, c.k.current).Waiting?
    requires Enabled(c.k, DownOp(SendSem(ch)))
    ensures SysInv(TrySend(c, ch, msg))
  {
    hide SysInv, Down, UpSem, Inv;
    if c.k.sems[SendSem(ch)] == 0 {
      BlockedKeeps(c, TrySend(c, ch, msg), SendSem(ch), Sending(ch, msg));
    } else {
      PostKeeps(c, ch, msg);
    }
  }

  lemma RecvKeeps(c: System, ch: nat, room: nat)
    requires SysInv(c) && c.k.status == Live && Ready3(c, ch) && !StageOf(c, c.k.current).Waiting?
    requires Enabled(c.k, DownOp(RecvSem(ch)))
    ensures SysInv(TryRecv(c, ch, room))
  {
    hide SysInv, Down, UpSem, Inv;
    if c.k.sems[RecvSem(ch)] == 0 {
      BlockedKeeps(c, TryRecv(c, ch, room), RecvSem(ch), Receiving(ch, room));
    } else {
      CopyKeeps(c, ch, room);
    }
  }

  lemma AwaitShape(c: System)
    requires CanMove(c, GoOn) && StageOf(c, c.k.current).Waiting?
    ensures var ch, s := StageOf(c, c.k.current).chan, SyncSem(StageOf(c, c.k.current).chan);
            && Ready3(c, ch) && s in c.k.sems
            && (c.k.sems[s] == 0 ==> AwaitSync(c) == c.(k := Down(c.k, s), stage := c.stage[c.k.current := StageOf(c, c.k.current)]))
  {
    assert c.stage == c.stage[c.k.current := StageOf(c, c.k.current)];
    hide Down;
  }

  lemma ReturnsHere(c: System, ch: nat)
    requires SysInv(c) && c.k.status == Live && StageOf(c, c.k.current).Waiting? && ch == StageOf(c, c.k.current).chan
    requires Ready3(c, ch) && c.k.sems[SyncSem(ch)] > 0 && Enabled(c.k, DownOp(SyncSem(ch)))
    ensures MayReturn(c, ch)
  {
    hide SysInv, Enabled;
  }

  lemma AwaitKeeps(c: System)
    requires SysInv(c) && c.k.status == Live && StageOf(c, c.k.current).Waiting? && !Premature(c)
    ensures CanMove(c, GoOn) && SysInv(AwaitSync(c))
  {
    hide *;
    CallsCanGoOn(c);
    AwaitShape(c);
    var ch := StageOf(c, c.k.current).chan;
    if c.k.sems[SyncSem(ch)] == 0 {
      BlockedKeeps(c, AwaitSync(c), SyncSem(ch), StageOf(c, c.k.current));
    } else {
      ReturnsHere(c, ch);
      ReturnKeeps(c, ch);
    }
  }

  lemma MoveKeepsInv(c: System, m: Move)
    requires SysInv(c) && CanMove(c, m) && (m == GoOn ==> !Premature(c))
    ensures SysInv(Next(c, m))
  {
    hide SysInv, Inv, Premature, TrySend, TryRecv, AwaitSync, InitChan, Step;
    match m
    case Env(op) => EnvKeeps(c, op);
    case Init(ch) => InitKeepsAll(c, ch);
    case CallSend(ch, msg) => SendKeeps(c, ch, msg);
    case CallRecv(ch, room) => RecvKeeps(c, ch, room);
    case GoOn =>
      CallsCanGoOn(c);
      match StageOf(c, c.k.current)
      case Sending(ch, msg) => SendKeeps(c, ch, msg);
      case Receiving(ch, room) => RecvKeeps(c, ch, room);
      case Waiting(_, _) => AwaitKeeps(c);
  }

  lemma StartInv()
    ensures SysInv(START)
  {
    InitialInv();
  }

  // ---------------------------------------------------------------- exactly when a return is faithful

  /** A send that finds a token returns faithfully if and only if it is not premature: otherwise it returns although
      its message was never copied. */
  lemma ReturnIsFaithfulIff(c: System)
    requires SysInv(c) && c.k.status == Live && StageOf(c, c.k.current).Waiting?
    requires Ready3(c, StageOf(c, c.k.current).chan) && c.k.sems[SyncSem(StageOf(c, c.k.current).chan)] > 0
    ensures Acknowledged(AwaitSync(c).chans[StageOf(c, c.k.current).chan]) <==> !Premature(c)
  {
    var ch, me := StageOf(c, c.k.current).chan, c.k.current;
    ChanAt(c, ch);
    ReturnedLog(c);
    hide SysInv, AwaitSync, Inv;
    LastAckIsFaithfulIff(c, ch);
  }

  lemma LastAckIsFaithfulIff(c: System, ch: nat)
    requires ch in c.chans && ChanOk(c, ch) && StageOf(c, c.k.current).Waiting? && StageOf(c, c.k.current).chan == ch
    requires c.k.sems[SyncSem(ch)] > 0
    ensures var x, me := c.chans[ch], c.k.current;
            var y := x.(acks := x.acks + [Ack(StageOf(c, me).idx, Cell(c, me))]);
            Acknowledged(y) <==> !Premature(c)
  {
    var x, me := c.chans[ch], c.k.current;
    var i := StageOf(c, me).idx;
    assert me in Waiters(c, ch) && WaiterOk(c, ch, me);
    assert Premature(c) <==> i >= |x.recvs|;
    var y := x.(acks := x.acks + [Ack(i, Cell(c, me))]);
    assert y.acks[|x.acks|].idx == i;
  }

  lemma ReturnedLog(c: System)
    requires StageOf(c, c.k.current).Waiting? && Ready3(c, StageOf(c, c.k.current).chan)
    requires c.k.sems[SyncSem(StageOf(c, c.k.current).chan)] > 0
    ensures var me, ch := c.k.current, StageOf(c, c.k.current).chan;
            AwaitSync(c).chans[ch] == c.chans[ch].(acks := c.chans[ch].acks + [Ack(StageOf(c, me).idx, Cell(c, me))])
  {
    hide Down;
  }

  /** At most one thread is inside `chan_send` on each channel. */
  ghost predicate OneSender(c: System) {
    forall t, u :: InSend(c, t) && InSend(c, u) && StageOf(c, t).chan == StageOf(c, u).chan ==> t == u
  }

  ghost predicate InSend(c: System, t: Tid) {
    StageOf(c, t).Sending? || StageOf(c, t).Waiting?
  }

  lemma OneSenderWaits(c: System, ch: nat)
    requires OneSender(c)
    ensures |Waiters(c, ch)| <= 1
  {
    if |Waiters(c, ch)| > 0 {
      var t :| t in Waiters(c, ch);
      forall u | u in Waiters(c, ch) ensures u == t {
        assert InSend(c, t) && InSend(c, u) && StageOf(c, t) == c.stage[t] && StageOf(c, u) == c.stage[u];
      }
      assert Waiters(c, ch) == {t};
    }
  }

  lemma OneSenderIsNeverPremature(c: System)
    requires SysInv(c) && c.k.status == Live && OneSender(c)
    ensures !Premature(c)
  {
    if StageOf(c, c.k.current).Waiting? {
      var ch := StageOf(c, c.k.current).chan;
      if ch in c.chans {
        ChanAt(c, ch);
        OneSenderWaits(c, ch);
      }
    }
  }

  // ---------------------------------------------------------------- whole runs

  ghost predicate IsRun(tr: seq<System>, ms: seq<Move>) {
    && |tr| == |ms| + 1
    && forall i :: 0 <= i < |ms| ==> CanMove(tr[i], ms[i]) && tr[i + 1] == Next(tr[i], ms[i])
  }

  ghost predicate NeverPremature(tr: seq<System>, ms: seq<Move>)
    requires |tr| == |ms| + 1
  {
    forall i :: 0 <= i < |ms| ==> ms[i] == GoOn ==> !Premature(tr[i])
  }

  lemma {:induction false} EveryStateSatisfiesInv(tr: seq<System>, ms: seq<Move>, n: nat)
    requires IsRun(tr, ms) && SysInv(tr[0]) && NeverPremature(tr, ms) && n < |tr|
    ensures SysInv(tr[n])
  {
    hide SysInv, CanMove, Next, Premature;
    if n > 0 {
      EveryStateSatisfiesInv(tr, ms, n - 1);
      MoveKeepsInv(tr[n - 1], ms[n - 1]);
    }
  }

  lemma {:induction false} SingleSendersSatisfyInv(tr: seq<System>, ms: seq<Move>, n: nat)
    requires IsRun(tr, ms) && SysInv(tr[0]) && n < |tr|
    requires forall i :: 0 <= i < |tr| ==> OneSender(tr[i])
    ensures SysInv(tr[n])
  {
    hide SysInv, CanMove, Next, Premature, OneSender;
    if n > 0 {
      SingleSendersSatisfyInv(tr, ms, n - 1);
      assert tr[n - 1].k.status == Live by {
        MovesAreLive(tr[n - 1], ms[n - 1]);
      }
      OneSenderIsNeverPremature(tr[n - 1]);
      MoveKeepsInv(tr[n - 1], ms[n - 1]);
    }
  }

  lemma MovesAreLive(c: System, m: Move)
    requires CanMove(c, m)
    ensures c.k.status == Live
  {
  }

  /** With any number of senders the same holds as long as no return was premature. */
  lemma RendezvousUpToPrematureReturns(tr: seq<System>, ms: seq<Move>, n: nat, ch: nat)
    requires IsRun(tr, ms) && SysInv(tr[0]) && NeverPremature(tr, ms) && n < |tr|
    requires tr[n].k.status == Live && ch in tr[n].chans
    ensures Delivered(tr[n].chans[ch]) && Acknowledged(tr[n].chans[ch])
  {
    EveryStateSatisfiesInv(tr, ms, n);
    hide IsRun, Inv;
    ChanAt(tr[n], ch);
  }

  // ---------------------------------------------------------------- refinement of the rendezvous

  /** What the users of a channel see of it. */
  ghost function SlotOf(x: Chan): R.Slot {
    if |x.sends| > |x.recvs| then R.Offered(x.sends[|x.sends| - 1])
    else if |x.recvs| > |x.acks| then R.Taken(|x.recvs[|x.recvs| - 1].data|)
    else R.Empty
  }

  ghost function SendEvent(c: System, ch: nat, msg: Message): Option<R.Event>
    requires Ready3(c, ch)
  {
    if c.k.sems[SendSem(ch)] > 0 then Some(R.Offer(msg)) else None
  }

  ghost function RecvEvent(c: System, ch: nat, room: nat): Option<R.Event>
    requires Ready3(c, ch)
  {
    if c.k.sems[RecvSem(ch)] > 0 then Some(R.Take(room)) else None
  }

  /** The event that a move means for channel `ch`, if any: a message is posted, copied, or its sender returns. */
  ghost function EventOf(c: System, m: Move, ch: nat): Option<R.Event>
    requires CanMove(c, m) && Ready3(c, ch)
  {
    match m
    case CallSend(x, msg) => if x == ch then SendEvent(c, ch, msg) else None
    case CallRecv(x, room) => if x == ch then RecvEvent(c, ch, room) else None
    case GoOn =>
      (match StageOf(c, c.k.current)
       case Sending(x, msg) => if x == ch then SendEvent(c, ch, msg) else None
       case Receiving(x, room) => if x == ch then RecvEvent(c, ch, room) else None
       case Waiting(x, _) => if x == ch && c.k.sems[SyncSem(ch)] > 0 then Some(R.Acknowledge) else None
       case Outside => None)
    case _ => None
  }

  /** With one sender at a time the log of a channel runs through offer, take, acknowledge, and sends return in the
      order they were posted. */
  ghost predicate OneAtATime(x: Chan) {
    && |x.acks| <= |x.recvs| <= |x.sends| <= |x.acks| + 1
    && (forall a :: 0 <= a < |x.acks| ==> x.acks[a].idx == a)
  }

  /** How the log of a channel changes with an event. */
  ghost predicate LogStep(x: Chan, y: Chan, e: Option<R.Event>) {
    match e
    case None => y.sends == x.sends && y.recvs == x.recvs && y.acks == x.acks
    case Some(Offer(msg)) => y.sends == x.sends + [msg] && y.recvs == x.recvs && y.acks == x.acks
    case Some(Take(room)) =>
      && |x.sends| > |x.recvs| && y.sends == x.sends && y.acks == x.acks
      && |y.recvs| == |x.recvs| + 1 && y.recvs[..|x.recvs|] == x.recvs && y.recvs[|x.recvs|].room == room
    case Some(Acknowledge) =>
      && |x.recvs| > |x.acks| && y.sends == x.sends && y.recvs == x.recvs
      && |y.acks| == |x.acks| + 1 && y.acks[..|x.acks|] == x.acks
  }

  lemma LogAfterGoOn(c: System, ch: nat)
    requires CanMove(c, GoOn) && ch in c.chans && Ready3(c, ch) && ChanOk(c, ch)
    ensures ch in Next(c, GoOn).chans && LogStep(c.chans[ch], Next(c, GoOn).chans[ch], EventOf(c, GoOn, ch))
  {
    hide Step, Down, UpSem, InitSem, Enabled, Unused, Copied, Cell, Delivered, Acknowledged, Waiters;
  }

  lemma LogAfter(c: System, m: Move, ch: nat)
    requires CanMove(c, m) && ch in c.chans && Ready3(c, ch) && m != Init(ch) && ChanOk(c, ch)
    ensures ch in Next(c, m).chans && LogStep(c.chans[ch], Next(c, m).chans[ch], EventOf(c, m, ch))
  {
    if m == GoOn {
      hide *;
      LogAfterGoOn(c, ch);
    } else {
      hide Step, Down, UpSem, InitSem, Enabled, Unused, Copied, Cell, Delivered, Acknowledged, Waiters;
    }
  }

  /** What a rendezvous event prescribes for the log of the channel. */
  ghost predicate Prescribed(x: Chan, y: Chan, e: Option<R.Event>) {
    match e
    case None => SlotOf(y) == SlotOf(x)
    case Some(v) =>
      && R.Possible(SlotOf(x), v) && SlotOf(y) == R.After(SlotOf(x), v)
      && match v
         case Offer(msg) => y.sends == x.sends + [msg]
         case Take(room) => y.recvs == x.recvs + [Receipt(SlotOf(x).msg[..Min(|SlotOf(x).msg|, room)], room)]
         case Acknowledge => y.acks == x.acks + [Ack(|x.acks|, SlotOf(x).n)]
  }

  lemma SlotAfter(x: Chan, y: Chan, e: Option<R.Event>)
    requires OneAtATime(x) && OneAtATime(y) && Delivered(x) && Delivered(y) && Acknowledged(x) && Acknowledged(y)
    requires LogStep(x, y, e)
    ensures Prescribed(x, y, e)
  {
    match e
    case None =>
    case Some(Offer(msg)) =>
    case Some(Take(room)) =>
      var r := |x.recvs|;
      assert y.recvs == y.recvs[..r] + [y.recvs[r]];
    case Some(Acknowledge) =>
      var a := |x.acks|;
      assert y.acks == y.acks[..a] + [y.acks[a]];
  }

  /** The sender that returns is the one whose turn it is. */
  lemma ReturnsInTurn(c: System, ch: nat)
    requires ch in c.chans && ChanOk(c, ch) && OneAtATime(c.chans[ch]) && StageOf(c, c.k.current).Waiting?
             && StageOf(c, c.k.current).chan == ch
    ensures StageOf(c, c.k.current).idx == |c.chans[ch].acks|
  {
    var me, x := c.k.current, c.chans[ch];
    assert me in Waiters(c, ch) && WaiterOk(c, ch, me);
    var i := StageOf(c, me).idx;
    var a := if i < |x.acks| then i else 0;
    assert |x.acks| > 0 ==> x.acks[a].idx == a && x.acks[a].idx != i;
  }

  lemma OrderKept(c: System, m: Move, ch: nat)
    requires SysInv(c) && CanMove(c, m) && ch in c.chans && OneAtATime(c.chans[ch])
    requires SysInv(Next(c, m)) && Next(c, m).k.status == Live && OneSender(Next(c, m)) && ch in Next(c, m).chans
    ensures OneAtATime(Next(c, m).chans[ch])
  {
    var n := Next(c, m);
    MovesAreLive(c, m);
    ChanAt(c, ch);
    OneSenderWaits(n, ch);
    ChanAt(n, ch);
    hide SysInv, OneSender, Inv;
    AcksKept(c, m, ch);
  }

  lemma AcksKept(c: System, m: Move, ch: nat)
    requires CanMove(c, m) && ch in c.chans && ChanOk(c, ch) && OneAtATime(c.chans[ch]) && ch in Next(c, m).chans
    ensures forall a :: 0 <= a < |Next(c, m).chans[ch].acks| ==> Next(c, m).chans[ch].acks[a].idx == a
  {
    hide Step, Down, UpSem, InitSem, Enabled, Unused, Copied, Cell, Delivered, Acknowledged, ChanOk, Waiters;
    if m == GoOn && StageOf(c, c.k.current).Waiting? && StageOf(c, c.k.current).chan == ch {
      ReturnsInTurn(c, ch);
    }
  }

  /** Every move is one event of the rendezvous, with the bytes and lengths that event prescribes, or none at all. */
  lemma MoveRefinesRendezvous(c: System, m: Move, ch: nat)
    requires SysInv(c) && CanMove(c, m) && ch in c.chans && Ready3(c, ch) && m != Init(ch) && OneAtATime(c.chans[ch])
    requires SysInv(Next(c, m)) && Next(c, m).k.status == Live && OneSender(Next(c, m))
    ensures ch in Next(c, m).chans && OneAtATime(Next(c, m).chans[ch])
    ensures Prescribed(c.chans[ch], Next(c, m).chans[ch], EventOf(c, m, ch))
  {
    var n := Next(c, m);
    MovesAreLive(c, m);
    ChanAt(c, ch);
    LogAfter(c, m, ch);
    OrderKept(c, m, ch);
    ChanAt(n, ch);
    LogsOfOkChans(c, ch);
    LogsOfOkChans(n, ch);
    hide SysInv, OneSender, Next, CanMove, ChanOk, EventOf, LogStep, OneAtATime, Prescribed;
    SlotAfter(c.chans[ch], n.chans[ch], EventOf(c, m, ch));
  }

  lemma LogsOfOkChans(c: System, ch: nat)
    requires ch in c.chans && ChanOk(c, ch)
    ensures Delivered(c.chans[ch]) && Acknowledged(c.chans[ch])
  {
  }

  // ---------------------------------------------------------------- the rendezvous over whole runs

  ghost predicate AllInTurn(c: System) {
    forall ch :: ch in c.chans ==> OneAtATime(c.chans[ch])
  }

  lemma MoveKeepsTurns(c: System, m: Move)
    requires SysInv(c) && CanMove(c, m) && AllInTurn(c)
    requires SysInv(Next(c, m)) && Next(c, m).k.status == Live && OneSender(Next(c, m))
    ensures AllInTurn(Next(c, m))
  {
    var n := Next(c, m);
    hide SysInv, OneSender, OneAtATime;
    forall ch | ch in n.chans ensures OneAtATime(n.chans[ch]) {
      if m == Init(ch) {
        FreshInTurn();
      } else {
        ChansStay(c, m, ch);
        OrderKept(c, m, ch);
      }
    }
  }

  lemma FreshInTurn()
    ensures OneAtATime(Chan([], None, [], [], []))
  {
  }

  lemma ChansStay(c: System, m: Move, ch: nat)
    requires CanMove(c, m) && ch in Next(c, m).chans && m != Init(ch)
    ensures ch in c.chans
  {
    hide Step, Down, UpSem, InitSem, Enabled, Unused, Copied, Cell;
  }

  lemma {:induction false} TurnsInRuns(tr: seq<System>, ms: seq<Move>, n: nat)
    requires IsRun(tr, ms) && SysInv(tr[0]) && AllInTurn(tr[0]) && n < |tr| && tr[n].k.status == Live
    requires forall i :: 0 <= i < |tr| ==> OneSender(tr[i])
    ensures AllInTurn(tr[n])
  {
    hide SysInv, OneSender, CanMove, Next, AllInTurn;
    if n > 0 {
      MovesAreLive(tr[n - 1], ms[n - 1]);
      TurnsInRuns(tr, ms, n - 1);
      SingleSendersSatisfyInv(tr, ms, n - 1);
      SingleSendersSatisfyInv(tr, ms, n);
      MoveKeepsTurns(tr[n - 1], ms[n - 1]);
    }
  }

  /** In every interleaving with at most one sender at a time per channel: the i-th receive copies exactly the fitting
      prefix of the i-th send, and the i-th return follows it and reports that length. */
  lemma SingleSenderRendezvous(tr: seq<System>, ms: seq<Move>, n: nat, ch: nat)
    requires IsRun(tr, ms) && SysInv(tr[0]) && AllInTurn(tr[0]) && n < |tr| && tr[n].k.status == Live
    requires forall i :: 0 <= i < |tr| ==> OneSender(tr[i])
    requires ch in tr[n].chans
    ensures var x := tr[n].chans[ch];
            && |x.acks| <= |x.recvs| <= |x.sends| <= |x.acks| + 1
            && (forall i :: 0 <= i < |x.recvs| ==> x.recvs[i].data == x.sends[i][..Min(|x.sends[i]|, x.recvs[i].room)])
            && (forall i :: 0 <= i < |x.acks| ==> x.acks[i] == Ack(i, |x.recvs[i].data|))
  {
    SingleSendersSatisfyInv(tr, ms, n);
    TurnsInRuns(tr, ms, n);
    hide IsRun, Inv, OneSender;
    ChanAt(tr[n], ch);
    LogsOfOkChans(tr[n], ch);
  }
}

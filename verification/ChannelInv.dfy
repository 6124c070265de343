/** Every move of the system keeps the channel invariant, up to the first premature return. */
module ChannelInv {
  import opened Basics
  import opened Sched
  import opened SchedInv
  import opened SchedEffects
  import opened Channel

  ghost predicate AllAgree(c: System) {
    forall t :: StageAgrees(c, t)
  }

  ghost predicate AllChansOk(c: System) {
    forall ch :: ch in c.chans ==> ChanOk(c, ch)
  }

  // ---------------------------------------------------------------- frame rules

  lemma OtherThreadAgrees(c: System, c': System, t: Tid)
    requires StageAgrees(c, t) && t != c.k.current
    requires StageOf(c', t) == StageOf(c, t) && Th(c'.k, t).blk == Th(c.k, t).blk
             && Th(c'.k, t).alive == Th(c.k, t).alive
    requires forall ch :: Ready3(c, ch) ==> Ready3(c', ch)
    ensures StageAgrees(c', t)
  {
  }

  /** Nothing about channel `x` changed. */
  ghost predicate SameChan(c: System, c': System, x: nat)
    requires x in c.chans
  {
    && x in c'.chans && c'.chans[x] == c.chans[x] && Ready3(c, x) && Ready3(c', x)
    && c'.k.sems[SendSem(x)] == c.k.sems[SendSem(x)]
    && c'.k.sems[RecvSem(x)] == c.k.sems[RecvSem(x)]
    && c'.k.sems[SyncSem(x)] == c.k.sems[SyncSem(x)]
    && Waiters(c', x) == Waiters(c, x)
    && (forall t :: t in Waiters(c, x) ==> c'.stage[t] == c.stage[t] && Cell(c', t) == Cell(c, t))
  }

  lemma ChanFrame(c: System, c': System, x: nat)
    requires x in c.chans && ChanOk(c, x) && SameChan(c, c', x)
    ensures ChanOk(c', x)
  {
    hide Delivered, Acknowledged, Cell;
    forall t | t in Waiters(c', x) ensures WaiterOk(c', x, t) {
      assert WaiterOk(c, x, t);
    }
  }

  // ---------------------------------------------------------------- the environment

  lemma EnvKeeps(c: System, op: Op)
    requires SysInv(c) && CanMove(c, Env(op))
    ensures SysInv(Next(c, Env(op)))
  {
    var n := Next(c, Env(op));
    StepKeepsInv(c.k, op);
    hide Inv, Step, Enabled, ChanOk, StageAgrees;
    forall t ensures StageAgrees(n, t) {
      EnvAgrees(c, op, t);
    }
    forall x | x in n.chans ensures ChanOk(n, x) {
      assert ChanOk(c, x);
      ChanIsReady(c, x);
      EnvSpares(c, op, x);
      ChanFrame(c, n, x);
    }
  }

  lemma EnvKeepsReady(c: System, op: Op, x: nat)
    requires Inv(c.k) && CanMove(c, Env(op)) && Ready3(c, x)
    ensures Ready3(Next(c, Env(op)), x)
    ensures forall s :: s in {SendSem(x), RecvSem(x), SyncSem(x)} ==> Next(c, Env(op)).k.sems[s] == c.k.sems[s]
  {
    StepEffect(c.k, op);
    hide Inv, Step, Enabled;
  }

  lemma EnvAgrees(c: System, op: Op, t: Tid)
    requires Inv(c.k) && CanMove(c, Env(op)) && StageAgrees(c, t)
    ensures StageAgrees(Next(c, Env(op)), t)
  {
    var n := Next(c, Env(op));
    StepEffect(c.k, op);
    hide Inv, Step, Enabled;
    if t != c.k.current && !StageOf(c, t).Outside? {
      EnvKeepsReady(c, op, StageOf(c, t).chan);
    }
  }

  lemma EnvChanges(c: System, op: Op)
    requires CanMove(c, Env(op))
    ensures var n := Next(c, Env(op)); n.stage == c.stage && n.cell == c.cell && n.chans == c.chans
  {
    hide Step, Enabled;
  }

  lemma SameUses(c: System, n: System, x: nat)
    requires x in c.chans && n.stage == c.stage && n.cell == c.cell && n.chans == c.chans && Ready3(c, x)
             && Ready3(n, x)
    requires forall s :: s in {SendSem(x), RecvSem(x), SyncSem(x)} ==> n.k.sems[s] == c.k.sems[s]
    ensures SameChan(c, n, x)
  {
    assert SendSem(x) in {SendSem(x), RecvSem(x), SyncSem(x)};
  }

  lemma EnvSpares(c: System, op: Op, x: nat)
    requires Inv(c.k) && CanMove(c, Env(op)) && x in c.chans && Ready3(c, x)
    ensures SameChan(c, Next(c, Env(op)), x)
  {
    EnvKeepsReady(c, op, x);
    EnvChanges(c, op);
    hide *;
    assert forall s :: s in {SendSem(x), RecvSem(x), SyncSem(x)} ==> Next(c, Env(op)).k.sems[s] == c.k.sems[s];
    SameUses(c, Next(c, Env(op)), x);
  }

  // ---------------------------------------------------------------- moves of channel calls

  /** The running thread is now in stage `g`; besides, only channel `ch` and the `size` variable of `o` were touched. */
  ghost predicate Touched(c: System, n: System, ch: nat, g: Stage, o: Tid) {
    && StageOf(n, c.k.current) == g && (forall t :: t != c.k.current ==> StageOf(n, t) == StageOf(c, t))
    && n.chans.Keys == c.chans.Keys + {ch}
    && (forall x :: x in c.chans && x != ch ==> n.chans[x] == c.chans[x])
    && (forall t :: t != o ==> Cell(n, t) == Cell(c, t))
    && SemsSpared(c, n, ch)
  }

  /** Semaphores stay initialised, and those of other channels keep their values. */
  ghost predicate SemsSpared(c: System, n: System, ch: nat) {
    forall s :: s in c.k.sems && IsChanSem(s) ==> s in n.k.sems && (s.chan != ch ==> n.k.sems[s] == c.k.sems[s])
  }

  lemma OtherChanOk(c: System, n: System, ch: nat, g: Stage, o: Tid, x: nat)
    requires Touched(c, n, ch, g, o) && x in c.chans && x != ch && ChanOk(c, x) && Ready3(c, x)
    requires StageOf(c, c.k.current).Waiting? ==> StageOf(c, c.k.current).chan == ch
    requires g.Waiting? ==> g.chan == ch
    requires StageOf(c, o).Waiting? ==> StageOf(c, o).chan == ch
    ensures ChanOk(n, x)
  {
    hide ChanOk, Cell;
    forall t ensures t in Waiters(n, x) <==> t in Waiters(c, x) {
      assert t in Waiters(n, x) <==> StageOf(n, t).Waiting? && StageOf(n, t).chan == x;
      assert t in Waiters(c, x) <==> StageOf(c, t).Waiting? && StageOf(c, t).chan == x;
      assert StageOf(n, t) == if t == c.k.current then g else StageOf(c, t);
    }
    forall t | t in Waiters(c, x) ensures n.stage[t] == c.stage[t] {
      assert StageOf(n, t) == n.stage[t] && StageOf(c, t) == c.stage[t];
    }
    ChanFrame(c, n, x);
  }

  lemma OtherAgrees(c: System, n: System, ch: nat, g: Stage, o: Tid, t: Tid)
    requires Touched(c, n, ch, g, o) && OthersKept(c.k, n.k) && t != c.k.current && StageAgrees(c, t)
    ensures StageAgrees(n, t)
  {
    hide StageAgrees, Cell;
    OtherThreadAgrees(c, n, t);
  }

  lemma TouchedKeys(c: System, n: System, ch: nat, g: Stage, o: Tid)
    requires Touched(c, n, ch, g, o)
    ensures n.chans.Keys == c.chans.Keys + {ch}
  {
  }

  lemma SysInvIntro(c: System, n: System, ch: nat, g: Stage, o: Tid)
    requires SysInv(c) && c.k.status == Live && Touched(c, n, ch, g, o) && Inv(n.k) && OthersKept(c.k, n.k)
    requires StageOf(c, c.k.current).Waiting? ==> StageOf(c, c.k.current).chan == ch
    requires g.Waiting? ==> g.chan == ch
    requires StageOf(c, o).Waiting? ==> StageOf(c, o).chan == ch
    requires StageAgrees(n, c.k.current) && (ch in n.chans ==> ChanOk(n, ch))
    ensures SysInv(n)
  {
    hide Inv, StageAgrees, ChanOk, Touched, OthersKept;
    forall t | t != c.k.current ensures StageAgrees(n, t) {
      OtherAgrees(c, n, ch, g, o, t);
    }
    TouchedKeys(c, n, ch, g, o);
    forall x | x in n.chans && x != ch ensures ChanOk(n, x) {
      ChanAt(c, x);
      OtherChanOk(c, n, ch, g, o, x);
    }
  }

  lemma ChanAt(c: System, ch: nat)
    requires SysInv(c) && c.k.status == Live && ch in c.chans
    ensures ChanOk(c, ch) && Ready3(c, ch)
    ensures c.k.sems[RecvSem(ch)] > 0 ==> c.chans[ch].size.Some? && c.chans[ch].size.value in Waiters(c, ch)
  {
  }

  lemma SysInvKernel(c: System)
    requires SysInv(c)
    ensures Inv(c.k) && (c.k.status == Live ==> AllAgree(c) && AllChansOk(c))
  {
  }

  lemma ChanIsReady(c: System, x: nat)
    requires x in c.chans && ChanOk(c, x)
    ensures Ready3(c, x)
  {
  }

  /** A thread that runs outside, or with its message posted, is in step with its stage. */
  lemma RunnerAgrees(c: System)
    requires Me(c.k).blk == Running && Me(c.k).alive
    requires StageOf(c, c.k.current).Outside? || (StageOf(c, c.k.current).Waiting? && Ready3(c, StageOf(c, c.k.current).chan))
    ensures StageAgrees(c, c.k.current)
  {
  }

  // ---------------------------------------------------------------- chan_init

  lemma UnusedSemsAreIdle(c: System, ch: nat, s: SemId)
    requires AllAgree(c) && Unused(c, ch) && s in {SendSem(ch), RecvSem(ch), SyncSem(ch)}
    ensures Idle(c.k, s)
  {
    forall t ensures Th(c.k, t).blk != OnSem(s) {
      assert StageAgrees(c, t);
    }
  }

  lemma InitSems3(c: System, ch: nat)
    requires SysInv(c) && CanMove(c, Init(ch))
    ensures var k := InitChan(c, ch).k;
            && Inv(k) && k.status == Live && k.current == c.k.current && k.threads == c.k.threads
            && k.sems == c.k.sems[SendSem(ch) := 1][RecvSem(ch) := 0][SyncSem(ch) := 0]
  {
    UnusedSemsAreIdle(c, ch, SendSem(ch));
    UnusedSemsAreIdle(c, ch, RecvSem(ch));
    UnusedSemsAreIdle(c, ch, SyncSem(ch));
    hide Inv, InitSem;
    InitEffect(c.k, SendSem(ch), 1);
    var a := InitSem(c.k, SendSem(ch), 1);
    InitEffect(a, RecvSem(ch), 0);
    InitEffect(InitSem(a, RecvSem(ch), 0), SyncSem(ch), 0);
  }

  lemma NewChanOk(c: System, n: System, ch: nat)
    requires Unused(c, ch) && n.stage == c.stage && n.chans == c.chans[ch := Chan([], None, [], [], [])]
    requires SendSem(ch) in n.k.sems && RecvSem(ch) in n.k.sems && SyncSem(ch) in n.k.sems
    requires n.k.sems[SendSem(ch)] == 1 && n.k.sems[RecvSem(ch)] == 0 && n.k.sems[SyncSem(ch)] == 0
    ensures ChanOk(n, ch)
  {
    forall t ensures t !in Waiters(n, ch) {
      assert StageOf(c, t) != Outside ==> t in c.stage;
    }
    assert Waiters(n, ch) == {};
  }

  lemma InitTouched(c: System, n: System, ch: nat)
    requires n == c.(k := n.k, chans := c.chans[ch := Chan([], None, [], [], [])]) && StageOf(c, c.k.current) == Outside
    requires n.k.sems == c.k.sems[SendSem(ch) := 1][RecvSem(ch) := 0][SyncSem(ch) := 0]
    ensures Touched(c, n, ch, Outside, c.k.current)
  {
  }

  lemma InitAgrees(c: System, ch: nat)
    requires SysInv(c) && CanMove(c, Init(ch)) && InitChan(c, ch).k.threads == c.k.threads
             && InitChan(c, ch).k.current == c.k.current
    ensures StageAgrees(InitChan(c, ch), c.k.current) && c.k.status == Live && StageOf(c, c.k.current) == Outside
            && Unused(c, ch)
    ensures OthersKept(c.k, InitChan(c, ch).k)
  {
    assert StageAgrees(c, c.k.current);
    hide SysInv, Inv, InitSem, Unused;
  }

  lemma InitShape(c: System, ch: nat)
    ensures var n := InitChan(c, ch); n == c.(k := n.k, chans := c.chans[ch := Chan([], None, [], [], [])])
  {
    hide InitSem;
  }

  lemma InitKeepsAll(c: System, ch: nat)
    requires SysInv(c) && CanMove(c, Init(ch))
    ensures SysInv(InitChan(c, ch))
  {
    hide *;
    var n := InitChan(c, ch);
    InitSems3(c, ch);
    InitAgrees(c, ch);
    InitShape(c, ch);
    InitTouched(c, n, ch);
    NewChanOk(c, n, ch);
    SysInvIntro(c, n, ch, Outside, c.k.current);
  }

  // ---------------------------------------------------------------- a call that blocks

  /** The running thread entered or stayed in stage `g` and blocked on `s`; nothing else happened. */
  lemma BlockedKeeps(c: System, n: System, s: SemId, g: Stage)
    requires SysInv(c) && c.k.status == Live && Enabled(c.k, DownOp(s)) && c.k.sems[s] == 0
    requires n == c.(k := Down(c.k, s), stage := c.stage[c.k.current := g])
    requires !g.Outside? && Ready3(c, g.chan)
    requires match g
             case Sending(ch, _) => s == SendSem(ch) && !StageOf(c, c.k.current).Waiting?
             case Receiving(ch, _) => s == RecvSem(ch) && !StageOf(c, c.k.current).Waiting?
             case Waiting(ch, _) => s == SyncSem(ch) && StageOf(c, c.k.current) == g
    ensures SysInv(n)
  {
    SysInvKernel(c);
    DownBlocks(c.k, s);
    BlockedTouched(c, n, s, g);
    hide SysInv, Inv, ChanOk, Down, Enabled, Touched, OthersKept;
    ChanAt(c, g.chan);
    BlockedChanOk(c, n, s, g);
    SysInvIntro(c, n, g.chan, g, c.k.current);
  }

  lemma BlockedTouched(c: System, n: System, s: SemId, g: Stage)
    requires n == c.(k := n.k, stage := c.stage[c.k.current := g]) && n.k.sems == c.k.sems && !g.Outside?
             && g.chan in c.chans
    ensures Touched(c, n, g.chan, g, c.k.current)
  {
  }

  lemma BlockedChanOk(c: System, n: System, s: SemId, g: Stage)
    requires !g.Outside? && g.chan in c.chans && n.k.sems == c.k.sems && ChanOk(c, g.chan) && Ready3(c, g.chan)
    requires n == c.(k := n.k, stage := c.stage[c.k.current := g])
    requires if g.Waiting? then StageOf(c, c.k.current) == g else !StageOf(c, c.k.current).Waiting?
    ensures ChanOk(n, g.chan)
  {
    hide ChanOk;
    forall t ensures t in Waiters(n, g.chan) <==> t in Waiters(c, g.chan) {
      assert t in Waiters(c, g.chan) <==> StageOf(c, t).Waiting? && StageOf(c, t).chan == g.chan;
    }
    ChanFrame(c, n, g.chan);
  }

  // ---------------------------------------------------------------- chan_send posts its message

  ghost predicate MayPost(c: System, ch: nat) {
    && SysInv(c) && c.k.status == Live && Ready3(c, ch) && Enabled(c.k, DownOp(SendSem(ch))) && c.k.sems[SendSem(ch)] > 0
    && !StageOf(c, c.k.current).Waiting?
  }

  lemma PostEffect(c: System, ch: nat, msg: Message)
    requires MayPost(c, ch)
    ensures var k := TrySend(c, ch, msg).k;
            && Inv(k) && k.status == Live && k.current == c.k.current && OthersKept(c.k, k) && Me(k).alive && Me(k).blk == Running
            && k.sems == c.k.sems[SendSem(ch) := c.k.sems[SendSem(ch)] - 1][RecvSem(ch) := c.k.sems[RecvSem(ch)] + 1]
  {
    hide Inv, Down, UpSem, SysInv;
    SysInvKernel(c);
    DownTakes(c.k, SendSem(ch));
    UpEffect(Down(c.k, SendSem(ch)), RecvSem(ch));
  }

  lemma LogsWithSend(x: Chan, y: Chan, msg: Message)
    requires Delivered(x) && Acknowledged(x) && y.sends == x.sends + [msg] && y.recvs == x.recvs && y.acks == x.acks
    ensures Delivered(y) && Acknowledged(y)
  {
    assert forall i :: 0 <= i < |x.recvs| ==> y.sends[i] == x.sends[i];
  }

  /** What `chan_send` leaves behind when it has posted. */
  ghost predicate Posted(c: System, n: System, ch: nat, msg: Message)
    requires ch in c.chans
  {
    var me, x := c.k.current, c.chans[ch];
    && n.stage == c.stage[me := Waiting(ch, |x.sends|)] && n.cell == c.cell[me := |msg|]
    && n.chans == c.chans[ch := x.(ptr := msg, size := Some(me), sends := x.sends + [msg])]
  }

  lemma PostedWaiters(c: System, n: System, ch: nat, i: nat)
    requires n.stage == c.stage[c.k.current := Waiting(ch, i)] && !StageOf(c, c.k.current).Waiting?
    ensures c.k.current !in Waiters(c, ch) && Waiters(n, ch) == Waiters(c, ch) + {c.k.current}
  {
  }

  lemma PostedWaiter(c: System, n: System, ch: nat, msg: Message, t: Tid)
    requires ch in c.chans && t in Waiters(c, ch) && WaiterOk(c, ch, t) && t != c.k.current
    requires Posted(c, n, ch, msg) && |c.chans[ch].sends| == |c.chans[ch].recvs|
    ensures WaiterOk(n, ch, t) && n.stage[t] == c.stage[t] && c.stage[t].idx < |c.chans[ch].sends|
  {
  }

  lemma PostedWaitersOk(c: System, n: System, ch: nat, msg: Message)
    requires ch in c.chans && Posted(c, n, ch, msg) && |c.chans[ch].sends| == |c.chans[ch].recvs| && Acknowledged(c.chans[ch])
    requires c.k.current !in Waiters(c, ch) && Waiters(n, ch) == Waiters(c, ch) + {c.k.current}
    requires forall t :: t in Waiters(c, ch) ==> WaiterOk(c, ch, t)
    requires forall t, u :: t in Waiters(c, ch) && u in Waiters(c, ch) && t != u ==> c.stage[t].idx != c.stage[u].idx
    ensures forall t :: t in Waiters(n, ch) ==> WaiterOk(n, ch, t)
    ensures forall t, u :: t in Waiters(n, ch) && u in Waiters(n, ch) && t != u ==> n.stage[t].idx != n.stage[u].idx
  {
    var me, x := c.k.current, c.chans[ch];
    forall t | t in Waiters(c, ch) ensures WaiterOk(n, ch, t) && n.stage[t] == c.stage[t] && c.stage[t].idx < |x.sends| {
      PostedWaiter(c, n, ch, msg, t);
    }
    PosterWaits(c, n, ch, msg);
    hide Waiters, WaiterOk, Posted;
  }

  lemma PosterWaits(c: System, n: System, ch: nat, msg: Message)
    requires ch in c.chans && Posted(c, n, ch, msg) && |c.chans[ch].sends| == |c.chans[ch].recvs| && Acknowledged(c.chans[ch])
    ensures n.stage[c.k.current] == Waiting(ch, |c.chans[ch].sends|) && WaiterOk(n, ch, c.k.current)
  {
  }

  lemma PostedChanOk(c: System, n: System, ch: nat, msg: Message)
    requires ch in c.chans && ChanOk(c, ch) && !StageOf(c, c.k.current).Waiting? && c.k.sems[SendSem(ch)] > 0
    requires Posted(c, n, ch, msg)
    requires n.k.sems == c.k.sems[SendSem(ch) := c.k.sems[SendSem(ch)] - 1][RecvSem(ch) := c.k.sems[RecvSem(ch)] + 1]
    ensures ChanOk(n, ch)
  {
    hide Delivered, Acknowledged, Waiters, WaiterOk;
    PostedWaiters(c, n, ch, |c.chans[ch].sends|);
    LogsWithSend(c.chans[ch], n.chans[ch], msg);
    PostedWaitersOk(c, n, ch, msg);
  }

  lemma PostTouched(c: System, ch: nat, msg: Message)
    requires Ready3(c, ch) && c.k.sems[SendSem(ch)] > 0
    requires TrySend(c, ch, msg).k.sems == c.k.sems[SendSem(ch) := c.k.sems[SendSem(ch)] - 1][RecvSem(ch) := c.k.sems[RecvSem(ch)] + 1]
    ensures Touched(c, TrySend(c, ch, msg), ch, Waiting(ch, |c.chans[ch].sends|), c.k.current)
    ensures Posted(c, TrySend(c, ch, msg), ch, msg) && Ready3(TrySend(c, ch, msg), ch)
            && TrySend(c, ch, msg).stage == c.stage[c.k.current := Waiting(ch, |c.chans[ch].sends|)]
  {
    hide Down, UpSem;
  }

  lemma PostAgrees(c: System, n: System, ch: nat, i: nat)
    requires n.k.current == c.k.current && Me(n.k).alive && Me(n.k).blk == Running && Ready3(n, ch)
    requires n.stage == c.stage[c.k.current := Waiting(ch, i)]
    ensures StageAgrees(n, c.k.current)
  {
    RunnerAgrees(n);
  }

  lemma MayPostToken(c: System, ch: nat)
    requires MayPost(c, ch)
    ensures SysInv(c) && c.k.status == Live && Ready3(c, ch) && ch in c.chans && SendSem(ch) in c.k.sems
            && RecvSem(ch) in c.k.sems
    ensures c.k.sems[SendSem(ch)] > 0 && !StageOf(c, c.k.current).Waiting?
  {
  }

  lemma PostKeeps(c: System, ch: nat, msg: Message)
    requires MayPost(c, ch)
    ensures SysInv(TrySend(c, ch, msg))
  {
    hide *;
    MayPostToken(c, ch);
    var n, i := TrySend(c, ch, msg), |c.chans[ch].sends|;
    PostEffect(c, ch, msg);
    PostTouched(c, ch, msg);
    PostAgrees(c, n, ch, i);
    ChanAt(c, ch);
    PostedChanOk(c, n, ch, msg);
    SysInvIntro(c, n, ch, Waiting(ch, i), c.k.current);
  }

  // ---------------------------------------------------------------- chan_recv copies the message

  ghost predicate MayTake(c: System, ch: nat) {
    && SysInv(c) && c.k.status == Live && Ready3(c, ch) && Enabled(c.k, DownOp(RecvSem(ch))) && c.k.sems[RecvSem(ch)] > 0
    && !StageOf(c, c.k.current).Waiting?
  }

  lemma MayTakeToken(c: System, ch: nat)
    requires MayTake(c, ch)
    ensures SysInv(c) && c.k.status == Live && Ready3(c, ch) && c.k.sems[RecvSem(ch)] > 0
            && !StageOf(c, c.k.current).Waiting?
    ensures c.chans[ch].size.Some? && c.chans[ch].size.value in Waiters(c, ch)
  {
    ChanAt(c, ch);
  }

  lemma TakeEnabled(c: System, ch: nat)
    requires MayTake(c, ch)
    ensures Inv(c.k) && Enabled(c.k, DownOp(RecvSem(ch))) && SyncSem(ch) in c.k.sems && SendSem(ch) in c.k.sems
  {
    hide Inv, Enabled;
    SysInvKernel(c);
  }

  lemma TakeKernel(c: System, ch: nat, room: nat)
    requires Ready3(c, ch) && c.k.sems[RecvSem(ch)] > 0
    ensures TryRecv(c, ch, room).k == UpSem(UpSem(Down(c.k, RecvSem(ch)), SyncSem(ch)), SendSem(ch))
  {
    hide Down, UpSem;
  }

  lemma TakenCalls(st: State, d: State, u: State, v: State)
    requires OthersKept(st, d) && d.current == st.current && u.current == st.current && v.current == st.current
    requires forall t :: Th(u, t).alive == Th(d, t).alive && Th(u, t).blk == Th(d, t).blk
    requires forall t :: Th(v, t).alive == Th(u, t).alive && Th(v, t).blk == Th(u, t).blk
    ensures OthersKept(st, v) && Me(v).alive == Me(d).alive && Me(v).blk == Me(d).blk
  {
    hide Th;
  }

  lemma TakeEffect(c: System, ch: nat, room: nat)
    requires MayTake(c, ch)
    ensures var k := TryRecv(c, ch, room).k;
            && Inv(k) && k.status == Live && k.current == c.k.current && OthersKept(c.k, k) && Me(k).alive && Me(k).blk == Running
            && k.sems == c.k.sems[RecvSem(ch) := c.k.sems[RecvSem(ch)] - 1][SyncSem(ch) := c.k.sems[SyncSem(ch)] + 1]
                                 [SendSem(ch) := c.k.sems[SendSem(ch)] + 1]
  {
    hide *;
    MayTakeToken(c, ch);
    TakeEnabled(c, ch);
    TakeKernel(c, ch, room);
    var d := Down(c.k, RecvSem(ch));
    DownTakes(c.k, RecvSem(ch));
    UpIs(d, SyncSem(ch));
    UpEffect(d, SyncSem(ch));
    var u := UpSem(d, SyncSem(ch));
    SameCalls(d, u);
    UpIs(u, SendSem(ch));
    UpEffect(u, SendSem(ch));
    TakenCalls(c.k, d, u, UpSem(u, SendSem(ch)));
  }

  lemma TakenChanOk(c: System, n: System, ch: nat, room: nat)
    requires ch in c.chans && ChanOk(c, ch) && !StageOf(c, c.k.current).Waiting? && c.k.sems[RecvSem(ch)] > 0
    requires c.chans[ch].size.Some?
    requires var me, x, o := c.k.current, c.chans[ch], c.chans[ch].size.value;
             var m := Min(Cell(c, o), room);
             && n.stage == c.stage[me := Outside] && n.cell == c.cell[o := m]
             && n.chans == c.chans[ch := x.(recvs := x.recvs + [Receipt(Copied(x, m), room)])]
             && n.k.sems == c.k.sems[RecvSem(ch) := c.k.sems[RecvSem(ch)] - 1][SyncSem(ch) := c.k.sems[SyncSem(ch)] + 1]
                                    [SendSem(ch) := c.k.sems[SendSem(ch)] + 1]
    ensures ChanOk(n, ch)
  {
    var me, x, y, o := c.k.current, c.chans[ch], n.chans[ch], c.chans[ch].size.value;
    var r := |x.recvs|;
    assert me !in Waiters(c, ch);
    assert Waiters(n, ch) == Waiters(c, ch);
    assert WaiterOk(c, ch, o) && Cell(c, o) == |x.sends[r]|;
    assert Delivered(y) by {
      assert forall i :: 0 <= i < r ==> y.recvs[i] == x.recvs[i];
    }
    assert Acknowledged(y) by {
      assert forall i :: 0 <= i < r ==> y.recvs[i] == x.recvs[i];
    }
    forall t | t in Waiters(n, ch) ensures WaiterOk(n, ch, t) {
      assert WaiterOk(c, ch, t);
      assert c.stage[t].idx < r ==> t != o && y.recvs[c.stage[t].idx] == x.recvs[c.stage[t].idx];
      assert c.stage[t].idx >= r ==> t == o;
    }
  }

  lemma TakeTouched(c: System, ch: nat, room: nat)
    requires Ready3(c, ch) && c.k.sems[RecvSem(ch)] > 0 && c.chans[ch].size.Some?
    requires TryRecv(c, ch, room).k.sems == c.k.sems[RecvSem(ch) := c.k.sems[RecvSem(ch)] - 1][SyncSem(ch) := c.k.sems[SyncSem(ch)] + 1]
                                                    [SendSem(ch) := c.k.sems[SendSem(ch)] + 1]
    ensures Touched(c, TryRecv(c, ch, room), ch, Outside, c.chans[ch].size.value)
  {
    hide Down, UpSem;
  }

  lemma TakeAgrees(c: System, ch: nat, room: nat)
    requires MayTake(c, ch)
    ensures StageAgrees(TryRecv(c, ch, room), c.k.current)
  {
    MayTakeToken(c, ch);
    TakeEffect(c, ch, room);
    hide MayTake, SysInv, Inv, Down, UpSem, OthersKept, Waiters;
    RunnerAgrees(TryRecv(c, ch, room));
  }

  lemma CopyKeeps(c: System, ch: nat, room: nat)
    requires MayTake(c, ch)
    ensures SysInv(TryRecv(c, ch, room))
  {
    MayTakeToken(c, ch);
    TakeEffect(c, ch, room);
    TakeTouched(c, ch, room);
    TakeAgrees(c, ch, room);
    ChanAt(c, ch);
    hide MayTake, SysInv, Inv, ChanOk, Down, UpSem, StageAgrees, Touched, OthersKept;
    TakenChanOk(c, TryRecv(c, ch, room), ch, room);
    SysInvIntro(c, TryRecv(c, ch, room), ch, Outside, c.chans[ch].size.value);
  }

  // ---------------------------------------------------------------- chan_send returns

  ghost predicate MayReturn(c: System, ch: nat) {
    && SysInv(c) && c.k.status == Live && StageOf(c, c.k.current).Waiting? && ch == StageOf(c, c.k.current).chan
    && Ready3(c, ch) && c.k.sems[SyncSem(ch)] > 0 && Enabled(c.k, DownOp(SyncSem(ch)))
  }

  lemma AcknowledgesMore(x: Chan, y: Chan, i: nat, n: nat)
    requires Acknowledged(x) && y == x.(acks := x.acks + [Ack(i, n)])
    requires i < |x.recvs| && n == |x.recvs[i].data| && forall a :: 0 <= a < |x.acks| ==> x.acks[a].idx != i
    ensures Acknowledged(y)
  {
  }

  lemma ReturnedChanOk(c: System, n: System)
    requires StageOf(c, c.k.current).Waiting? && StageOf(c, c.k.current).chan in c.chans
             && ChanOk(c, StageOf(c, c.k.current).chan)
    requires !Premature(c) && c.k.sems[SyncSem(StageOf(c, c.k.current).chan)] > 0
    requires var me, ch := c.k.current, StageOf(c, c.k.current).chan;
             && n.stage == c.stage[me := Outside] && n.cell == c.cell
             && n.chans == c.chans[ch := c.chans[ch].(acks := c.chans[ch].acks + [Ack(StageOf(c, me).idx, Cell(c, me))])]
             && n.k.sems == c.k.sems[SyncSem(ch) := c.k.sems[SyncSem(ch)] - 1]
    ensures ChanOk(n, StageOf(c, c.k.current).chan)
  {
    var me, ch := c.k.current, StageOf(c, c.k.current).chan;
    var x, y := c.chans[ch], n.chans[ch];
    assert me in Waiters(c, ch) && WaiterOk(c, ch, me);
    assert Waiters(n, ch) == Waiters(c, ch) - {me};
    AcknowledgesMore(x, y, StageOf(c, me).idx, Cell(c, me));
    hide Delivered, Acknowledged, Waiters;
    forall t | t in Waiters(n, ch) ensures WaiterOk(n, ch, t) {
      assert WaiterOk(c, ch, t);
    }
  }

  lemma ReturnEffect(c: System, ch: nat)
    requires MayReturn(c, ch)
    ensures var n := AwaitSync(c);
            && Inv(n.k) && n.k.status == Live && n.k.current == c.k.current && OthersKept(c.k, n.k) && Me(n.k).alive && Me(n.k).blk == Running
            && n.k.sems == c.k.sems[SyncSem(ch) := c.k.sems[SyncSem(ch)] - 1]
  {
    hide SysInv, Inv, Down;
    SysInvKernel(c);
    DownTakes(c.k, SyncSem(ch));
  }

  lemma ReturnTouched(c: System, ch: nat)
    requires StageOf(c, c.k.current).Waiting? && ch == StageOf(c, c.k.current).chan && Ready3(c, ch)
             && c.k.sems[SyncSem(ch)] > 0
    requires AwaitSync(c).k.sems == c.k.sems[SyncSem(ch) := c.k.sems[SyncSem(ch)] - 1]
    ensures Touched(c, AwaitSync(c), ch, Outside, c.k.current) && AwaitSync(c).stage == c.stage[c.k.current := Outside]
  {
    hide Down;
  }

  lemma ReturnKeeps(c: System, ch: nat)
    requires MayReturn(c, ch) && !Premature(c)
    ensures SysInv(AwaitSync(c))
  {
    ReturnEffect(c, ch);
    ReturnTouched(c, ch);
    ChanAt(c, ch);
    RunnerAgrees(AwaitSync(c));
    hide SysInv, Inv, ChanOk, Down, StageAgrees, Touched, Enabled, OthersKept;
    ReturnedChanOk(c, AwaitSync(c));
    SysInvIntro(c, AwaitSync(c), ch, Outside, c.k.current);
  }
}

/** A run with two senders on one channel, in which one of them returns too early. */
module ChannelOverlap {
  import opened Basics
  import opened Sched
  import opened Channel
  import opened ChannelRuns

  /** The root and thread 1 in the kernel: who runs, who is ready, where both are blocked, and the three semaphores. */
  ghost predicate KernelAt(k: State, current: Tid, ready: seq<Tid>, rootBlk: Blocked, oneBlk: Blocked, send: nat,
      recv: nat, sync: nat, onSync: seq<Tid>) {
    && k.status == Live && k.current == current && Items(k, Ready) == ready && k.num == 2 && Items(k, Free) == []
    && Th(k, 0).blk == rootBlk && Th(k, 1).blk == oneBlk && 0 in k.threads && 1 in k.threads
    && SendSem(0) in k.sems && RecvSem(0) in k.sems && SyncSem(0) in k.sems
    && k.sems[SendSem(0)] == send && k.sems[RecvSem(0)] == recv && k.sems[SyncSem(0)] == sync
    && Items(k, WaitersOf(SendSem(0))) == [] && Items(k, WaitersOf(RecvSem(0))) == []
    && Items(k, WaitersOf(SyncSem(0))) == onSync
  }

  /** Both on channel 0. */
  ghost predicate At(c: System, current: Tid, ready: seq<Tid>, root: Stage, one: Stage, rootBlk: Blocked,
      oneBlk: Blocked, send: nat, recv: nat, sync: nat, onSync: seq<Tid>, x: Chan) {
    && KernelAt(c.k, current, ready, rootBlk, oneBlk, send, recv, sync, onSync)
    && StageOf(c, 0) == root && StageOf(c, 1) == one && 0 in c.chans && c.chans[0] == x
  }

  const A: Message := [7, 8]
  const B: Message := [4, 5, 6]

  const X0 := Chan([], None, [], [], [])
  const X1 := Chan(A, Some(1), [A], [], [])
  const X2 := Chan(A, Some(1), [A], [Receipt([7], 1)], [])
  const X3 := Chan(B, Some(0), [A, B], [Receipt([7], 1)], [])
  const X4 := Chan(B, Some(0), [A, B], [Receipt([7], 1)], [Ack(1, 3)])

  lemma Begin() returns (c: System, d: System)
    ensures CanMove(START, Init(0)) && c == Next(START, Init(0))
    ensures CanMove(c, Env(NewOp([], true))) && d == Next(c, Env(NewOp([], true)))
    ensures At(d, 0, [1], Outside, Outside, Running, Running, 1, 0, 0, [], X0)
  {
    c := Next(START, Init(0));
    assert Items(c.k, Free) == [] && Items(c.k, Ready) == [] && c.k.num == 1 && c.k.next == 1;
    d := Next(c, Env(NewOp([], true)));
  }

  lemma Pauses(c: System)
    requires At(c, 0, [1], Outside, Outside, Running, Running, 1, 0, 0, [], X0)
    ensures CanMove(c, Env(PauseOp))
            && At(Next(c, Env(PauseOp)), 1, [0], Outside, Outside, Running, Running, 1, 0, 0, [], X0)
  {
  }

  lemma OnePosts(c: System)
    requires At(c, 1, [0], Outside, Outside, Running, Running, 1, 0, 0, [], X0)
    ensures CanMove(c, CallSend(0, A))
    ensures At(Next(c, CallSend(0, A)), 1, [0], Outside, Waiting(0, 0), Running, Running, 0, 1, 0, [], X1)
            && Cell(Next(c, CallSend(0, A)), 1) == 2
  {
  }

  lemma OneWaits(c: System)
    requires At(c, 1, [0], Outside, Waiting(0, 0), Running, Running, 0, 1, 0, [], X1) && Cell(c, 1) == 2
    ensures CanMove(c, GoOn)
    ensures At(Next(c, GoOn), 0, [], Outside, Waiting(0, 0), Running, OnSem(SyncSem(0)), 0, 1, 0, [1], X1)
            && Cell(Next(c, GoOn), 1) == 2
  {
  }

  lemma TakesToken(k: State)
    requires KernelAt(k, 0, [], Running, OnSem(SyncSem(0)), 0, 1, 0, [1])
    ensures KernelAt(Down(k, RecvSem(0)), 0, [], Running, OnSem(SyncSem(0)), 0, 0, 0, [1])
  {
  }

  lemma UpsSync(k: State)
    requires KernelAt(k, 0, [], Running, OnSem(SyncSem(0)), 0, 0, 0, [1])
    ensures KernelAt(UpSem(k, SyncSem(0)), 0, [1], Running, OnSem(SyncSem(0)), 0, 0, 1, [])
  {
  }

  lemma UpsSend(k: State)
    requires KernelAt(k, 0, [1], Running, OnSem(SyncSem(0)), 0, 0, 1, [])
    ensures KernelAt(UpSem(k, SendSem(0)), 0, [1], Running, OnSem(SyncSem(0)), 1, 0, 1, [])
  {
  }

  lemma RootReceives(c: System)
    requires At(c, 0, [], Outside, Waiting(0, 0), Running, OnSem(SyncSem(0)), 0, 1, 0, [1], X1) && Cell(c, 1) == 2
    ensures CanMove(c, CallRecv(0, 1))
    ensures At(Next(c, CallRecv(0, 1)), 0, [1], Outside, Waiting(0, 0), Running, OnSem(SyncSem(0)), 1, 0, 1, [], X2)
  {
    assert A[..1] == [7];
    TakesToken(c.k);
    UpsSync(Down(c.k, RecvSem(0)));
    UpsSend(UpSem(Down(c.k, RecvSem(0)), SyncSem(0)));
    hide Down, UpSem;
  }

  lemma RootPosts(c: System)
    requires At(c, 0, [1], Outside, Waiting(0, 0), Running, OnSem(SyncSem(0)), 1, 0, 1, [], X2)
    ensures CanMove(c, CallSend(0, B))
    ensures At(Next(c, CallSend(0, B)), 0, [1], Waiting(0, 1), Waiting(0, 0), Running, OnSem(SyncSem(0)), 0, 1, 1, [], X3)
    ensures Cell(Next(c, CallSend(0, B)), 0) == 3
  {
  }

  lemma RootReturns(c: System)
    requires At(c, 0, [1], Waiting(0, 1), Waiting(0, 0), Running, OnSem(SyncSem(0)), 0, 1, 1, [], X3) && Cell(c, 0) == 3
    ensures CanMove(c, GoOn)
    ensures At(Next(c, GoOn), 0, [1], Outside, Waiting(0, 0), Running, OnSem(SyncSem(0)), 0, 1, 0, [], X4)
  {
  }

  /** With overlapping senders the property fails: thread 1 posts, the root receives it and sends itself before thread
      1 has run again; the root then takes the token raised for thread 1 and returns 3 though its message was never
      copied. */
  lemma OverlappingSendersFail() returns (tr: seq<System>, ms: seq<Move>)
    ensures IsRun(tr, ms) && tr[0] == START && tr[|ms|].k.status == Live && 0 in tr[|ms|].chans
    ensures tr[|ms|].chans[0] == X4 && !Acknowledged(X4)
  {
    hide *;
    var s1, s2 := Begin();
    tr, ms := [START], [];
    Alone();
    tr, ms := Extend(tr, ms, Init(0));
    tr, ms := Extend(tr, ms, Env(NewOp([], true)));
    Pauses(tr[2]);
    tr, ms := Extend(tr, ms, Env(PauseOp));
    OnePosts(tr[3]);
    tr, ms := Extend(tr, ms, CallSend(0, A));
    OneWaits(tr[4]);
    tr, ms := Extend(tr, ms, GoOn);
    RootReceives(tr[5]);
    tr, ms := Extend(tr, ms, CallRecv(0, 1));
    RootPosts(tr[6]);
    tr, ms := Extend(tr, ms, CallSend(0, B));
    RootReturns(tr[7]);
    tr, ms := Extend(tr, ms, GoOn);
    AtEnd(tr[8]);
    TooEarly();
  }

  lemma Alone()
    ensures IsRun([START], [])
  {
  }

  lemma Extend(tr: seq<System>, ms: seq<Move>, m: Move) returns (tr': seq<System>, ms': seq<Move>)
    requires |tr| == |ms| + 1 && IsRun(tr, ms) && CanMove(tr[|ms|], m)
    ensures |ms'| == |ms| + 1 && |tr'| == |tr| + 1 && tr'[0] == tr[0] && tr'[|ms'|] == Next(tr[|ms|], m) && IsRun(tr', ms')
  {
    hide CanMove, Next;
    tr', ms' := tr + [Next(tr[|ms|], m)], ms + [m];
  }

  lemma AtEnd(c: System)
    requires At(c, 0, [1], Outside, Waiting(0, 0), Running, OnSem(SyncSem(0)), 0, 1, 0, [], X4)
    ensures c.k.status == Live && 0 in c.chans && c.chans[0] == X4
  {
  }

  lemma TooEarly()
    ensures !Acknowledged(X4)
  {
    assert X4.acks[0].idx == 1 && |X4.recvs| == 1;
  }
}

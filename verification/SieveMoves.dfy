/** What a call of a sieve thread does to the threads and to the channels. */
module SieveMoves {
  import opened Sched
  import opened SchedEffects
  import I = SchedInv
  import C = Channel
  import CI = ChannelInv

  // ---------------------------------------------------------------- threads

  /** The running thread made a channel call, and nobody else did anything. */
  ghost predicate Moved(c: C.System, d: C.System) {
    && d.k.status == Live && (forall ch :: ch in d.chans <==> ch in c.chans)
    && OthersKept(c.k, d.k) && (forall t :: t != c.k.current ==> C.StageOf(d, t) == C.StageOf(c, t))
    && Th(d.k, c.k.current).alive && c.k.threads.Keys <= d.k.threads.Keys
  }

  /** ... and it goes on. */
  ghost predicate Back(c: C.System, d: C.System) {
    Moved(c, d) && d.k.current == c.k.current && Th(d.k, c.k.current).blk == Running
  }

  lemma UpKeepsKeys(st: State, s: SemId)
    requires s in st.sems
    ensures st.threads.Keys <= UpSem(st, s).threads.Keys
  {
  }

  lemma DownKeepsKeys(st: State, s: SemId)
    requires s in st.sems
    ensures st.threads.Keys <= Down(st, s).threads.Keys
  {
  }

  lemma SendShape(c: C.System, ch: nat, msg: C.Message)
    requires C.Ready3(c, ch) && c.k.sems[SendSem(ch)] > 0
    ensures var d := C.TrySend(c, ch, msg);
            && d.k == UpSem(Down(c.k, SendSem(ch)), RecvSem(ch)) && C.StageOf(d, c.k.current) == C.Waiting(ch, |c.chans[ch].sends|)
            && (forall t :: t != c.k.current ==> C.StageOf(d, t) == C.StageOf(c, t)) && (forall x :: x in d.chans <==> x in c.chans)
  {
    hide Down, UpSem;
  }

  lemma TakeShape(c: C.System, ch: nat, room: nat)
    requires C.Ready3(c, ch) && c.k.sems[RecvSem(ch)] > 0
    ensures var d := C.TryRecv(c, ch, room);
            && d.k == UpSem(UpSem(Down(c.k, RecvSem(ch)), SyncSem(ch)), SendSem(ch)) && C.StageOf(d, c.k.current) == C.Outside
            && (forall t :: t != c.k.current ==> C.StageOf(d, t) == C.StageOf(c, t)) && (forall x :: x in d.chans <==> x in c.chans)
  {
    hide Down, UpSem;
  }

  lemma ReturnShape(c: C.System, ch: nat)
    requires C.StageOf(c, c.k.current).Waiting? && ch == C.StageOf(c, c.k.current).chan && C.Ready3(c, ch)
             && c.k.sems[SyncSem(ch)] > 0
    ensures var d := C.AwaitSync(c);
            && d.k == Down(c.k, SyncSem(ch)) && C.StageOf(d, c.k.current) == C.Outside
            && (forall t :: t != c.k.current ==> C.StageOf(d, t) == C.StageOf(c, t)) && (forall x :: x in d.chans <==> x in c.chans)
  {
    hide Down;
  }

  lemma SendMoves(c: C.System, ch: nat, msg: C.Message)
    requires CI.MayPost(c, ch)
    ensures C.Ready3(c, ch)
    ensures var d := C.TrySend(c, ch, msg); Back(c, d) && C.StageOf(d, c.k.current) == C.Waiting(ch, |c.chans[ch].sends|)
  {
    CI.MayPostToken(c, ch);
    CI.PostEffect(c, ch, msg);
    SendShape(c, ch, msg);
    DownKeepsKeys(c.k, SendSem(ch));
    DownSems(c.k, SendSem(ch));
    UpKeepsKeys(Down(c.k, SendSem(ch)), RecvSem(ch));
    MeIs(C.TrySend(c, ch, msg).k);
    hide *;
    BackIntro(c, C.TrySend(c, ch, msg));
  }

  lemma DownSems(st: State, s: SemId)
    requires s in st.sems
    ensures forall x :: x in st.sems ==> x in Down(st, s).sems
  {
  }

  lemma UpSems(st: State, s: SemId)
    requires s in st.sems
    ensures forall x :: x in st.sems ==> x in UpSem(st, s).sems
  {
  }

  lemma BackIntro(c: C.System, d: C.System)
    requires d.k.status == Live && (forall ch :: ch in d.chans <==> ch in c.chans) && OthersKept(c.k, d.k)
    requires forall t :: t != c.k.current ==> C.StageOf(d, t) == C.StageOf(c, t)
    requires d.k.current == c.k.current && Th(d.k, c.k.current).alive && Th(d.k, c.k.current).blk == Running
    requires c.k.threads.Keys <= d.k.threads.Keys
    ensures Back(c, d)
  {
    hide OthersKept, Th, C.StageOf;
  }

  lemma TakeMoves(c: C.System, ch: nat, room: nat)
    requires CI.MayTake(c, ch)
    ensures C.Ready3(c, ch)
    ensures var d := C.TryRecv(c, ch, room); Back(c, d) && C.StageOf(d, c.k.current) == C.Outside
  {
    CI.MayTakeToken(c, ch);
    CI.TakeEffect(c, ch, room);
    TakeShape(c, ch, room);
    var s := Down(c.k, RecvSem(ch));
    DownKeepsKeys(c.k, RecvSem(ch));
    DownSems(c.k, RecvSem(ch));
    UpKeepsKeys(s, SyncSem(ch));
    UpSems(s, SyncSem(ch));
    UpKeepsKeys(UpSem(s, SyncSem(ch)), SendSem(ch));
    MeIs(C.TryRecv(c, ch, room).k);
    hide *;
    BackIntro(c, C.TryRecv(c, ch, room));
  }

  lemma ReturnMoves(c: C.System, ch: nat)
    requires CI.MayReturn(c, ch)
    ensures C.StageOf(c, c.k.current).Waiting? && C.Ready3(c, C.StageOf(c, c.k.current).chan)
    ensures var d := C.AwaitSync(c); Back(c, d) && C.StageOf(d, c.k.current) == C.Outside
  {
    CI.ReturnEffect(c, ch);
    ReturnShape(c, ch);
    DownKeepsKeys(c.k, SyncSem(ch));
    MeIs(C.AwaitSync(c).k);
    hide *;
    BackIntro(c, C.AwaitSync(c));
  }

  /** A call that blocks while somebody is ready. */
  lemma BlockMoves(c: C.System, d: C.System, s: SemId, g: C.Stage)
    requires I.Inv(c.k) && Enabled(c.k, DownOp(s)) && c.k.sems[s] == 0 && Items(c.k, Ready) != []
    requires d == c.(k := Down(c.k, s), stage := c.stage[c.k.current := g])
    ensures Moved(c, d) && C.StageOf(d, c.k.current) == g
    ensures |Items(d.k, Ready)| < |Items(c.k, Ready)| && d.k.num == c.k.num
  {
    DownNeeds(c.k, s);
    BlockedShape(c, d, g);
    hide *;
    DownBlocks(c.k, s);
    DownKeepsKeys(c.k, s);
    BlockShrinks(c.k, OnSem(s), WaitersOf(s));
    DownIsBlock(c.k, s);
    MovedIntro(c, d);
  }

  lemma DownNeeds(st: State, s: SemId)
    requires Enabled(st, DownOp(s))
    ensures s in st.sems && st.status == Live
  {
  }

  lemma BlockedShape(c: C.System, d: C.System, g: C.Stage)
    requires d == c.(k := d.k, stage := c.stage[c.k.current := g])
    ensures C.StageOf(d, c.k.current) == g && forall t :: t != c.k.current ==> C.StageOf(d, t) == C.StageOf(c, t)
  {
  }

  lemma MovedIntro(c: C.System, d: C.System)
    requires d.k.status == Live && (forall ch :: ch in d.chans <==> ch in c.chans) && OthersKept(c.k, d.k)
    requires forall t :: t != c.k.current ==> C.StageOf(d, t) == C.StageOf(c, t)
    requires Th(d.k, c.k.current).alive && c.k.threads.Keys <= d.k.threads.Keys
    ensures Moved(c, d)
  {
    hide OthersKept, Th, C.StageOf;
  }

  lemma BlockShrinks(st: State, b: Blocked, l: ListId)
    requires Items(st, Ready) != [] && l != Ready
    ensures var r := Block(st, b, l); |Items(r, Ready)| == |Items(st, Ready)| - 1 && r.num == st.num && r.status == st.status
  {
    I.BlockIsParked(st, b, l);
    I.ParkedShape(st, b, l);
    hide Block, Items, I.Parked, Run;
    I.RunShape(I.Parked(st, b, l));
  }
}

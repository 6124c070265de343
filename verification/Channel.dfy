/** Synchronous channels: `chan_init`, `chan_send` and `chan_recv` as step machines over the scheduler.

    A call is cut where `sem_down` may switch threads.  Everything else of the system appears as `Env`: any scheduler
    operation on any other semaphore, by any thread that is not inside a channel call. */
module Channel {
  import opened Basics
  import opened Sched
  import opened SchedInv

  type Message = seq<int>

  /** `Sending`: in `sem_down(&chan->send)`.  `Waiting`: the message is posted and `sem_down(&chan->sync)` comes or
      goes on; `idx` numbers the posts of the channel.  `Receiving`: in `sem_down(&chan->recv)`. */
  datatype Stage =
    | Outside
    | Sending(chan: nat, msg: Message)
    | Waiting(chan: nat, idx: nat)
    | Receiving(chan: nat, room: nat)

  datatype Receipt = Receipt(data: Message, room: nat)
  datatype Ack = Ack(idx: nat, n: nat)

  /** The fields of `struct channel` besides its semaphores, with what was posted, received and acknowledged so far. */
  datatype Chan = Chan(ptr: Message, size: Option<Tid>, sends: seq<Message>, recvs: seq<Receipt>, acks: seq<Ack>)

  /** `cell[t]` is the local variable `size` in thread t's frame of `chan_send`, which `chan->size` points to. */
  datatype System = System(k: State, chans: map<nat, Chan>, stage: map<Tid, Stage>, cell: map<Tid, nat>)

  function StageOf(c: System, t: Tid): Stage {
    if t in c.stage then c.stage[t] else Outside
  }

  function Cell(c: System, t: Tid): nat {
    if t in c.cell then c.cell[t] else 0
  }

  predicate IsChanSem(s: SemId) {
    s.SendSem? || s.RecvSem? || s.SyncSem?
  }

  predicate Ready3(c: System, ch: nat) {
    && ch in c.chans && SendSem(ch) in c.k.sems && RecvSem(ch) in c.k.sems && SyncSem(ch) in c.k.sems
  }

  // ---------------------------------------------------------------- steps

  function InitChan(c: System, ch: nat): System {
    c.(k := InitSem(InitSem(InitSem(c.k, SendSem(ch), 1), RecvSem(ch), 0), SyncSem(ch), 0),
       chans := c.chans[ch := Chan([], None, [], [], [])])
  }

  /** `chan_send` up to the wait for the receiver; on a call or when woken in the first `sem_down`. */
  function TrySend(c: System, ch: nat, msg: Message): System
    requires Ready3(c, ch)
  {
    var me, x := c.k.current, c.chans[ch];
    if c.k.sems[SendSem(ch)] == 0 then
      c.(k := Down(c.k, SendSem(ch)), stage := c.stage[me := Sending(ch, msg)])
    else
      c.(k := UpSem(Down(c.k, SendSem(ch)), RecvSem(ch)),
         stage := c.stage[me := Waiting(ch, |x.sends|)],
         cell := c.cell[me := |msg|],
         chans := c.chans[ch := x.(ptr := msg, size := Some(me), sends := x.sends + [msg])])
  }

  /** The second `sem_down` of `chan_send` and the return of its `size`. */
  function AwaitSync(c: System): System
    requires StageOf(c, c.k.current).Waiting? && Ready3(c, StageOf(c, c.k.current).chan)
  {
    var me, ch := c.k.current, StageOf(c, c.k.current).chan;
    var d := Down(c.k, SyncSem(ch));
    if c.k.sems[SyncSem(ch)] == 0 then c.(k := d)
    else
      c.(k := d, stage := c.stage[me := Outside],
         chans := c.chans[ch := c.chans[ch].(acks := c.chans[ch].acks + [Ack(StageOf(c, me).idx, Cell(c, me))])])
  }

  /** The bytes `memcpy` delivers; a count beyond the buffer can only come from a stale `size` pointer. */
  function Copied(x: Chan, n: nat): Message {
    if n <= |x.ptr| then x.ptr[..n] else x.ptr
  }

  function TryRecv(c: System, ch: nat, room: nat): System
    requires Ready3(c, ch)
  {
    var me, x := c.k.current, c.chans[ch];
    if c.k.sems[RecvSem(ch)] == 0 then
      c.(k := Down(c.k, RecvSem(ch)), stage := c.stage[me := Receiving(ch, room)])
    else
      var owner := if x.size.Some? then x.size.value else ROOT;
      var n := Min(Cell(c, owner), room);
      c.(k := UpSem(UpSem(Down(c.k, RecvSem(ch)), SyncSem(ch)), SendSem(ch)),
         stage := c.stage[me := Outside],
         cell := c.cell[owner := n],
         chans := c.chans[ch := x.(recvs := x.recvs + [Receipt(Copied(x, n), room)])])
  }

  datatype Move =
    | Env(op: Op)
    | Init(ch: nat)
    | CallSend(ch: nat, msg: Message)
    | CallRecv(ch: nat, room: nat)
    | GoOn

  predicate OpSparesChannels(op: Op) {
    match op
    case InitOp(s, v) => !IsChanSem(s)
    case DownOp(s) => !IsChanSem(s)
    case TryDownOp(s) => !IsChanSem(s)
    case UpOp(s) => !IsChanSem(s)
    case _ => true
  }

  ghost predicate Unused(c: System, ch: nat) {
    forall t :: match StageOf(c, t)
                case Outside => true
                case Sending(x, _) => x != ch
                case Waiting(x, _) => x != ch
                case Receiving(x, _) => x != ch
  }

  ghost predicate CanMove(c: System, m: Move) {
    && c.k.status == Live
    && match m
       case Env(op) => StageOf(c, c.k.current) == Outside && OpSparesChannels(op) && Enabled(c.k, op)
       case Init(ch) => StageOf(c, c.k.current) == Outside && Me(c.k).blk == Running && Unused(c, ch)
       case CallSend(ch, _) => StageOf(c, c.k.current) == Outside && Me(c.k).blk == Running && Ready3(c, ch)
       case CallRecv(ch, _) => StageOf(c, c.k.current) == Outside && Me(c.k).blk == Running && Ready3(c, ch)
       case GoOn => !StageOf(c, c.k.current).Outside? && Ready3(c, StageOf(c, c.k.current).chan)
  }

  function Next(c: System, m: Move): System
    requires CanMove(c, m)
  {
    match m
    case Env(op) => c.(k := Step(c.k, op))
    case Init(ch) => InitChan(c, ch)
    case CallSend(ch, msg) => TrySend(c, ch, msg)
    case CallRecv(ch, room) => TryRecv(c, ch, room)
    case GoOn =>
      match StageOf(c, c.k.current)
      case Sending(ch, msg) => TrySend(c, ch, msg)
      case Receiving(ch, room) => TryRecv(c, ch, room)
      case Waiting(_, _) => AwaitSync(c)
      case Outside => c
  }

  const START := System(INITIAL, map[], map[], map[])

  // ---------------------------------------------------------------- the invariant

  ghost function Waiters(c: System, ch: nat): set<Tid> {
    set t | t in c.stage && c.stage[t].Waiting? && c.stage[t].chan == ch
  }

  /** A thread inside a call is blocked on the semaphore of that stage, or it runs with the posted message; outside it
      never waits there. */
  ghost predicate StageAgrees(c: System, t: Tid) {
    match StageOf(c, t)
    case Outside => Th(c.k, t).blk.OnSem? ==> !IsChanSem(Th(c.k, t).blk.s)
    case Sending(ch, _) => Ready3(c, ch) && Th(c.k, t).blk == OnSem(SendSem(ch)) && Th(c.k, t).alive
    case Receiving(ch, _) => Ready3(c, ch) && Th(c.k, t).blk == OnSem(RecvSem(ch)) && Th(c.k, t).alive
    case Waiting(ch, _) =>
      Ready3(c, ch) && Th(c.k, t).alive && (Th(c.k, t).blk == OnSem(SyncSem(ch)) || (Th(c.k, t).blk == Running && t == c.k.current))
  }

  /** What each receive got: the first bytes of the send with the same number, as many as fit. */
  ghost predicate Delivered(x: Chan) {
    && |x.recvs| <= |x.sends|
    && forall i :: 0 <= i < |x.recvs| ==> x.recvs[i].data == x.sends[i][..Min(|x.sends[i]|, x.recvs[i].room)]
  }

  /** Every send that returned did so after its message was copied, with the number of bytes copied; no send returned
      twice. */
  ghost predicate Acknowledged(x: Chan) {
    && (forall a :: 0 <= a < |x.acks| ==> x.acks[a].idx < |x.recvs| && x.acks[a].n == |x.recvs[x.acks[a].idx].data|)
    && (forall a, b :: 0 <= a < b < |x.acks| ==> x.acks[a].idx != x.acks[b].idx)
  }

  ghost predicate WaiterOk(c: System, ch: nat, t: Tid)
    requires ch in c.chans && t in c.stage && c.stage[t].Waiting?
  {
    var x, i := c.chans[ch], c.stage[t].idx;
    && i < |x.sends|
    && (i < |x.recvs| ==> Cell(c, t) == |x.recvs[i].data|)
    && (i >= |x.recvs| ==> x.size == Some(t) && Cell(c, t) == |x.sends[i]|)
    && (forall a :: 0 <= a < |x.acks| ==> x.acks[a].idx != i)
  }

  ghost predicate ChanOk(c: System, ch: nat)
    requires ch in c.chans
  {
    var x := c.chans[ch];
    && Ready3(c, ch)
    && Delivered(x) && Acknowledged(x)
    && c.k.sems[SendSem(ch)] + c.k.sems[RecvSem(ch)] == 1
    && |x.sends| == |x.recvs| + c.k.sems[RecvSem(ch)]
    && |x.recvs| == |x.acks| + c.k.sems[SyncSem(ch)]
    && |Waiters(c, ch)| + |x.acks| == |x.sends|
    && (forall t :: t in Waiters(c, ch) ==> WaiterOk(c, ch, t))
    && (forall t, u :: t in Waiters(c, ch) && u in Waiters(c, ch) && t != u ==> c.stage[t].idx != c.stage[u].idx)
    && (c.k.sems[RecvSem(ch)] == 1 ==>
          x.size.Some? && x.size.value in Waiters(c, ch) && c.stage[x.size.value].idx == |x.recvs| && x.ptr == x.sends[|x.recvs|])
  }

  /** The running sender would return although its message was not copied: it finds a token raised for another sender. */
  ghost predicate Premature(c: System) {
    && StageOf(c, c.k.current).Waiting?
    && var ch := StageOf(c, c.k.current).chan;
       Ready3(c, ch) && c.k.sems[SyncSem(ch)] > 0 && c.k.sems[RecvSem(ch)] == 1 && c.chans[ch].size == Some(c.k.current)
  }

  ghost predicate SysInv(c: System) {
    && Inv(c.k)
    && (c.k.status == Live ==>
          && (forall t :: StageAgrees(c, t))
          && (forall ch :: ch in c.chans ==> ChanOk(c, ch)))
  }
}

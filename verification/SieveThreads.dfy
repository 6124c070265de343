/** `sieve_test` on the thread kernel: every process of the sieve is a thread, every slot a channel.

    A step is one call of the running thread, up to the point where it returns or the thread is switched out, with
    what the thread computes after it. */
module SieveThreads {
  import opened Basics
  import opened Sched
  import opened Rendezvous
  import opened Sieve
  import C = Channel
  import CI = ChannelInv
  import CR = ChannelRuns
  import V = SieveInv

  /** `tids[k]` is the thread of process `k`; the channel into it has number `k`. */
  datatype Machine = Machine(c: C.System, nodes: seq<Node>, tids: seq<Tid>, actual: seq<int>)

  ghost function SlotAt(c: C.System, k: nat): Slot {
    if k in c.chans then CR.SlotOf(c.chans[k]) else Empty
  }

  /** The network of rendezvous that the machine stands for. */
  ghost function NetOf(m: Machine): Net {
    Net(m.nodes, seq(|m.nodes|, k requires 0 <= k < |m.nodes| => SlotAt(m.c, k)), m.actual)
  }

  // ---------------------------------------------------------------- the threads' code

  /** The next call of process `k`; a call that was cut goes on. */
  function Call(m: Machine, k: nat): C.Move
    requires k < |m.nodes| == |m.tids| && (m.nodes[k].pc.Joining? ==> k + 1 < |m.tids|)
  {
    var nd, t := m.nodes[k], m.tids[k];
    if C.StageOf(m.c, t) != C.Outside then C.GoOn
    else match nd.pc
      case Sinking => C.CallRecv(k, 1)
      case Filtering => C.CallRecv(k, 1)
      case Sending => C.CallSend(k + 1, [nd.x])
      case Awaiting => C.GoOn
      case Closing => C.CallRecv(k, 0)
      case Ending => C.CallRecv(k, 0)
      case Joining => C.Env(if Th(m.c.k, t).blk == Running then JoinOp(m.tids[k + 1]) else ResumeOp)
      case Finished => C.Env(ExitOp(0))
  }

  /** What the last `chan_recv` on a channel delivered, and what the last `chan_send` returned. */
  function LastData(c: C.System, ch: nat): seq<int> {
    if ch in c.chans && c.chans[ch].recvs != [] then c.chans[ch].recvs[|c.chans[ch].recvs| - 1].data else []
  }

  function LastAck(c: C.System, ch: nat): nat {
    if ch in c.chans && c.chans[ch].acks != [] then c.chans[ch].acks[|c.chans[ch].acks| - 1].n else 0
  }

  /** A process after its receive; without data its variable stays as it was. */
  function Took(nd: Node, data: seq<int>, p: Params): Node {
    var x := if data != [] then data[0] else nd.x;
    match nd.pc
    case Sinking => Sunk(nd, x, p)
    case Filtering => Filtered(nd, x)
    case Closing => nd.(pc := Joining)
    case _ => nd.(pc := Finished)
  }

  /** Process `k` after its call, which led to `d`; it is as before when the call did not return. */
  function NodeAfter(m: Machine, k: nat, d: C.System, p: Params): Node
    requires k < |m.nodes| == |m.tids| && (m.nodes[k].pc.Joining? ==> k + 1 < |m.tids|)
  {
    var nd, t := m.nodes[k], m.tids[k];
    var back := C.StageOf(d, t) == C.Outside;
    match nd.pc
    case Sending => if C.StageOf(d, t).Waiting? then nd.(pc := Awaiting) else nd
    case Awaiting => if back then Sent(nd, k == 0, LastAck(d, k + 1)) else nd
    case Joining => if Th(m.c.k, t).blk == Running && Th(m.c.k, m.tids[k + 1]).alive then nd else nd.(pc := Finished)
    case Finished => nd
    case _ => if back then Took(nd, LastData(d, k), p) else nd
  }

  /** One step of the machine, by process `k`.  A sink that has recorded its last prime goes on to make a channel and
      a thread for the next one. */
  ghost predicate Goes(m: Machine, k: nat, n: Machine, p: Params) {
    && k < |m.nodes| == |m.tids| && (m.nodes[k].pc.Joining? ==> k + 1 < |m.tids|)
    && m.tids[k] == m.c.k.current && C.CanMove(m.c, Call(m, k))
    && var d := C.Next(m.c, Call(m, k));
       var e := NodeAfter(m, k, d, p);
       var now := if |e.primes| > |m.nodes[k].primes| then m.actual + [e.x] else m.actual;
       if m.nodes[k].pc.Sinking? && e.pc.Filtering? then
         && C.CanMove(d, C.Init(k + 1))
         && var b := C.Next(d, C.Init(k + 1));
            && C.CanMove(b, C.Env(NewOp([], true)))
            && n == Machine(C.Next(b, C.Env(NewOp([], true))), m.nodes[k := e] + [Node(Sinking, [], e.x, [])], m.tids + [b.k.next], now)
       else n == Machine(d, m.nodes[k := e], m.tids, now)
  }

  // ---------------------------------------------------------------- the invariant

  ghost predicate Alive(m: Machine, k: nat)
    requires k < |m.tids|
  {
    Th(m.c.k, m.tids[k]).alive
  }

  /** A thread in its code, or inside a channel call. */
  ghost predicate Calling(c: C.System, t: Tid, s: C.Stage) {
    C.StageOf(c, t) == s || (C.StageOf(c, t) == C.Outside && Th(c.k, t).blk == Running)
  }

  /** The thread of a process is where the process is.  Nobody is switched out while joining or before its exit, and
      no send waits for a sender before it. */
  ghost predicate Seat(c: C.System, k: nat, nd: Node, t: Tid) {
    && (Th(c.k, t).alive || nd.pc.Finished?)
    && match nd.pc
       case Sending => C.StageOf(c, t) == C.Outside && Th(c.k, t).blk == Running
       case Awaiting => C.StageOf(c, t).Waiting? && C.StageOf(c, t).chan == k + 1
       case Joining => C.StageOf(c, t) == C.Outside && Th(c.k, t).blk == Running && t == c.k.current
       case Finished => C.StageOf(c, t) == C.Outside && (Th(c.k, t).alive ==> t == c.k.current && Th(c.k, t).blk == Running)
       case Closing => Calling(c, t, C.Receiving(k, 0))
       case Ending => Calling(c, t, C.Receiving(k, 0))
       case _ => Calling(c, t, C.Receiving(k, 1))
  }

  ghost predicate Seated(m: Machine) {
    |m.tids| == |m.nodes| && forall k :: 0 <= k < |m.nodes| ==> Seat(m.c, k, m.nodes[k], m.tids[k])
  }

  /** Each process has a thread of its own; besides, only the root is alive, and it waits for all. */
  ghost predicate Staffed(m: Machine) {
    && NoDup(m.tids) && ROOT !in m.tids
    && (forall t :: t !in m.tids ==> C.StageOf(m.c, t) == C.Outside && (Th(m.c.k, t).alive ==> t == ROOT))
    && Th(m.c.k, ROOT).alive && Th(m.c.k, ROOT).blk == OnAll
  }

  /** The channels are those between the processes. */
  ghost predicate Wired(m: Machine) {
    forall ch :: ch in m.c.chans <==> 1 <= ch < |m.nodes|
  }

  /** A process outlives the one it started, and its handle of that one's thread is good for as long as it lives. */
  ghost predicate Handles(m: Machine)
    requires |m.tids| == |m.nodes|
  {
    && (forall k :: 1 <= k < |m.nodes| - 1 && m.nodes[k].pc.Finished? ==> !Alive(m, k + 1))
    && (forall k :: 1 <= k < |m.nodes| - 1 && Alive(m, k) && !Alive(m, k + 1) ==> m.tids[k + 1] in m.c.k.threads)
  }

  ghost predicate Channels(c: C.System) {
    C.SysInv(c) && c.k.status == Live && CR.AllInTurn(c)
  }

  ghost predicate Sound(m: Machine, p: Params) {
    Channels(m.c) && V.Inv(NetOf(m), p) && Seated(m) && Staffed(m) && Wired(m) && Handles(m)
  }

  // ---------------------------------------------------------------- one sender per channel

  lemma OneSender(m: Machine)
    requires Seated(m) && Staffed(m)
    ensures CR.OneSender(m.c)
  {
    forall t, u | CR.InSend(m.c, t) && CR.InSend(m.c, u) && C.StageOf(m.c, t).chan == C.StageOf(m.c, u).chan ensures t == u {
      assert t in m.tids && u in m.tids;
      var i :| 0 <= i < |m.tids| && m.tids[i] == t;
      var j :| 0 <= j < |m.tids| && m.tids[j] == u;
      assert Seat(m.c, i, m.nodes[i], t) && Seat(m.c, j, m.nodes[j], u);
    }
  }

  /** Whoever is inside `chan_send` on channel `ch` is the process before it. */
  lemma OnlyWaiter(m: Machine, ch: nat, t: Tid)
    requires Seated(m) && Staffed(m) && 1 <= ch < |m.nodes| && t in C.Waiters(m.c, ch)
    ensures t == m.tids[ch - 1] && m.nodes[ch - 1].pc.Awaiting?
  {
    assert C.StageOf(m.c, t) == m.c.stage[t];
    assert t in m.tids;
    var i :| 0 <= i < |m.tids| && m.tids[i] == t;
    assert Seat(m.c, i, m.nodes[i], t);
  }

  // ---------------------------------------------------------------- tokens are slots

  lemma ChanFacts(c: C.System, ch: nat)
    requires Channels(c) && ch in c.chans
    ensures C.ChanOk(c, ch) && C.Ready3(c, ch) && CR.OneAtATime(c.chans[ch])
  {
    CI.ChanAt(c, ch);
    hide C.SysInv, C.ChanOk, CR.OneAtATime;
  }

  lemma Tokens(c: C.System, ch: nat)
    requires Channels(c) && ch in c.chans
    ensures C.Ready3(c, ch)
    ensures c.k.sems[RecvSem(ch)] > 0 <==> SlotAt(c, ch).Offered?
    ensures c.k.sems[SyncSem(ch)] > 0 <==> SlotAt(c, ch).Taken?
    ensures C.Waiters(c, ch) == {} ==> SlotAt(c, ch).Empty? && c.k.sems[SendSem(ch)] > 0
  {
    ChanFacts(c, ch);
    hide C.SysInv, CR.AllInTurn, C.Delivered, C.Acknowledged, C.Waiters;
  }

  lemma NetParts(m: Machine)
    ensures NetOf(m).nodes == m.nodes && NetOf(m).actual == m.actual && |NetOf(m).slots| == |m.nodes|
    ensures forall k :: 0 <= k < |m.nodes| ==> NetOf(m).slots[k] == SlotAt(m.c, k)
  {
    hide SlotAt;
  }
}

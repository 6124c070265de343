/** When no thread is ready, no sleeping process can go: the kernel never runs out of threads. */
module SieveSleep {
  import opened Basics
  import opened Sched
  import opened SchedEffects
  import opened Rendezvous
  import opened Sieve
  import opened SieveThreads
  import opened SieveCalls
  import I = SchedInv
  import C = Channel
  import SR = SieveRuns

  // ---------------------------------------------------------------- the kernel

  /** With nobody ready, a thread that does not run sleeps where its call says. */
  lemma SleepsThere(st: State, t: Tid)
    requires I.Inv(st) && st.status == Live && Items(st, Ready) == [] && t != st.current && Th(st, t).alive
    ensures Th(st, t).blk != Running
    ensures Th(st, t).blk.OnSem? ==> Th(st, t).inList == Some(WaitersOf(Th(st, t).blk.s)) && t in Items(st, WaitersOf(Th(st, t).blk.s))
    ensures Th(st, t).blk == OnAll ==> t in Items(st, AllJoin)
  {
    PlacesOf(st);
    AliveIsThere(st, t);
    hide I.Inv;
    I.PlaceAt(st, t);
    assert Th(st, t).inList.Some? ==> t in Items(st, Th(st, t).inList.value);
  }

  lemma AliveIsThere(st: State, t: Tid)
    requires Th(st, t).alive
    ensures t in st.threads
  {
  }

  /** If its only sleeper sleeps, a semaphore has no token. */
  lemma NoToken(st: State, s: SemId, t: Tid)
    requires I.Inv(st) && st.status == Live && s in st.sems && t in Items(st, WaitersOf(s))
             && Th(st, t).inList == Some(WaitersOf(s))
    requires forall u :: Th(st, u).alive && Th(st, u).blk == OnSem(s) ==> u == t
    ensures st.sems[s] == 0
  {
    assert I.NotLost(st, s);
    hide I.Inv, Items;
    forall u ensures u !in I.Woken(st, s) {
    }
    assert I.Woken(st, s) == {};
  }

  // ---------------------------------------------------------------- who sleeps on what

  lemma Agrees(c: C.System, t: Tid)
    requires C.SysInv(c) && c.k.status == Live
    ensures C.StageAgrees(c, t)
  {
    hide C.StageAgrees;
  }

  lemma SleeperSits(m: Machine, u: Tid, s: SemId) returns (i: nat)
    requires C.SysInv(m.c) && m.c.k.status == Live && Seated(m) && Staffed(m)
    requires Th(m.c.k, u).blk == OnSem(s) && C.IsChanSem(s)
    ensures i < |m.tids| == |m.nodes| && m.tids[i] == u
    ensures m.nodes[i].pc.Awaiting? ==> s == SyncSem(i + 1)
    ensures !m.nodes[i].pc.Awaiting? ==> s == RecvSem(i)
  {
    Agrees(m.c, u);
    hide C.SysInv, Seat;
    assert C.StageOf(m.c, u) != C.Outside;
    assert u in m.tids;
    i :| 0 <= i < |m.tids| && m.tids[i] == u;
    SitsOn(m.c, i, m.nodes[i], u, s);
  }

  lemma SitsOn(c: C.System, i: nat, nd: Node, u: Tid, s: SemId)
    requires Seat(c, i, nd, u) && C.StageAgrees(c, u) && Th(c.k, u).blk == OnSem(s) && C.IsChanSem(s)
    ensures nd.pc.Awaiting? ==> s == SyncSem(i + 1)
    ensures !nd.pc.Awaiting? ==> s == RecvSem(i)
  {
    hide Th, C.StageOf;
  }

  /** A process whose thread sleeps waits for what its channel does not have. */
  lemma AsleepCannotGo(m: Machine, j: nat, p: Params)
    requires Sound(m, p) && j < |m.nodes| && m.tids[j] != m.c.k.current && Items(m.c.k, Ready) == []
    ensures !CanGo(NetOf(m), j)
  {
    hide *;
    ChannelsParts(m, p);
    SeatAt(m, j);
    if m.nodes[j].pc == Finished {
      FinishedStays(m, j);
    } else {
      InItsCall(m, j, p);
      var s := Waits(m.nodes[j], j);
      var t := m.tids[j];
      SleepsThere(m.c.k, t);
      forall u | Th(m.c.k, u).alive && Th(m.c.k, u).blk == OnSem(s) ensures u == t {
        var i := SleeperSits(m, u, s);
        SameSem(m.nodes[i], i, m.nodes[j], j);
      }
      Uses(m, j, p);
      WaitsOnPort(m.nodes[j], j);
      ReadySems(m.c, Port(m.nodes[j], j));
      NoToken(m.c.k, s, t);
      TokenIffPossible(m, j, p);
      NetParts(m);
      CannotTalk(m, j);
    }
  }

  function Waits(nd: Node, j: nat): SemId {
    if nd.pc.Awaiting? then SyncSem(j + 1) else RecvSem(j)
  }

  lemma SameSem(x: Node, i: nat, y: Node, j: nat)
    requires x.pc.Awaiting? ==> Waits(y, j) == SyncSem(i + 1)
    requires !x.pc.Awaiting? ==> Waits(y, j) == RecvSem(i)
    ensures i == j
  {
  }

  lemma FinishedStays(m: Machine, j: nat)
    requires j < |m.nodes| && m.nodes[j].pc == Finished
    ensures !CanGo(NetOf(m), j)
  {
  }

  /** A thread that is alive, not ready and not running is inside a channel call. */
  lemma InItsCall(m: Machine, j: nat, p: Params)
    requires Sound(m, p) && j < |m.nodes| == |m.tids| && m.tids[j] != m.c.k.current && Items(m.c.k, Ready) == []
    requires Seat(m.c, j, m.nodes[j], m.tids[j]) && m.nodes[j].pc != Finished
    ensures Talking(m.nodes[j].pc) && !m.nodes[j].pc.Sending?
    ensures Th(m.c.k, m.tids[j]).alive && Th(m.c.k, m.tids[j]).blk == OnSem(Waits(m.nodes[j], j))
            && C.IsChanSem(Waits(m.nodes[j], j))
  {
    hide Sound, Items;
    ChannelsParts(m, p);
    SleepsThere(m.c.k, m.tids[j]);
    Agrees(m.c, m.tids[j]);
    SeatSleeps(m.c, j, m.nodes[j], m.tids[j]);
  }

  lemma SeatSleeps(c: C.System, j: nat, nd: Node, t: Tid)
    requires Seat(c, j, nd, t) && C.StageAgrees(c, t) && t != c.k.current && nd.pc != Finished
             && Th(c.k, t).blk != Running
    ensures Talking(nd.pc) && !nd.pc.Sending? && Th(c.k, t).blk == OnSem(Waits(nd, j)) && C.IsChanSem(Waits(nd, j))
  {
    hide Th, C.StageOf, C.Ready3;
  }

  lemma WaitsOnPort(nd: Node, j: nat)
    requires Talking(nd.pc) && !nd.pc.Sending?
    ensures Waits(nd, j) == if nd.pc.Awaiting? then SyncSem(Port(nd, j)) else RecvSem(Port(nd, j))
  {
  }

  lemma ReadySems(c: C.System, ch: nat)
    requires C.Ready3(c, ch)
    ensures SendSem(ch) in c.k.sems && RecvSem(ch) in c.k.sems && SyncSem(ch) in c.k.sems
  {
  }

  lemma CannotTalk(m: Machine, j: nat)
    requires j < |m.nodes| && NetOf(m).nodes == m.nodes && |NetOf(m).slots| == |m.nodes| && Talking(m.nodes[j].pc)
    requires forall k :: 0 <= k < |m.nodes| ==> NetOf(m).slots[k] == SlotAt(m.c, k)
    requires !Possible(SlotAt(m.c, Port(m.nodes[j], j)), Action(m.nodes[j]))
    ensures !CanGo(NetOf(m), j)
  {
    hide NetOf, SlotAt, Possible;
  }

  /** If the running process cannot go either, all would have finished. */
  lemma SomebodyIsReady(m: Machine, k: nat, p: Params)
    requires Sound(m, p) && k < |m.nodes| && m.tids[k] == m.c.k.current && !CanGo(NetOf(m), k) && Items(m.c.k, Ready) == []
    ensures AllFinished(NetOf(m))
  {
    hide *;
    ChannelsParts(m, p);
    if !AllFinished(NetOf(m)) {
      var j := SR.SomebodyCanGo(NetOf(m), p);
      SR.CanGoExists(NetOf(m), j);
      NetParts(m);
      if j != k {
        StaffParts(m);
        SeatAt(m, j);
        OtherTid(m, j, k);
        AsleepCannotGo(m, j, p);
      }
    }
  }
}

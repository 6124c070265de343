/** `sieve_test` on the kernel, step by step: it never runs out of threads, always ends, and ends with the primes. */
module SieveTest {
  import opened Basics
  import opened Sched
  import opened SchedEffects
  import opened Rendezvous
  import opened Sieve
  import opened SieveThreads
  import opened SieveMoves
  import opened SieveCalls
  import opened SieveTalks
  import opened SieveSleep
  import I = SchedInv
  import Q = SchedRuns
  import C = Channel
  import CR = ChannelRuns
  import V = SieveInv
  import SS = SieveSteps
  import SR = SieveRuns

  /** What a step is for the network, and what it costs the kernel: it is a step of the process, or the thread goes to
      sleep, or leaves. */
  ghost predicate Stepped(m: Machine, k: nat, n: Machine, p: Params) {
    && Goes(m, k, n, p) && Sound(n, p)
    && if NetOf(n) == NetOf(m) then n.c.k.num < m.c.k.num || (n.c.k.num == m.c.k.num && |Items(n.c.k, Ready)| < |Items(m.c.k, Ready)|)
       else CanGo(NetOf(m), k) && NetOf(n) == Next(NetOf(m), k, p)
  }

  lemma SoundIntro(n: Machine, p: Params)
    requires Channels(n.c) && V.Inv(NetOf(n), p) && Seated(n) && Staffed(n) && Wired(n) && Handles(n)
    ensures Sound(n, p)
  {
    hide Channels, V.Inv, NetOf, Seated, Staffed, Wired, Handles;
  }

  // ---------------------------------------------------------------- a call that returns

  lemma GoesMid(m: Machine, k: nat, p: Params)
    requires k < |m.nodes| == |m.tids| && m.tids[k] == m.c.k.current && Talking(m.nodes[k].pc) && C.CanMove(m.c, Call(m, k))
    requires !(m.nodes[k].pc.Sinking? && Mid(m, k, p).nodes[k].pc.Filtering?)
    ensures Goes(m, k, Mid(m, k, p), p)
  {
    hide C.CanMove, C.Next, Call, NodeAfter;
  }

  lemma ReturnSteps(m: Machine, k: nat, p: Params)
    requires Sound(m, p) && k < |m.nodes| && m.tids[k] == m.c.k.current && Talking(m.nodes[k].pc)
    requires Possible(SlotAt(m.c, Port(m.nodes[k], k)), Action(m.nodes[k]))
    requires |m.tids| == |m.nodes| && C.CanMove(m.c, Call(m, k)) && !(m.nodes[k].pc.Sinking? && Mid(m, k, p).nodes[k].pc.Filtering?)
    ensures Stepped(m, k, Mid(m, k, p), p)
  {
    hide *;
    var n := Mid(m, k, p);
    ChannelsParts(m, p);
    ReturnSeats(m, k, p);
    ReturnNet(m, k, p);
    MidIs(m, k, p);
    GoesMid(m, k, p);
    NetParts(m);
    NetParts(n);
    GoesInNet(NetOf(m), k, p);
    SameNet(NetOf(n), Next(NetOf(m), k, p));
    SS.StepKeepsInv(NetOf(m), k, p);
    SoundIntro(n, p);
    NetStepped(m, k, n, p);
  }

  lemma SameNet(a: Net, b: Net)
    requires a.nodes == b.nodes && a.slots == b.slots && a.actual == b.actual
    ensures a == b
  {
  }

  /** A step of the network changes it. */
  lemma NetStepped(m: Machine, k: nat, n: Machine, p: Params)
    requires Goes(m, k, n, p) && Sound(n, p) && V.Inv(NetOf(m), p) && CanGo(NetOf(m), k)
             && NetOf(n) == Next(NetOf(m), k, p)
    ensures Stepped(m, k, n, p)
  {
    SR.MeasureDrops(NetOf(m), k, p);
    hide Goes, Sound, V.Inv, CanGo, NetOf, Next, SR.Measure;
  }

  // ---------------------------------------------------------------- a call that blocks

  lemma BlockSteps(m: Machine, k: nat, p: Params)
    requires Sound(m, p) && k < |m.nodes| && m.tids[k] == m.c.k.current && Talking(m.nodes[k].pc)
    requires !Possible(SlotAt(m.c, Port(m.nodes[k], k)), Action(m.nodes[k])) && Items(m.c.k, Ready) != []
    ensures |m.tids| == |m.nodes| && C.CanMove(m.c, Call(m, k)) && Stepped(m, k, Mid(m, k, p), p)
  {
    hide *;
    ChannelsParts(m, p);
    SeatAt(m, k);
    StaffParts(m);
    CallIsPossible(m, k, p);
    CallBlocks(m, k, p);
    var n, d := Mid(m, k, p), C.Next(m.c, Call(m, k));
    MidIs(m, k, p);
    NodeBlocks(m, k, d, p);
    StillAlive(m, k);
    MovedParts(m.c, d);
    BlockedSeat(m, k, n);
    SeatsStay(m, k, n);
    StaffStays(m, k, n);
    HandlesStay(m, k, n);
    WiredStays(m, n);
    OneSender(n);
    TurnsAfter(m, k, p);
    SleepsQuietly(m, k, p);
    GoesMid(m, k, p);
    SoundIntro(n, p);
    QuietStep(m, k, n, p);
  }

  lemma MovedParts(c: C.System, d: C.System)
    requires Moved(c, d)
    ensures d.k.status == Live && Th(d.k, c.k.current).alive && forall ch :: ch in d.chans <==> ch in c.chans
  {
    hide Th, OthersKept, C.StageOf;
  }

  lemma NodeBlocks(m: Machine, k: nat, d: C.System, p: Params)
    requires k < |m.nodes| == |m.tids| && Talking(m.nodes[k].pc) && !m.nodes[k].pc.Sending?
    requires if m.nodes[k].pc.Awaiting? then C.StageOf(d, m.tids[k]).Waiting? && C.StageOf(d, m.tids[k]).chan == k + 1
             else C.StageOf(d, m.tids[k]) == C.Receiving(k, Room(m.nodes[k].pc))
    ensures NodeAfter(m, k, d, p) == m.nodes[k]
  {
    hide C.StageOf;
  }

  lemma BlockedSeat(m: Machine, k: nat, n: Machine)
    requires k < |m.nodes| == |m.tids| && Talking(m.nodes[k].pc) && !m.nodes[k].pc.Sending? && |n.nodes| == |m.nodes| && n.nodes[k] == m.nodes[k]
    requires Th(n.c.k, m.tids[k]).alive
    requires if m.nodes[k].pc.Awaiting? then C.StageOf(n.c, m.tids[k]).Waiting? && C.StageOf(n.c, m.tids[k]).chan == k + 1
             else C.StageOf(n.c, m.tids[k]) == C.Receiving(k, Room(m.nodes[k].pc))
    ensures Seat(n.c, k, n.nodes[k], m.tids[k]) && !n.nodes[k].pc.Finished?
            && !(m.nodes[k].pc.Sinking? && n.nodes[k].pc.Filtering?)
  {
    hide Th, C.StageOf;
  }

  /** A call without an event leaves the network as it was. */
  lemma SleepsQuietly(m: Machine, k: nat, p: Params)
    requires Sound(m, p) && k < |m.nodes| == |m.tids| && m.tids[k] == m.c.k.current && Talking(m.nodes[k].pc)
    requires !Possible(SlotAt(m.c, Port(m.nodes[k], k)), Action(m.nodes[k])) && C.CanMove(m.c, Call(m, k))
    requires var n := Mid(m, k, p);
             && n.c.k.status == Live && CR.OneSender(n.c) && |n.nodes| == |m.nodes| && n.nodes[k] == m.nodes[k]
             && forall ch :: ch in n.c.chans <==> ch in m.c.chans
    ensures NetOf(Mid(m, k, p)) == NetOf(m)
  {
    hide *;
    var n := Mid(m, k, p);
    MidIs(m, k, p);
    forall ch | 0 <= ch < |m.nodes| ensures SlotAt(n.c, ch) == SlotAt(m.c, ch) {
      if ch in m.c.chans {
        SlotAfter(m, k, p, ch);
      } else {
        NoSlot(m.c, ch);
        NoSlot(n.c, ch);
      }
    }
    NetParts(m);
    NetParts(n);
    assert m.nodes[k := m.nodes[k]] == m.nodes;
    assert NetOf(n).slots == NetOf(m).slots;
    SameNet(NetOf(n), NetOf(m));
  }

  lemma QuietStep(m: Machine, k: nat, n: Machine, p: Params)
    requires Goes(m, k, n, p) && Sound(n, p) && NetOf(n) == NetOf(m)
    requires n.c.k.num < m.c.k.num || (n.c.k.num == m.c.k.num && |Items(n.c.k, Ready)| < |Items(m.c.k, Ready)|)
    ensures Stepped(m, k, n, p)
  {
    hide Goes, Sound, NetOf;
  }

  // ---------------------------------------------------------------- joining

  lemma JoinSteps(m: Machine, k: nat, p: Params)
    requires Sound(m, p) && k < |m.nodes| && m.tids[k] == m.c.k.current && m.nodes[k].pc.Joining?
    ensures var n := m.(nodes := m.nodes[k := m.nodes[k].(pc := Finished)]); Stepped(m, k, n, p)
  {
    hide *;
    var n := m.(nodes := m.nodes[k := m.nodes[k].(pc := Finished)]);
    ChannelsParts(m, p);
    SeatAt(m, k);
    StaffParts(m);
    DeadChild(m, k, p);
    OtherTid(m, k, k + 1);
    MeIs(m.c.k);
    JoinCall(m, k, p);
    JoinedSeats(m, k, n);
    JoinedStaff(m, n);
    JoinedHandles(m, k, n);
    NetParts(m);
    NetParts(n);
    JoinedNet(m, k, n, p);
    SS.StepKeepsInv(NetOf(m), k, p);
    SoundIntro(n, p);
    NetStepped(m, k, n, p);
  }

  /** The child is dead, so the call returns at once. */
  lemma JoinCall(m: Machine, k: nat, p: Params)
    requires k + 1 < |m.nodes| == |m.tids| && m.tids[k] == m.c.k.current && m.nodes[k].pc.Joining?
    requires Seat(m.c, k, m.nodes[k], m.tids[k]) && m.c.k.status == Live && Me(m.c.k) == Th(m.c.k, m.c.k.current)
    requires m.tids[k + 1] != m.tids[k] && !Alive(m, k + 1) && m.tids[k + 1] in m.c.k.threads
    ensures Goes(m, k, m.(nodes := m.nodes[k := m.nodes[k].(pc := Finished)]), p)
  {
    hide Th, Me, C.StageOf, Block;
  }

  lemma JoinedSeats(m: Machine, k: nat, n: Machine)
    requires Seated(m) && k < |m.nodes| == |m.tids| && n == m.(nodes := m.nodes[k := m.nodes[k].(pc := Finished)]) && m.nodes[k].pc.Joining?
    ensures Seated(n)
  {
    hide Th, C.StageOf;
    forall i | 0 <= i < |n.nodes| ensures Seat(n.c, i, n.nodes[i], n.tids[i]) {
      assert Seat(m.c, i, m.nodes[i], m.tids[i]);
    }
  }

  lemma JoinedStaff(m: Machine, n: Machine)
    requires Staffed(m) && Wired(m) && n.c == m.c && n.tids == m.tids && |n.nodes| == |m.nodes|
    ensures Staffed(n) && Wired(n)
  {
    hide NoDup;
  }

  lemma JoinedHandles(m: Machine, k: nat, n: Machine)
    requires |m.tids| == |m.nodes| && Handles(m) && k + 1 < |m.nodes| && !Alive(m, k + 1)
    requires n == m.(nodes := m.nodes[k := m.nodes[k].(pc := Finished)])
    ensures Handles(n)
  {
    assert forall i :: 0 <= i < |m.tids| ==> Alive(n, i) == Alive(m, i);
    hide Alive;
  }

  lemma JoinedNet(m: Machine, k: nat, n: Machine, p: Params)
    requires k + 1 < |m.nodes| && m.nodes[k].pc.Joining? && m.nodes[k + 1].pc.Finished?
    requires n == m.(nodes := m.nodes[k := m.nodes[k].(pc := Finished)])
    requires NetOf(m).nodes == m.nodes && NetOf(n).nodes == n.nodes && |NetOf(m).slots| == |NetOf(n).slots| == |m.nodes|
    requires NetOf(m).actual == m.actual && NetOf(n).actual == n.actual
    requires forall i :: 0 <= i < |m.nodes| ==> NetOf(m).slots[i] == SlotAt(m.c, i)
    requires forall i :: 0 <= i < |m.nodes| ==> NetOf(n).slots[i] == SlotAt(n.c, i)
    ensures CanGo(NetOf(m), k) && NetOf(n) == Next(NetOf(m), k, p)
  {
    hide NetOf, SlotAt;
    assert NetOf(n).slots == NetOf(m).slots;
  }

  // ---------------------------------------------------------------- the exit

  /** What an exit does to threads, when somebody is ready after it. */
  lemma ExitThreads(st: State)
    requires I.Inv(st) && st.status == Live && Me(st).blk == Running && st.num >= 2
    requires Items(st, Ready) != [] || (st.num == 2 && Items(st, AllJoin) != [])
    ensures var e := Exit(st, 0);
            && e.status == Live && e.num == st.num - 1
            && (forall u :: Th(e, u).alive <==> Th(st, u).alive && u != st.current)
            && (forall u :: Th(e, u).alive ==> Th(e, u).blk == Th(st, u).blk)
            && (forall u :: u in st.threads && u !in Items(st, Free) ==> u in e.threads)
  {
    Q.CurrentSettled(st);
    FreeIsDeadIn(st);
    MeIs(st);
    hide *;
    I.ExitIs(st, 0);
    I.LeftShape(st, 0);
    Q.ExitNum(st, 0);
    Q.BeforeDeparture(st, 0);
    var l, w := Left(st, 0), WakeAllJoiner(Left(st, 0));
    LeftAlive(st, l);
    WakeAllEffect(l);
    WakeKeys(l);
    DepartShape(w);
    DepartEffect(w);
    DepartKeys(w);
    assert Th(w, st.current).alive == Th(l, st.current).alive;
  }

  lemma FreeIsDeadIn(st: State)
    requires I.Inv(st) && st.status == Live
    ensures forall t :: t in Items(st, Free) ==> !Th(st, t).alive
  {
    PlacesOf(st);
    hide I.Inv, I.Places;
    I.FreeIsDead(st);
  }

  lemma WakeKeys(l: State)
    ensures l.threads.Keys <= WakeAllJoiner(l).threads.Keys
  {
  }

  lemma DepartKeys(w: State)
    requires w.num > 1
    ensures w.threads.Keys <= Depart(w).threads.Keys && Depart(w).num == w.num - 1
  {
  }

  lemma LeftAlive(st: State, l: State)
    requires forall t :: t in Items(st, Free) ==> !Th(st, t).alive
    requires forall u :: Th(l, u) == if u in Items(st, Free) then NOBODY
                                     else if u == st.current then Me(st).(alive := false, inList := Th(l, u).inList)
                                     else if u in Items(st, JoinOf(st.current)) then Th(st, u).(inList := Some(Ready), code := 0)
                                     else Th(st, u)
    ensures forall u :: Th(l, u).alive <==> Th(st, u).alive && u != st.current
    ensures forall u :: Th(l, u).alive ==> Th(l, u).blk == Th(st, u).blk
  {
    hide Th, Items, Me;
  }

  lemma SetOfTwo(s: set<Tid>, a: Tid, b: Tid)
    requires a in s && b in s && a != b
    ensures |s| >= 2
    ensures (forall t :: t in s ==> t == a || t == b) ==> |s| == 2
  {
    var rest := s - {a, b};
    assert s == {a, b} + rest;
    assert (forall t :: t in s ==> t == a || t == b) ==> rest == {};
  }

  lemma AliveSetHas(st: State, t: Tid)
    ensures t in AliveSet(st) <==> Th(st, t).alive
  {
  }

  /** When a finished thread leaves, somebody is ready, or the root is woken as the last one. */
  lemma ExitWakes(m: Machine, k: nat, p: Params)
    requires Sound(m, p) && k < |m.nodes| && m.tids[k] == m.c.k.current && m.nodes[k].pc == Finished
    ensures var st := m.c.k; st.num >= 2 && (Items(st, Ready) != [] || (st.num == 2 && Items(st, AllJoin) != []))
  {
    hide *;
    var st := m.c.k;
    ChannelsParts(m, p);
    StaffParts(m);
    CurrentIsAlive(st);
    MeIs(st);
    Q.ThreadsAreCounted(st);
    AliveSetHas(st, ROOT);
    AliveSetHas(st, st.current);
    SeatAt(m, k);
    assert m.tids[k] in m.tids;
    SetOfTwo(AliveSet(st), ROOT, st.current);
    if Items(st, Ready) == [] {
      FinishedStays(m, k);
      SomebodyIsReady(m, k, p);
      forall t | t in AliveSet(st) ensures t == ROOT || t == st.current {
        AliveSetHas(st, t);
        if t != ROOT {
          var i :| 0 <= i < |m.tids| && m.tids[i] == t;
          AllAtTheirEnds(m, i);
        }
      }
      SleepsThere(st, ROOT);
    }
  }

  lemma AllAtTheirEnds(m: Machine, i: nat)
    requires Seated(m) && AllFinished(NetOf(m)) && i < |m.tids| && Th(m.c.k, m.tids[i]).alive
    ensures m.tids[i] == m.c.k.current
  {
    SeatAt(m, i);
    NetParts(m);
    assert m.nodes[i].pc.Finished?;
    AtItsEnd(m.c, i, m.nodes[i], m.tids[i]);
    hide *;
  }

  lemma ExitCall(m: Machine, k: nat, p: Params)
    requires k < |m.nodes| == |m.tids| && m.tids[k] == m.c.k.current && m.nodes[k].pc == Finished && m.c.k.status == Live
    requires Seat(m.c, k, m.nodes[k], m.tids[k]) && Th(m.c.k, m.tids[k]).alive && Me(m.c.k) == Th(m.c.k, m.c.k.current)
    ensures var d := m.c.(k := Exit(m.c.k, 0));
            && Me(m.c.k).blk == Running && C.StageOf(m.c, m.tids[k]) == C.Outside
            && C.CanMove(m.c, C.Env(ExitOp(0))) && C.Next(m.c, C.Env(ExitOp(0))) == d && Goes(m, k, m.(c := d), p)
  {
    assert m.nodes[k := m.nodes[k]] == m.nodes;
    hide Th, Me, C.StageOf, Exit;
  }

  lemma ExitSteps(m: Machine, k: nat, p: Params)
    requires Sound(m, p) && k < |m.nodes| && m.tids[k] == m.c.k.current && m.nodes[k].pc == Finished
    ensures Stepped(m, k, m.(c := m.c.(k := Exit(m.c.k, 0))), p)
  {
    hide *;
    var st, d := m.c.k, m.c.(k := Exit(m.c.k, 0));
    var n := m.(c := d);
    ChannelsParts(m, p);
    SeatAt(m, k);
    StaffParts(m);
    CurrentIsAlive(st);
    MeIs(st);
    ExitCall(m, k, p);
    ExitWakes(m, k, p);
    ExitThreads(st);
    CR.MoveKeepsInv(m.c, C.Env(ExitOp(0)));
    SameTurns(m.c, d);
    LeftSeats(m, k, n);
    LeftStaff(m, n);
    LeftHandles(m, k, n, p);
    SameSlots(m, n);
    SoundIntro(n, p);
    QuietStep(m, k, n, p);
  }

  lemma SameTurns(c: C.System, d: C.System)
    requires CR.AllInTurn(c) && d.chans == c.chans && C.SysInv(d) && d.k.status == Live
    ensures Channels(d)
  {
    hide C.SysInv, CR.OneAtATime;
  }

  lemma SameStages(c: C.System, d: C.System)
    requires d.stage == c.stage
    ensures forall t :: C.StageOf(d, t) == C.StageOf(c, t)
  {
  }

  lemma LeftSeats(m: Machine, k: nat, n: Machine)
    requires Seated(m) && n == m.(c := m.c.(k := n.c.k)) && NoDup(m.tids) && k < |m.nodes| && m.tids[k] == m.c.k.current
             && m.nodes[k].pc == Finished
    requires forall u :: Th(n.c.k, u).alive <==> Th(m.c.k, u).alive && u != m.c.k.current
    requires forall u :: Th(n.c.k, u).alive ==> Th(n.c.k, u).blk == Th(m.c.k, u).blk
    ensures Seated(n)
  {
    SameStages(m.c, n.c);
    hide Th, C.StageOf;
    forall i | 0 <= i < |n.nodes| ensures Seat(n.c, i, n.nodes[i], n.tids[i]) {
      assert Seat(m.c, i, m.nodes[i], m.tids[i]);
      if i != k {
        OtherTid(m, i, k);
      }
    }
  }

  lemma LeftStaff(m: Machine, n: Machine)
    requires Staffed(m) && Wired(m) && n == m.(c := m.c.(k := n.c.k)) && m.c.k.current in m.tids
    requires forall u :: Th(n.c.k, u).alive <==> Th(m.c.k, u).alive && u != m.c.k.current
    requires forall u :: Th(n.c.k, u).alive ==> Th(n.c.k, u).blk == Th(m.c.k, u).blk
    ensures Staffed(n) && Wired(n)
  {
    SameStages(m.c, n.c);
    hide Th, C.StageOf, NoDup;
  }

  lemma SameSlots(m: Machine, n: Machine)
    requires n.nodes == m.nodes && n.actual == m.actual && n.c.chans == m.c.chans
    ensures NetOf(n) == NetOf(m)
  {
    assert NetOf(n).slots == NetOf(m).slots;
  }

  /** Children die before their parents: the handle that a living process holds is not the one freed. */
  lemma LeftHandles(m: Machine, k: nat, n: Machine, p: Params)
    requires Sound(m, p) && k < |m.nodes| && m.tids[k] == m.c.k.current && m.nodes[k].pc == Finished
    requires n == m.(c := m.c.(k := n.c.k)) && Th(m.c.k, m.tids[k]).alive
    requires forall u :: Th(n.c.k, u).alive <==> Th(m.c.k, u).alive && u != m.c.k.current
    requires forall u :: u in m.c.k.threads && u !in Items(m.c.k, Free) ==> u in n.c.k.threads
    ensures |n.tids| == |n.nodes| && Handles(n)
  {
    hide *;
    ChannelsParts(m, p);
    SeatAt(m, k);
    forall i | 1 <= i < |m.nodes| - 1
      ensures n.nodes[i].pc.Finished? ==> !Th(n.c.k, n.tids[i + 1]).alive
      ensures Th(n.c.k, n.tids[i]).alive && !Th(n.c.k, n.tids[i + 1]).alive ==> n.tids[i + 1] in n.c.k.threads
    {
      HandleAt(m, i);
      if Th(n.c.k, n.tids[i]).alive && !Th(n.c.k, n.tids[i + 1]).alive {
        LastToGo(m, k, i, p);
        StillKnown(m.c.k, m.tids[k]);
      }
    }
    HandlesIntro(n);
  }

  lemma HandlesIntro(n: Machine)
    requires |n.tids| == |n.nodes|
    requires forall i :: 1 <= i < |n.nodes| - 1 && n.nodes[i].pc.Finished? ==> !Th(n.c.k, n.tids[i + 1]).alive
    requires forall i :: 1 <= i < |n.nodes| - 1 && Th(n.c.k, n.tids[i]).alive && !Th(n.c.k, n.tids[i + 1]).alive ==>
                           n.tids[i + 1] in n.c.k.threads
    ensures Handles(n)
  {
    hide Th;
  }

  lemma StillKnown(st: State, t: Tid)
    requires I.Inv(st) && st.status == Live && Th(st, t).alive
    ensures t in st.threads && t !in Items(st, Free)
  {
    FreeIsDeadIn(st);
    hide I.Inv;
  }

  /** If a process lives and its child does not, then the thread that leaves now is that child. */
  lemma LastToGo(m: Machine, k: nat, i: nat, p: Params)
    requires Sound(m, p) && k < |m.nodes| == |m.tids| && m.tids[k] == m.c.k.current && m.nodes[k].pc == Finished && Th(m.c.k, m.tids[k]).alive
    requires 1 <= i < |m.nodes| - 1 && Th(m.c.k, m.tids[i]).alive && m.tids[i] != m.tids[k]
    requires Th(m.c.k, m.tids[i + 1]).alive ==> m.tids[i + 1] == m.tids[k]
    ensures m.tids[i + 1] == m.tids[k]
  {
    hide *;
    ChannelsParts(m, p);
    SeatAt(m, i);
    SeatAt(m, i + 1);
    AtItsEnd(m.c, i, m.nodes[i], m.tids[i]);
    DeadIsFinished(m.c, i + 1, m.nodes[i + 1], m.tids[i + 1]);
    if !Th(m.c.k, m.tids[i + 1]).alive {
      if k <= i {
        FinishedDown(m, k, i, p);
      } else {
        FinishedDown(m, i + 1, k - 1, p);
        HandleAt(m, k - 1);
      }
      assert false;
    }
  }

  lemma DeadIsFinished(c: C.System, i: nat, nd: Node, t: Tid)
    requires Seat(c, i, nd, t)
    ensures !Th(c.k, t).alive ==> nd.pc == Finished
  {
    hide Th;
  }

  /** A finished process has only finished ones below; below the source, it may also be joining. */
  lemma FinishedDown(m: Machine, k: nat, i: nat, p: Params)
    requires Sound(m, p) && k <= i < |m.nodes| && m.nodes[k].pc == Finished && (i >= 1 || k == i)
    requires k == 0 ==> m.tids[0] == m.c.k.current
    ensures m.nodes[i].pc == Finished
  {
    hide *;
    if k >= 1 {
      FinishedChain(m, k, i, p);
    } else if i >= 1 {
      SourceEnds(m, p);
      FinishedChain(m, 1, i, p);
    }
  }

  lemma {:induction false} FinishedChain(m: Machine, k: nat, i: nat, p: Params)
    requires Sound(m, p) && 1 <= k <= i < |m.nodes| && m.nodes[k].pc == Finished
    ensures m.nodes[i].pc == Finished
  {
    hide *;
    if k < i {
      FinishedChain(m, k, i - 1, p);
      ChannelsParts(m, p);
      Place(m, i - 1, p);
    }
  }

  lemma SourceEnds(m: Machine, p: Params)
    requires Sound(m, p) && |m.nodes| >= 2 && m.nodes[0].pc == Finished && m.tids[0] == m.c.k.current
    ensures m.nodes[1].pc == Finished
  {
    hide Sound, Seated, Staffed, Seat, V.Inv, NetOf;
    ChannelsParts(m, p);
    SourceTalks(m, p);
    SeatAt(m, 1);
    StaffParts(m);
    OtherTid(m, 0, 1);
    AtItsEnd(m.c, 1, m.nodes[1], m.tids[1]);
  }

  lemma SourceTalks(m: Machine, p: Params)
    requires V.Inv(NetOf(m), p) && |m.nodes| >= 2 && m.nodes[0].pc == Finished
    ensures m.nodes[1].pc == Joining || m.nodes[1].pc == Finished
  {
    NetParts(m);
    SR.TalksAt(NetOf(m), 1, p);
    hide V.Inv, NetOf;
  }
}

/** `sieve_test` as a whole: on the kernel it never deadlocks, always ends, and its root comes back to the primes. */
module SieveTestRuns {
  import opened Basics
  import opened Sched
  import opened SchedEffects
  import opened Primes
  import opened Rendezvous
  import opened Sieve
  import opened SieveThreads
  import opened SieveCalls
  import opened SieveTalks
  import opened SieveSleep
  import opened SieveTest
  import opened SieveSpawn
  import I = SchedInv
  import Q = SchedRuns
  import C = Channel
  import CR = ChannelRuns
  import V = SieveInv
  import SS = SieveSteps
  import SR = SieveRuns

  // ---------------------------------------------------------------- there is always a next step

  lemma RunnerIsProcess(m: Machine, p: Params) returns (k: nat)
    requires Sound(m, p) && m.c.k.current != ROOT
    ensures k < |m.nodes| == |m.tids| && m.tids[k] == m.c.k.current && Seat(m.c, k, m.nodes[k], m.tids[k])
  {
    hide *;
    ChannelsParts(m, p);
    StaffParts(m);
    CurrentIsAlive(m.c.k);
    MeIs(m.c.k);
    k :| 0 <= k < |m.tids| && m.tids[k] == m.c.k.current;
    SameCount(m);
    SeatAt(m, k);
  }

  lemma SameCount(m: Machine)
    requires Seated(m)
    ensures |m.tids| == |m.nodes|
  {
    hide Seat;
  }

  /** A process that cannot go does not run alone. */
  lemma NotAlone(m: Machine, k: nat, p: Params)
    requires Sound(m, p) && k < |m.nodes| && m.tids[k] == m.c.k.current && Talking(m.nodes[k].pc)
    requires !Possible(SlotAt(m.c, Port(m.nodes[k], k)), Action(m.nodes[k]))
    ensures Items(m.c.k, Ready) != []
  {
    var pc := m.nodes[k].pc;
    assert pc != Finished;
    hide *;
    if Items(m.c.k, Ready) == [] {
      NetParts(m);
      CannotTalk(m, k);
      SomebodyIsReady(m, k, p);
      FinishedAt(m, k);
    }
  }

  lemma FinishedAt(m: Machine, k: nat)
    requires AllFinished(NetOf(m)) && NetOf(m).nodes == m.nodes && k < |m.nodes|
    ensures m.nodes[k].pc == Finished
  {
    hide NetOf;
  }

  /** Until the root is back, the running thread takes a step, and it is a sound one: no deadlock, no use of a freed
      thread, no premature return. */
  lemma SomeStep(m: Machine, p: Params)
    requires Sound(m, p) && m.c.k.current != ROOT
    ensures exists k, n :: Stepped(m, k, n, p)
  {
    hide Sound, Stepped, Possible, SlotAt, Action, C.CanMove, Call, Mid, Exit, Seat;
    var k := RunnerIsProcess(m, p);
    if m.nodes[k].pc.Joining? {
      JoinSteps(m, k, p);
    } else if m.nodes[k].pc.Finished? {
      ExitSteps(m, k, p);
    } else if !Possible(SlotAt(m.c, Port(m.nodes[k], k)), Action(m.nodes[k])) {
      NotAlone(m, k, p);
      BlockSteps(m, k, p);
    } else {
      CallIsPossible(m, k, p);
      MidIs(m, k, p);
      if m.nodes[k].pc.Sinking? && Mid(m, k, p).nodes[k].pc.Filtering? {
        SpawnSteps(m, k, p);
      } else {
        ReturnSteps(m, k, p);
      }
    }
  }

  /** The machine is deterministic: who goes, and where to. */
  lemma OneStep(m: Machine, k: nat, n: Machine, j: nat, o: Machine, p: Params)
    requires NoDup(m.tids) && Goes(m, k, n, p) && Goes(m, j, o, p)
    ensures j == k && o == n
  {
    hide NodeAfter, Call, C.CanMove, C.Next;
  }

  /** So every step from a sound state is sound. */
  lemma EveryStep(m: Machine, k: nat, n: Machine, p: Params)
    requires Sound(m, p) && Goes(m, k, n, p)
    ensures Stepped(m, k, n, p) && m.c.k.current != ROOT
  {
    hide *;
    ChannelsParts(m, p);
    StaffParts(m);
    GoesBy(m, k, n, p);
    SomeStep(m, p);
    var j, o :| Stepped(m, j, o, p);
    SteppedGoes(m, j, o, p);
    OneStep(m, k, n, j, o, p);
  }

  lemma GoesBy(m: Machine, k: nat, n: Machine, p: Params)
    requires Goes(m, k, n, p) && ROOT !in m.tids
    ensures m.c.k.current != ROOT
  {
    assert m.tids[k] in m.tids;
    hide NodeAfter, Call, C.CanMove, C.Next;
  }

  lemma SteppedGoes(m: Machine, k: nat, n: Machine, p: Params)
    requires Stepped(m, k, n, p)
    ensures Goes(m, k, n, p) && Sound(n, p)
  {
    hide Goes, Sound, NetOf;
  }

  // ---------------------------------------------------------------- the end

  /** When the root is back, everything is done. */
  lemma RootIsLast(m: Machine, p: Params)
    requires Sound(m, p) && m.c.k.current == ROOT
    ensures AllFinished(NetOf(m)) && m.actual == PrimesUpTo(p.last)
    ensures m.c.k.num == 1 && AliveSet(m.c.k) == {ROOT} && Enabled(m.c.k, ResumeOp)
    ensures forall ch :: 1 <= ch < |m.nodes| ==> SlotAt(m.c, ch) == Empty
  {
    hide *;
    ChannelsParts(m, p);
    StaffParts(m);
    MeIs(m.c.k);
    Q.JoinAllMeansAlone(m.c.k);
    NetParts(m);
    SameCount(m);
    forall k | 0 <= k < |m.nodes| ensures m.nodes[k].pc == Finished {
      SeatAt(m, k);
      AliveSetHas(m.c.k, m.tids[k]);
      assert m.tids[k] in m.tids;
      DeadIsFinished(m.c, k, m.nodes[k], m.tids[k]);
    }
    EndIntro(m);
    SR.FinishedIsRight(NetOf(m), p);
    MayResume(m.c.k);
  }

  lemma EndIntro(m: Machine)
    requires NetOf(m).nodes == m.nodes && forall k :: 0 <= k < |m.nodes| ==> m.nodes[k].pc == Finished
    ensures AllFinished(NetOf(m))
  {
    hide NetOf;
  }

  lemma MayResume(st: State)
    requires st.status == Live && Me(st).blk == OnAll
    ensures Enabled(st, ResumeOp)
  {
    hide Me;
  }

  // ---------------------------------------------------------------- whole runs

  const BOOT := [C.Init(1), C.Env(NewOp([], true)), C.Env(NewOp([], true)), C.Env(JoinAllOp)]

  /** `sieve_test` up to its `thread_join(NULL)`: one channel, and the threads of `source` and of the first sink. */
  ghost predicate Booted(m: Machine) {
    exists tr: seq<C.System> ::
      && |tr| == 5 && CR.IsRun(tr, BOOT) && tr[0] == C.START
      && m == Machine(tr[4], START.nodes, [tr[1].k.next, tr[2].k.next], START.actual)
  }

  /** A run of the test; the machine goes as the kernel's scheduler says. */
  ghost predicate IsTest(tr: seq<Machine>, ks: seq<nat>, p: Params) {
    && |tr| == |ks| + 1 && Booted(tr[0])
    && forall i :: 0 <= i < |ks| ==> Goes(tr[i], ks[i], tr[i + 1], p)
  }

  lemma RootBegins()
    ensures InCode(C.START) && C.START.chans == map[] && C.START.stage == map[] && C.START.k.current == ROOT
    ensures forall u :: Th(C.START.k, u).alive <==> u == ROOT
    ensures Items(C.START.k, Ready) == [] && Items(C.START.k, AllJoin) == [] && C.START.k.num == 1
  {
    CR.StartInv();
    hide C.SysInv;
  }

  lemma NothingUsed(c: C.System, ch: nat)
    requires c.stage == map[]
    ensures C.Unused(c, ch)
  {
  }

  /** `thread_join(NULL)` of the root: the first thread runs. */
  lemma JoinAllGoes(c: C.System)
    requires InCode(c) && Items(c.k, AllJoin) == [] && Items(c.k, Ready) != [] && c.k.num > 1
    ensures C.CanMove(c, C.Env(JoinAllOp))
    ensures var d := C.Next(c, C.Env(JoinAllOp));
            && Channels(d) && d.stage == c.stage && d.chans == c.chans && d.k.current == Items(c.k, Ready)[0]
            && (forall u :: Th(d.k, u).alive <==> Th(c.k, u).alive)
            && (forall u :: u != c.k.current ==> Th(d.k, u).blk == Th(c.k, u).blk) && Th(d.k, c.k.current).blk == OnAll
  {
    InCodeParts(c);
    JoinAllIs(c);
    hide *;
    var d := C.Next(c, C.Env(JoinAllOp));
    JoinAllShape(c.k);
    CR.MoveKeepsInv(c, C.Env(JoinAllOp));
    SameTurns(c, d);
  }

  lemma JoinAllIs(c: C.System)
    requires c.k.status == Live && C.StageOf(c, c.k.current) == C.Outside && Me(c.k).blk == Running
    requires Items(c.k, AllJoin) == [] && c.k.num > 1
    ensures C.CanMove(c, C.Env(JoinAllOp)) && C.Env(JoinAllOp) != C.GoOn
    ensures C.Next(c, C.Env(JoinAllOp)) == c.(k := Block(c.k, OnAll, AllJoin))
  {
    hide Block, C.StageOf, Me, Items;
  }

  lemma JoinAllShape(st: State)
    requires I.Inv(st) && st.status == Live && Items(st, Ready) != []
    ensures var j := Block(st, OnAll, AllJoin);
            && j.current == Items(st, Ready)[0] && j.status == Live
            && (forall u :: Th(j, u).alive <==> Th(st, u).alive)
            && (forall u :: u != st.current ==> Th(j, u).blk == Th(st, u).blk) && Th(j, st.current).blk == OnAll
  {
    I.BlockIsParked(st, OnAll, AllJoin);
    I.ParkedShape(st, OnAll, AllJoin);
    MeIs(st);
    hide I.Inv, Items, Th, Me, Block, I.Parked, Run;
    I.RunShape(I.Parked(st, OnAll, AllJoin));
  }

  /** The test starts soundly. */
  lemma Boots(p: Params) returns (m: Machine)
    requires p.n >= 1
    ensures Booted(m) && Sound(m, p)
  {
    hide InCode, C.CanMove, C.Next, Th, Items, Channels, C.StageOf, Sound, Booted, V.Inv, NetOf, C.START, CR.IsRun;
    RootBegins();
    var c0 := C.START;
    NothingUsed(c0, 1);
    InitGoes(c0, 1);
    var c1 := C.Next(c0, C.Init(1));
    SameThs(c0.k, c1.k);
    SameLists(c0, 1);
    NewGoes(c1);
    var c2, t1 := C.Next(c1, C.Env(NewOp([], true))), c1.k.next;
    NewGoes(c2);
    var c3, t2 := C.Next(c2, C.Env(NewOp([], true))), c2.k.next;
    JoinAllGoes(c3);
    var c4 := C.Next(c3, C.Env(JoinAllOp));
    m := Machine(c4, START.nodes, [t1, t2], START.actual);
    AliveIsThere(c0.k, ROOT);
    AliveIsThere(c2.k, t1);
    AliveIsThere(c2.k, ROOT);
    AliveIsThere(c1.k, ROOT);
    FirstSteps([c0, c1, c2, c3, c4], m);
    BootSound(m, p);
  }

  lemma SameLists(c: C.System, ch: nat)
    requires C.CanMove(c, C.Init(ch))
    ensures var b := C.Next(c, C.Init(ch)); b.k.num == c.k.num && forall l :: Items(b.k, l) == Items(c.k, l)
  {
    hide C.CanMove;
  }

  lemma FirstSteps(tr: seq<C.System>, m: Machine)
    requires |tr| == 5 && tr[0] == C.START
    requires C.CanMove(tr[0], C.Init(1)) && tr[1] == C.Next(tr[0], C.Init(1))
    requires C.CanMove(tr[1], C.Env(NewOp([], true))) && tr[2] == C.Next(tr[1], C.Env(NewOp([], true)))
    requires C.CanMove(tr[2], C.Env(NewOp([], true))) && tr[3] == C.Next(tr[2], C.Env(NewOp([], true)))
    requires C.CanMove(tr[3], C.Env(JoinAllOp)) && tr[4] == C.Next(tr[3], C.Env(JoinAllOp))
    requires m == Machine(tr[4], START.nodes, [tr[1].k.next, tr[2].k.next], START.actual)
    ensures Booted(m)
  {
    hide C.CanMove, C.Next, C.START;
    assert CR.IsRun(tr, BOOT);
  }

  lemma BootNet(m: Machine)
    requires m.nodes == START.nodes && m.actual == START.actual && m.c.chans == map[1 := C.Chan([], None, [], [], [])]
    ensures NetOf(m) == START && Wired(m)
  {
    FreshSlot(m.c, 1);
    NoSlot(m.c, 0);
    NetParts(m);
    hide NetOf, SlotAt;
    assert NetOf(m).slots == START.slots;
    SameNet(NetOf(m), START);
  }

  lemma BootStaff(m: Machine)
    requires m.nodes == START.nodes && m.c.stage == map[]
    requires |m.tids| == 2 && m.tids[0] != m.tids[1] && m.tids[0] != ROOT && m.tids[1] != ROOT
    requires forall u :: Th(m.c.k, u).alive <==> u == ROOT || u == m.tids[0] || u == m.tids[1]
    requires Th(m.c.k, ROOT).blk == OnAll && Th(m.c.k, m.tids[0]).blk == Running && Th(m.c.k, m.tids[1]).blk == Running
    ensures Seated(m) && Staffed(m) && Handles(m)
  {
    hide Th;
    assert forall t :: C.StageOf(m.c, t) == C.Outside;
    assert Seat(m.c, 0, m.nodes[0], m.tids[0]) && Seat(m.c, 1, m.nodes[1], m.tids[1]);
  }

  lemma BootSound(m: Machine, p: Params)
    requires p.n >= 1 && m.nodes == START.nodes && m.actual == START.actual && Channels(m.c) && m.c.stage == map[]
    requires |m.tids| == 2 && m.tids[0] != m.tids[1] && m.tids[0] != ROOT && m.tids[1] != ROOT
    requires m.c.chans == map[1 := C.Chan([], None, [], [], [])]
    requires forall u :: Th(m.c.k, u).alive <==> u == ROOT || u == m.tids[0] || u == m.tids[1]
    requires Th(m.c.k, ROOT).blk == OnAll && Th(m.c.k, m.tids[0]).blk == Running && Th(m.c.k, m.tids[1]).blk == Running
    ensures Sound(m, p)
  {
    hide *;
    SS.StartInv(p);
    BootStaff(m);
    BootNet(m);
    SoundIntro(m, p);
  }

  lemma {:induction false} OneRun(a: seq<C.System>, b: seq<C.System>, ms: seq<C.Move>, i: nat)
    requires CR.IsRun(a, ms) && CR.IsRun(b, ms) && a[0] == b[0] && i <= |ms|
    ensures a[i] == b[i]
  {
    hide C.CanMove, C.Next;
    if i > 0 {
      OneRun(a, b, ms, i - 1);
      assert a[i - 1 + 1] == C.Next(a[i - 1], ms[i - 1]) && b[i - 1 + 1] == C.Next(b[i - 1], ms[i - 1]);
    }
  }

  lemma OneBoot(m: Machine, n: Machine)
    requires Booted(m) && Booted(n)
    ensures m == n
  {
    hide CR.IsRun, C.START;
    var a: seq<C.System> :| |a| == 5 && CR.IsRun(a, BOOT) && a[0] == C.START
                            && m == Machine(a[4], START.nodes, [a[1].k.next, a[2].k.next], START.actual);
    var b: seq<C.System> :| |b| == 5 && CR.IsRun(b, BOOT) && b[0] == C.START
                            && n == Machine(b[4], START.nodes, [b[1].k.next, b[2].k.next], START.actual);
    OneRun(a, b, BOOT, 1);
    OneRun(a, b, BOOT, 2);
    OneRun(a, b, BOOT, 4);
  }

  /** In every run of the test the machine stays sound: in particular it never deadlocks, no send returns prematurely,
      and what it does is a run of the network. */
  lemma {:induction false} EveryMachineIsSound(tr: seq<Machine>, ks: seq<nat>, n: nat, p: Params)
    requires IsTest(tr, ks, p) && n < |tr| && p.n >= 1
    ensures Sound(tr[n], p) && tr[n].c.k.status == Live && !C.Premature(tr[n].c)
    ensures n < |ks| ==> Stepped(tr[n], ks[n], tr[n + 1], p)
  {
    hide Booted, Goes, Sound, Stepped, C.Premature;
    if n == 0 {
      var m := Boots(p);
      OneBoot(m, tr[0]);
    } else {
      EveryMachineIsSound(tr, ks, n - 1, p);
      SteppedGoes(tr[n - 1], ks[n - 1], tr[n], p);
    }
    NoPremature(tr[n], p);
    if n < |ks| {
      assert Goes(tr[n], ks[n], tr[n + 1], p);
      EveryStep(tr[n], ks[n], tr[n + 1], p);
    }
  }

  lemma NoPremature(m: Machine, p: Params)
    requires Sound(m, p)
    ensures m.c.k.status == Live && !C.Premature(m.c)
  {
    hide *;
    ChannelsParts(m, p);
    OneSender(m);
    CR.OneSenderIsNeverPremature(m.c);
  }

  lemma StepDrops(m: Machine, k: nat, n: Machine, p: Params)
    requires Sound(m, p) && Stepped(m, k, n, p)
    ensures Sound(n, p) && SR.Measure(NetOf(n), p) >= 0
    ensures NetOf(n) != NetOf(m) ==> SR.Measure(NetOf(n), p) < SR.Measure(NetOf(m), p)
    ensures NetOf(n) == NetOf(m) ==> n.c.k.num < m.c.k.num || (n.c.k.num == m.c.k.num && |Items(n.c.k, Ready)| < |Items(m.c.k, Ready)|)
  {
    ChannelsParts(m, p);
    hide Goes, Sound, NetOf, V.Inv, SR.Measure, CanGo, Next;
    ChannelsParts(n, p);
    MeasureIsNat(NetOf(n), p);
    if NetOf(n) != NetOf(m) {
      SR.MeasureDrops(NetOf(m), k, p);
    }
  }

  lemma MeasureIsNat(net: Net, p: Params)
    requires V.Inv(net, p)
    ensures SR.Measure(net, p) >= 0
  {
    hide V.Inv, SR.WorkUpTo;
    SR.WorkIsNat(net, p.last + 2, p);
  }

  /** From every sound machine the test runs to its end: processes advance, or threads go to sleep or leave. */
  lemma {:induction false} RunsToEnd(m: Machine, p: Params) returns (tr: seq<Machine>, ks: seq<nat>)
    requires Sound(m, p)
    ensures |tr| == |ks| + 1 && tr[0] == m && tr[|ks|].c.k.current == ROOT && Sound(tr[|ks|], p)
    ensures forall i :: 0 <= i < |ks| ==> Goes(tr[i], ks[i], tr[i + 1], p)
    decreases SR.Measure(NetOf(m), p), m.c.k.num, |Items(m.c.k, Ready)|
  {
    hide *;
    if m.c.k.current == ROOT {
      tr, ks := [m], [];
    } else {
      ChannelsParts(m, p);
      MeasureIsNat(NetOf(m), p);
      SomeStep(m, p);
      var k, n :| Stepped(m, k, n, p);
      StepDrops(m, k, n, p);
      SteppedGoes(m, k, n, p);
      var more, js := RunsToEnd(n, p);
      tr, ks := [m] + more, [k] + js;
    }
  }

  /** The test ends: there is a run at whose end `thread_join(NULL)` returns to the root, the only thread left, and
      `actual` holds exactly the primes up to `last`. */
  lemma SieveTestEnds(p: Params) returns (tr: seq<Machine>, ks: seq<nat>)
    requires p.n >= 1
    ensures IsTest(tr, ks, p) && tr[|ks|].c.k.current == ROOT && tr[|ks|].c.k.num == 1
            && Enabled(tr[|ks|].c.k, ResumeOp)
    ensures tr[|ks|].actual == PrimesUpTo(p.last)
  {
    hide *;
    var m := Boots(p);
    tr, ks := RunsToEnd(m, p);
    RootIsLast(tr[|ks|], p);
    TestIntro(tr, ks, p);
  }

  lemma TestIntro(tr: seq<Machine>, ks: seq<nat>, p: Params)
    requires |tr| == |ks| + 1 && Booted(tr[0]) && forall i :: 0 <= i < |ks| ==> Goes(tr[i], ks[i], tr[i + 1], p)
    ensures IsTest(tr, ks, p)
  {
    hide Booted, Goes;
  }

  lemma SomebodyGoes(m: Machine, p: Params)
    requires Sound(m, p) && m.c.k.current != ROOT
    ensures exists k, n :: Goes(m, k, n, p)
  {
    hide *;
    SomeStep(m, p);
    var k, n :| Stepped(m, k, n, p);
    SteppedGoes(m, k, n, p);
  }

  /** And every run ends there: a run that cannot be continued has the root back, all channels empty, and the primes. */
  lemma SieveTestIsCorrect(tr: seq<Machine>, ks: seq<nat>, p: Params)
    requires IsTest(tr, ks, p) && p.n >= 1 && forall k, n :: !Goes(tr[|ks|], k, n, p)
    ensures tr[|ks|].c.k.current == ROOT && AliveSet(tr[|ks|].c.k) == {ROOT} && Enabled(tr[|ks|].c.k, ResumeOp)
    ensures tr[|ks|].actual == PrimesUpTo(p.last)
    ensures forall ch :: 1 <= ch < |tr[|ks|].nodes| ==> SlotAt(tr[|ks|].c, ch) == Empty
  {
    var m := tr[|ks|];
    EveryMachineIsSound(tr, ks, |ks|, p);
    hide *;
    if m.c.k.current != ROOT {
      SomebodyGoes(m, p);
      assert false;
    }
    RootIsLast(m, p);
  }

  lemma {:induction false} OneTest(tr: seq<Machine>, ks: seq<nat>, ts: seq<Machine>, js: seq<nat>, i: nat, p: Params)
    requires IsTest(tr, ks, p) && IsTest(ts, js, p) && i <= |ks| && i <= |js| && p.n >= 1
    ensures tr[i] == ts[i]
  {
    hide Booted, Goes, Sound, Stepped, NoDup;
    if i == 0 {
      OneBoot(tr[0], ts[0]);
    } else {
      OneTest(tr, ks, ts, js, i - 1, p);
      EveryMachineIsSound(tr, ks, i - 1, p);
      ChannelsParts(tr[i - 1], p);
      StaffParts(tr[i - 1]);
      assert Goes(tr[i - 1], ks[i - 1], tr[i - 1 + 1], p) && Goes(ts[i - 1], js[i - 1], ts[i - 1 + 1], p);
      OneStep(tr[i - 1], ks[i - 1], tr[i], js[i - 1], ts[i], p);
    }
  }

  /** No run of the test goes on forever. */
  lemma EveryTestEnds(p: Params) returns (bound: nat)
    requires p.n >= 1
    ensures forall tr, ks :: IsTest(tr, ks, p) ==> |ks| <= bound
  {
    hide *;
    var ts, js := SieveTestEnds(p);
    bound := |js|;
    forall tr, ks | IsTest(tr, ks, p) ensures |ks| <= bound {
      NotLonger(tr, ks, ts, js, p);
    }
  }

  lemma NotLonger(tr: seq<Machine>, ks: seq<nat>, ts: seq<Machine>, js: seq<nat>, p: Params)
    requires p.n >= 1 && IsTest(tr, ks, p) && IsTest(ts, js, p) && ts[|js|].c.k.current == ROOT
    ensures |ks| <= |js|
  {
    hide Booted, Goes, Sound, Stepped;
    if |ks| > |js| {
      OneTest(tr, ks, ts, js, |js|, p);
      EveryMachineIsSound(tr, ks, |js|, p);
      assert Goes(tr[|js|], ks[|js|], tr[|js| + 1], p);
      EveryStep(tr[|js|], ks[|js|], tr[|js| + 1], p);
      assert false;
    }
  }
}

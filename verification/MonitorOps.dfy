/** What each call on a lock or a condition does, said of holders, queues and threads. */
module MonitorOps {
  import opened Basics
  import opened Sched
  import opened SchedInv
  import opened SchedEffects
  import opened SchedOps
  import opened Monitor
  import opened MonitorInv
  import opened MonitorRuns

  /** Nothing but the kernel, the stage of the running thread and lock `l` differs. */
  ghost predicate OnlyLock(m: Monitors, n: Monitors, l: nat) {
    && n.waiters == m.waiters
    && (forall t :: t != m.k.current ==> StageOf(n, t) == StageOf(m, t))
    && (forall x :: x != l ==> Holder(n, x) == Holder(m, x) && Inside(n, x) == Inside(m, x))
  }

  lemma InitMakesAFreeLock(m: Monitors, l: nat)
    requires MonInv(m) && CanMove(m, NewLock(l))
    ensures var n := Next(m, NewLock(l));
            && l in n.holder && n.holder[l] == None && Inside(n, l) == {} && n.stage == m.stage && OnlyLock(m, n, l)
            && OnlySem(m.k, n.k, LockSem(l), 1)
  {
    hide Inv, NobodyAt;
  }

  lemma InitMakesACondition(m: Monitors, c: nat)
    requires MonInv(m) && CanMove(m, NewCond(c))
    ensures var n := Next(m, NewCond(c));
            && c in n.waiters && Queue(n, c) == [] && n == m.(waiters := n.waiters)
            && forall x :: x != c ==> Queue(n, x) == Queue(m, x)
  {
    hide Inv;
  }

  /** A free lock becomes the caller's; for a lock that somebody holds the caller waits, in stage `wait`. */
  ghost predicate OwnsOrWaits(m: Monitors, n: Monitors, l: nat, wait: Stage) {
    && OnlyLock(m, n, l)
    && if Holder(m, l) == None then
         && Holder(n, l) == Some(m.k.current) && Inside(n, l) == {m.k.current} && StageOf(n, m.k.current) == Outside
         && Takes(m.k, n.k, LockSem(l))
       else
         && Holder(n, l) == Holder(m, l) && Inside(n, l) == Inside(m, l) && StageOf(n, m.k.current) == wait
         && GivesWay(m.k, n.k, OnSem(LockSem(l)), WaitersOf(LockSem(l)))
  }

  lemma FreeIff(m: Monitors, l: nat)
    requires LockOk(m, l)
    ensures LockSem(l) in m.k.sems && (Holder(m, l) == None <==> m.k.sems[LockSem(l)] > 0)
    ensures Holder(m, l) == None ==> Inside(m, l) == {}
  {
  }

  lemma TestOwnsOrWaits(m: Monitors, l: nat, wait: Stage)
    requires MayTest(m, l)
    ensures LockSem(l) in m.k.sems && OwnsOrWaits(m, TryLock(m, l, wait), l, wait)
  {
    TestNeeds(m, l);
    FreeIff(m, l);
    DownTakesOrWaits(m.k, LockSem(l));
    hide *;
    DownIs(m.k, LockSem(l));
    TestShape(m, l, wait);
  }

  lemma TestShape(m: Monitors, l: nat, wait: Stage)
    requires LockSem(l) in m.k.sems && (Holder(m, l) == None <==> m.k.sems[LockSem(l)] > 0)
    requires Holder(m, l) == None ==> Inside(m, l) == {}
    requires var d := Down(m.k, LockSem(l));
             if m.k.sems[LockSem(l)] == 0 then GivesWay(m.k, d, OnSem(LockSem(l)), WaitersOf(LockSem(l)))
             else Takes(m.k, d, LockSem(l))
    ensures OwnsOrWaits(m, TryLock(m, l, wait), l, wait)
  {
    hide Down, GivesWay, Takes;
  }

  /** `lock_acquire`. */
  lemma AcquireOwnsOrWaits(m: Monitors, l: nat)
    requires MonInv(m) && CanMove(m, Acquire(l))
    ensures OwnsOrWaits(m, Next(m, Acquire(l)), l, Acquiring(l))
  {
    AcquireMayTest(m, l);
    TestOwnsOrWaits(m, l, Acquiring(l));
    hide MonInv, TryLock, OwnsOrWaits, MayTest;
  }

  /** A thread that is switched back in tests the lock again, or goes from its wait on to the lock. */
  lemma GoOnTestsAgain(m: Monitors)
    requires MonInv(m) && CanMove(m, GoOn)
    ensures var n, me := Next(m, GoOn), m.k.current;
            match StageOf(m, me)
            case Acquiring(l) => OwnsOrWaits(m, n, l, Acquiring(l))
            case Reacquiring(l, c) => OwnsOrWaits(m, n, l, Reacquiring(l, c))
            case Sleeping(l, c) =>
              && StageOf(n, me) == Reacquiring(l, c) && OnlyLock(m, n, l) && n.holder == m.holder && n.inside == m.inside
              && Takes(m.k, n.k, WaiterSem(me))
            case Outside => false
  {
    GoOnIsLive(m);
    CallsCanGoOn(m);
    hide MonInv, TryLock, OwnsOrWaits, MayTest, WakeUp, OnlyLock, Takes;
    match StageOf(m, m.k.current)
    case Acquiring(l) => TestOwnsOrWaits(m, l, Acquiring(l));
    case Reacquiring(l, c) => TestOwnsOrWaits(m, l, Reacquiring(l, c));
    case Sleeping(l, c) => WokenGoesOn(m, c, l);
  }

  /** Who runs in `cond_wait` has been signalled. */
  lemma WokenGoesOn(m: Monitors, c: nat, l: nat)
    requires MonInv(m) && m.k.status == Live && StageOf(m, m.k.current) == Sleeping(l, c)
    ensures WaiterSem(m.k.current) in m.k.sems
    ensures var n, me := WakeUp(m, c, l), m.k.current;
            && StageOf(n, me) == Reacquiring(l, c) && OnlyLock(m, n, l) && n.holder == m.holder && n.inside == m.inside
            && Takes(m.k, n.k, WaiterSem(me))
  {
    hide *;
    var me := m.k.current;
    SignalledHasToken(m, c, l);
    DownTakesOne(m.k, WaiterSem(me));
    WokenFields(m, c, l);
  }

  /** `lock_try_acquire` never waits. */
  lemma TryAcquireOwnsOrNot(m: Monitors, l: nat)
    requires MonInv(m) && CanMove(m, TryIt(l))
    ensures var n := Next(m, TryIt(l));
            if Holder(m, l) == None then
              && Holder(n, l) == Some(m.k.current) && Inside(n, l) == {m.k.current} && OnlyLock(m, n, l)
              && StageOf(n, m.k.current) == Outside && OnlySem(m.k, n.k, LockSem(l), 0)
            else n == m
  {
    hide *;
    TryItIs(m, l);
    FreeIff(m, l);
    TryDownNeverWaits(m.k, LockSem(l));
    TryShape(m, l);
  }

  /** `lock_release` frees the lock and readies the thread that waited longest for it. */
  lemma ReleaseFrees(m: Monitors, l: nat)
    requires MonInv(m) && CanMove(m, LetGo(l))
    ensures var n := Next(m, LetGo(l));
            && Holder(n, l) == None && Inside(n, l) == {} && OnlyLock(m, n, l) && n.stage == m.stage
            && Readies(m.k, n.k, LockSem(l)) && n.k.sems[LockSem(l)] == 1
  {
    hide *;
    LetGoIs(m, l);
    HeldLock(m, l);
    UpReadies(m.k, LockSem(l));
    ReleaseFields(m, l);
    OneToken(m.k, ReleaseLock(m, l).k, LockSem(l));
  }

  /** `cond_wait` queues the caller, frees the lock, and gives way to the first ready thread, the one that waited
      longest for the lock being the last of those. */
  lemma WaitGivesUpTheLock(m: Monitors, c: nat, l: nat)
    requires MonInv(m) && CanMove(m, WaitOn(c, l))
    ensures var n, me, heirs := Next(m, WaitOn(c, l)), m.k.current, Items(m.k, WaitersOf(LockSem(l)));
            && Holder(n, l) == None && Inside(n, l) == {} && StageOf(n, me) == Sleeping(l, c)
            && (forall x :: Queue(n, x) == Queue(m, x) + if x == c then [me] else [])
            && LockSem(l) in m.k.sems && n.k.sems == m.k.sems[WaiterSem(me) := 0][LockSem(l) := 1]
            && Items(n.k, WaitersOf(WaiterSem(me))) == [me] && Th(n.k, me).blk == OnSem(WaiterSem(me))
            && var ready := Items(m.k, Ready) + (if heirs == [] then [] else [heirs[0]]);
               if ready == [] then n.k.status == Deadlocked else n.k.current == ready[0] && Items(n.k, Ready) == ready[1..]
  {
    hide *;
    WaitNeeds(m, c, l);
    WaitKernel(m, c, l);
    WaitShape(m, c, l);
    LockTaken(m, c, l);
    WaitGivesWay(m.k, WaiterSem(m.k.current), LockSem(l));
    WaitedFields(m, Wait(m, c, l), c, l);
  }

  lemma HeldLock(m: Monitors, l: nat)
    requires MonInv(m) && m.k.status == Live && Held(m, l)
    ensures LockSem(l) in m.k.sems && m.k.sems[LockSem(l)] == 0 && Inside(m, l) == {m.k.current}
  {
    At(m, l, m.k.current, 0);
    hide Inv, MonInv;
  }

  lemma WaitOnIs(m: Monitors, c: nat, l: nat)
    requires CanMove(m, WaitOn(c, l))
    ensures Held(m, l) && m.k.status == Live && LockSem(l) != WaiterSem(m.k.current)
    ensures Next(m, WaitOn(c, l)) == Wait(m, c, l)
  {
    hide Wait;
  }

  lemma LetGoIs(m: Monitors, l: nat)
    requires CanMove(m, LetGo(l))
    ensures Held(m, l) && m.k.status == Live && LockSem(l) in m.k.sems && Next(m, LetGo(l)) == ReleaseLock(m, l)
  {
    hide ReleaseLock;
  }

  lemma ReleaseFields(m: Monitors, l: nat)
    requires LockSem(l) in m.k.sems && Inside(m, l) == {m.k.current}
    ensures var n := ReleaseLock(m, l);
            && n.k == UpSem(m.k, LockSem(l)) && n.stage == m.stage && OnlyLock(m, n, l)
            && Holder(n, l) == None && Inside(n, l) == {}
  {
    hide UpSem;
  }

  lemma OneToken(st: State, r: State, s: SemId)
    requires Readies(st, r, s) && st.sems[s] == 0
    ensures s in r.sems && r.sems[s] == 1
  {
  }

  lemma TryItIs(m: Monitors, l: nat)
    requires MonInv(m) && CanMove(m, TryIt(l))
    ensures LockOk(m, l) && LockSem(l) in m.k.sems && m.k.sems[LockSem(l)] <= 1
    ensures Inv(m.k) && StageOf(m, m.k.current) == Outside
    ensures Enabled(m.k, TryDownOp(LockSem(l))) && Step(m.k, TryDownOp(LockSem(l))) == TryDown(m.k, LockSem(l))
    ensures Next(m, TryIt(l)) == TryAcquire(m, l)
  {
    At(m, l, m.k.current, 0);
    hide Inv, MonInv, TryDown, TryAcquire;
  }

  lemma TryShape(m: Monitors, l: nat)
    requires LockSem(l) in m.k.sems && m.k.sems[LockSem(l)] <= 1 && (Holder(m, l) == None <==> m.k.sems[LockSem(l)] > 0)
    requires Holder(m, l) == None ==> Inside(m, l) == {}
    requires var r := TryDown(m.k, LockSem(l));
             if m.k.sems[LockSem(l)] == 0 then r == m.k else OnlySem(m.k, r, LockSem(l), m.k.sems[LockSem(l)] - 1)
    ensures var n := TryAcquire(m, l);
            if Holder(m, l) == None then
              && Holder(n, l) == Some(m.k.current) && Inside(n, l) == {m.k.current} && OnlyLock(m, n, l)
              && StageOf(n, m.k.current) == Outside && OnlySem(m.k, n.k, LockSem(l), 0)
            else n == m
  {
    hide TryDown, OnlySem;
  }

  lemma SignalledHasToken(m: Monitors, c: nat, l: nat)
    requires MonInv(m) && m.k.status == Live && StageOf(m, m.k.current) == Sleeping(l, c)
    ensures WaiterSem(m.k.current) in m.k.sems && m.k.sems[WaiterSem(m.k.current)] == 1 && m.k.current in m.k.threads
  {
    At(m, l, m.k.current, c);
    CurrentIsNowhere(m);
    hide MonInv, LockOk, CondOk;
    CurrentIsAlive(m.k);
    hide Inv;
  }

  lemma WokenFields(m: Monitors, c: nat, l: nat)
    requires WaiterSem(m.k.current) in m.k.sems && m.k.sems[WaiterSem(m.k.current)] > 0
    ensures var n, me := WakeUp(m, c, l), m.k.current;
            && n.k == Down(m.k, WaiterSem(me)) && StageOf(n, me) == Reacquiring(l, c) && OnlyLock(m, n, l)
            && n.holder == m.holder && n.inside == m.inside
  {
    hide Down;
  }

  lemma LockTaken(m: Monitors, c: nat, l: nat)
    requires MonInv(m) && CanMove(m, WaitOn(c, l))
    ensures LockSem(l) in m.k.sems && m.k.sems[LockSem(l)] == 0 && Inside(m, l) == {m.k.current}
    ensures LockSem(l) != WaiterSem(m.k.current)
    ensures Next(m, WaitOn(c, l)) == Wait(m, c, l)
  {
    hide *;
    WaitOnIs(m, c, l);
    HeldLock(m, l);
  }

  lemma WaitedFields(m: Monitors, n: Monitors, c: nat, l: nat)
    requires WaitedShape(m, n, c, l) && Inside(m, l) == {m.k.current}
    ensures Holder(n, l) == None && Inside(n, l) == {} && StageOf(n, m.k.current) == Sleeping(l, c)
    ensures forall x :: Queue(n, x) == Queue(m, x) + if x == c then [m.k.current] else []
  {
  }

  /** The three semaphore operations of `cond_wait`. */
  lemma WaitGivesWay(st: State, s: SemId, lock: SemId)
    requires Inv(st) && Enabled(st, InitOp(s, 0)) && lock in st.sems && lock != s
    ensures var k, heirs := Down(UpSem(InitSem(st, s, 0), lock), s), Items(st, WaitersOf(lock));
            && k.sems == st.sems[s := 0][lock := st.sems[lock] + 1]
            && Items(k, WaitersOf(s)) == [st.current] && Th(k, st.current).blk == OnSem(s)
            && var ready := Items(st, Ready) + (if heirs == [] then [] else [heirs[0]]);
               if ready == [] then k.status == Deadlocked else k.current == ready[0] && Items(k, Ready) == ready[1..]
  {
    hide *;
    var a := InitSem(st, s, 0);
    InitItems(st, s, lock);
    var b := UpSem(a, lock);
    WaitReleases(st, s, lock);
    UpReadies(a, lock);
    NobodyWaits(st, s);
    DownIs(b, s);
    DownTakesOrWaits(b, s);
    Chain(st, a, b, Down(b, s), s, lock);
  }

  lemma InitItems(st: State, s: SemId, lock: SemId)
    requires lock in st.sems
    ensures lock in InitSem(st, s, 0).sems && InitSem(st, s, 0).current == st.current
    ensures forall m :: Items(InitSem(st, s, 0), m) == Items(st, m)
  {
  }

  lemma Chain(st: State, a: State, b: State, k: State, s: SemId, lock: SemId)
    requires a.current == st.current && (forall m :: Items(a, m) == Items(st, m)) && Readies(a, b, lock) && lock != s
    requires Items(st, WaitersOf(s)) == [] && GivesWay(b, k, OnSem(s), WaitersOf(s))
    ensures var heirs := Items(st, WaitersOf(lock));
            && k.sems == b.sems && Items(k, WaitersOf(s)) == [st.current] && Th(k, st.current).blk == OnSem(s)
            && var ready := Items(st, Ready) + (if heirs == [] then [] else [heirs[0]]);
               if ready == [] then k.status == Deadlocked else k.current == ready[0] && Items(k, Ready) == ready[1..]
  {
    hide Items, Th;
    assert WaitersOf(s) != Ready && WaitersOf(lock) != WaitersOf(s);
  }

  lemma NobodyWaits(st: State, s: SemId)
    requires Inv(st) && Enabled(st, InitOp(s, 0))
    ensures Items(st, WaitersOf(s)) == []
  {
    PlacesOf(st);
    if Items(st, WaitersOf(s)) != [] {
      WaitersAreNotIdle(st, s);
    }
  }
}

/** Every move keeps the lock and condition-variable invariant. */
module MonitorInv {
  import opened Basics
  import opened Sched
  import opened SchedInv
  import opened SchedEffects
  import opened Monitor

  // ---------------------------------------------------------------- the invariant

  /** A lock's semaphore is 1 exactly when nobody holds it, and 0 else; the holder is the only thread between acquire
      and release. */
  ghost predicate LockOk(m: Monitors, l: nat) {
    && l in m.holder && LockSem(l) in m.k.sems
    && match m.holder[l]
       case None => m.k.sems[LockSem(l)] == 1 && Inside(m, l) == {}
       case Some(t) => m.k.sems[LockSem(l)] == 0 && Inside(m, l) == {t}
  }

  /** A waiter is asleep on its private semaphore, which is 0 until it is signalled and 1 from then on. */
  ghost predicate SleeperOk(m: Monitors, t: Tid, c: nat) {
    && WaiterSem(t) in m.k.sems && Th(m.k, t).blk == OnSem(WaiterSem(t))
    && if t in Queue(m, c) then m.k.sems[WaiterSem(t)] == 0 && Th(m.k, t).inList == Some(WaitersOf(WaiterSem(t)))
       else m.k.sems[WaiterSem(t)] == 1
  }

  ghost predicate ThreadOk(m: Monitors, t: Tid) {
    match StageOf(m, t)
    case Outside => Th(m.k, t).blk.OnSem? ==> !IsMonitorSem(Th(m.k, t).blk.s)
    case Acquiring(l) => l in m.holder && m.holder[l] != Some(t) && Th(m.k, t).alive && Th(m.k, t).blk == OnSem(LockSem(l))
    case Sleeping(l, c) => l in m.holder && m.holder[l] != Some(t) && Th(m.k, t).alive && SleeperOk(m, t, c)
    case Reacquiring(l, c) =>
      && l in m.holder && m.holder[l] != Some(t) && Th(m.k, t).alive
      && (Th(m.k, t).blk == OnSem(LockSem(l)) || (Th(m.k, t).blk == Running && t == m.k.current))
  }

  /** Every element of a condition's list belongs to a thread inside `cond_wait` on that condition. */
  ghost predicate CondOk(m: Monitors, c: nat) {
    && NoDup(Queue(m, c))
    && forall t :: t in Queue(m, c) ==> StageOf(m, t).Sleeping? && StageOf(m, t).cond == c
  }

  ghost predicate MonInv(m: Monitors) {
    && Inv(m.k)
    && (m.k.status == Live ==>
          && (forall l :: l in m.holder ==> LockOk(m, l))
          && (forall t :: ThreadOk(m, t))
          && (forall c :: CondOk(m, c)))
  }

  lemma At(m: Monitors, l: nat, t: Tid, c: nat)
    requires MonInv(m) && m.k.status == Live
    ensures Inv(m.k) && (l in m.holder ==> LockOk(m, l)) && ThreadOk(m, t) && CondOk(m, c)
  {
  }

  // ---------------------------------------------------------------- frame rules

  lemma LockFrame(m: Monitors, n: Monitors, l: nat)
    requires LockOk(m, l) && l in n.holder && n.holder[l] == m.holder[l] && Inside(n, l) == Inside(m, l)
    requires LockSem(l) in n.k.sems && n.k.sems[LockSem(l)] == m.k.sems[LockSem(l)]
    ensures LockOk(n, l)
  {
    hide Inside;
  }

  /** Nothing about thread `t` changed as far as monitors go. */
  ghost predicate Untouched(m: Monitors, n: Monitors, t: Tid) {
    && StageOf(n, t) == StageOf(m, t) && Th(n.k, t).alive == Th(m.k, t).alive && Th(n.k, t).blk == Th(m.k, t).blk
    && (WaiterSem(t) in m.k.sems ==> WaiterSem(t) in n.k.sems && n.k.sems[WaiterSem(t)] == m.k.sems[WaiterSem(t)])
    && (Th(m.k, t).inList == Some(WaitersOf(WaiterSem(t))) ==> Th(n.k, t).inList == Some(WaitersOf(WaiterSem(t))))
    && (forall c :: t in Queue(n, c) <==> t in Queue(m, c))
    && (forall l :: l in m.holder && m.holder[l] != Some(t) ==> l in n.holder && n.holder[l] != Some(t))
  }

  lemma ThreadFrame(m: Monitors, n: Monitors, t: Tid)
    requires ThreadOk(m, t) && Untouched(m, n, t) && t != m.k.current
    ensures ThreadOk(n, t)
  {
    hide Queue;
  }

  lemma CondFrame(m: Monitors, n: Monitors, c: nat)
    requires CondOk(m, c) && Queue(n, c) == Queue(m, c)
    requires forall t :: t in Queue(m, c) ==> StageOf(n, t) == StageOf(m, t)
    ensures CondOk(n, c)
  {
  }

  lemma CurrentIsNowhere(m: Monitors)
    requires MonInv(m) && m.k.status == Live
    ensures forall c :: m.k.current !in Queue(m, c)
  {
    forall c ensures m.k.current !in Queue(m, c) {
      At(m, 0, m.k.current, c);
      CurrentIsUnlisted(m.k);
    }
  }

  // ---------------------------------------------------------------- the environment

  lemma EnvKeeps(m: Monitors, op: Op)
    requires MonInv(m) && CanMove(m, Env(op))
    ensures MonInv(Next(m, Env(op)))
  {
    var n := Next(m, Env(op));
    StepKeepsInv(m.k, op);
    hide Inv, Step, Enabled, LockOk, ThreadOk, CondOk;
    forall l | l in n.holder ensures LockOk(n, l) {
      At(m, l, 0, 0);
      EnvLock(m, op, l);
    }
    forall t ensures ThreadOk(n, t) {
      At(m, 0, t, 0);
      EnvThread(m, op, t);
    }
    forall c ensures CondOk(n, c) {
      At(m, 0, 0, c);
      CondFrame(m, n, c);
    }
  }

  lemma EnvLock(m: Monitors, op: Op, l: nat)
    requires Inv(m.k) && CanMove(m, Env(op)) && LockOk(m, l)
    ensures LockOk(Next(m, Env(op)), l)
  {
    StepEffect(m.k, op);
    hide Inv, Step, Enabled, Inside;
    LockFrame(m, Next(m, Env(op)), l);
  }

  lemma EnvRunner(m: Monitors, op: Op, t: Tid)
    requires CanMove(m, Env(op)) && (t == m.k.current || StageOf(m, t) == Outside)
    ensures StageOf(m, t) == Outside
  {
    hide Enabled;
  }

  lemma EnvSpares(m: Monitors, op: Op, t: Tid)
    requires CanMove(m, Env(op))
    ensures Enabled(m.k, op) && !Mentions(op, WaiterSem(t)) && SemOf(op) != Some(WaiterSem(t))
  {
    hide Enabled;
  }

  lemma EnvFrame(m: Monitors, op: Op)
    requires CanMove(m, Env(op))
    ensures var n := Next(m, Env(op)); n == m.(k := Step(m.k, op))
  {
    hide Step, Enabled;
  }

  lemma UntouchedIntro(m: Monitors, op: Op, t: Tid)
    requires CanMove(m, Env(op)) && Next(m, Env(op)).k == Step(m.k, op)
             && Next(m, Env(op)) == m.(k := Next(m, Env(op)).k)
    requires Th(m.k, t).alive && t != m.k.current && !Mentions(op, WaiterSem(t)) && SemOf(op) != Some(WaiterSem(t))
    requires var r := Step(m.k, op);
             && (forall u :: u != m.k.current && Th(m.k, u).alive ==> Th(r, u).alive && Th(r, u).blk == Th(m.k, u).blk)
             && (forall s :: s in m.k.sems && !Mentions(op, s) ==> s in r.sems && r.sems[s] == m.k.sems[s])
             && SleepersStay(m.k, r, SemOf(op))
    ensures Untouched(m, Next(m, Env(op)), t)
  {
    hide CanMove, Next, Step, Mentions, SemOf, Th;
  }

  lemma EnvUntouched(m: Monitors, op: Op, t: Tid)
    requires Inv(m.k) && CanMove(m, Env(op)) && ThreadOk(m, t) && t != m.k.current && StageOf(m, t) != Outside
    ensures Untouched(m, Next(m, Env(op)), t)
  {
    hide *;
    EnvSpares(m, op, t);
    InsideIsAlive(m, t);
    EnvFrame(m, op);
    StepEffect(m.k, op);
    StepLeavesSleepers(m.k, op);
    UntouchedIntro(m, op, t);
  }

  lemma InsideIsAlive(m: Monitors, t: Tid)
    requires ThreadOk(m, t) && StageOf(m, t) != Outside
    ensures Th(m.k, t).alive
  {
    hide SleeperOk;
  }

  lemma EnvInside(m: Monitors, op: Op, t: Tid)
    requires Inv(m.k) && CanMove(m, Env(op)) && ThreadOk(m, t) && t != m.k.current && StageOf(m, t) != Outside
    ensures ThreadOk(Next(m, Env(op)), t)
  {
    EnvUntouched(m, op, t);
    hide *;
    ThreadFrame(m, Next(m, Env(op)), t);
  }

  lemma EnvThread(m: Monitors, op: Op, t: Tid)
    requires Inv(m.k) && CanMove(m, Env(op)) && ThreadOk(m, t)
    ensures ThreadOk(Next(m, Env(op)), t)
  {
    hide *;
    if t == m.k.current || StageOf(m, t) == Outside {
      EnvRunner(m, op, t);
      EnvOutside(m, op, t);
    } else {
      EnvInside(m, op, t);
    }
  }

  lemma EnvOutside(m: Monitors, op: Op, t: Tid)
    requires Inv(m.k) && CanMove(m, Env(op)) && ThreadOk(m, t) && StageOf(m, t) == Outside
    ensures ThreadOk(Next(m, Env(op)), t)
  {
    StepEffect(m.k, op);
    hide Inv, Step, Enabled, Queue;
  }

  // ---------------------------------------------------------------- moves of monitor calls

  /** Besides the running thread and lock `l0`, nothing was touched. */
  ghost predicate OnlyMine(m: Monitors, n: Monitors, l0: nat) {
    && n.holder.Keys == m.holder.Keys + {l0}
    && (forall l :: l in m.holder && l != l0 ==> n.holder[l] == m.holder[l] && Inside(n, l) == Inside(m, l))
    && (forall l :: LockSem(l) in m.k.sems && l != l0 ==> LockSem(l) in n.k.sems && n.k.sems[LockSem(l)] == m.k.sems[LockSem(l)])
    && (forall t :: t != m.k.current ==> Untouched(m, n, t))
  }

  /** The conditions of the running thread alone, and of lock `l0`, remain to be shown. */
  lemma Intro(m: Monitors, n: Monitors, l0: nat)
    requires MonInv(m) && m.k.status == Live && Inv(n.k) && OnlyMine(m, n, l0)
    requires l0 in n.holder ==> LockOk(n, l0)
    requires ThreadOk(n, m.k.current)
    requires forall c :: CondOk(n, c)
    ensures MonInv(n)
  {
    hide Inv, LockOk, ThreadOk, CondOk, Untouched, Inside;
    forall l | l in n.holder && l != l0 ensures LockOk(n, l) {
      At(m, l, 0, 0);
      LockHasSem(m, l);
      LockFrame(m, n, l);
    }
    forall t | t != m.k.current ensures ThreadOk(n, t) {
      At(m, 0, t, 0);
      ThreadFrame(m, n, t);
    }
  }

  lemma LockHasSem(m: Monitors, l: nat)
    requires LockOk(m, l)
    ensures LockSem(l) in m.k.sems
  {
  }

  lemma SameConds(m: Monitors, n: Monitors)
    requires MonInv(m) && m.k.status == Live && n.waiters == m.waiters
    requires forall t :: t != m.k.current ==> StageOf(n, t) == StageOf(m, t)
    ensures forall c :: CondOk(n, c)
  {
    CurrentIsNowhere(m);
    hide Inv, LockOk, ThreadOk, CondOk, StageOf;
    forall c ensures CondOk(n, c) {
      At(m, 0, 0, c);
      assert Queue(n, c) == Queue(m, c);
      CondFrame(m, n, c);
    }
  }

  /** Others are untouched when only the running thread's stage and a lock semaphore changed. */
  lemma OthersUntouched(m: Monitors, n: Monitors, s: SemId)
    requires ListsOk(m.k) && OthersKept(m.k, n.k) && SleepersStay(m.k, n.k, Some(s)) && !s.WaiterSem?
    requires forall x :: x in m.k.sems && x != s ==> x in n.k.sems && n.k.sems[x] == m.k.sems[x]
    requires n.waiters == m.waiters
    requires forall t :: t != m.k.current ==> StageOf(n, t) == StageOf(m, t)
    requires forall l, t :: l in m.holder && m.holder[l] != Some(t) && t != m.k.current ==> l in n.holder && n.holder[l] != Some(t)
    ensures forall t :: t != m.k.current ==> Untouched(m, n, t)
  {
    hide ListsOk, Th, StageOf;
  }

  // ---------------------------------------------------------------- lock_init, cond_init

  lemma LockIsIdle(m: Monitors, l: nat)
    requires MonInv(m) && m.k.status == Live && NobodyAt(m, l)
    ensures Idle(m.k, LockSem(l))
  {
    hide Inv, LockOk, CondOk;
    forall t ensures Th(m.k, t).blk != OnSem(LockSem(l)) {
      At(m, 0, t, 0);
    }
  }

  lemma NewLockKeeps(m: Monitors, l: nat)
    requires MonInv(m) && CanMove(m, NewLock(l))
    ensures MonInv(InitLock(m, l))
  {
    var n := InitLock(m, l);
    LockIsIdle(m, l);
    InitEffect(m.k, LockSem(l), 1);
    SameConds(m, n);
    At(m, l, m.k.current, 0);
    NewLockIsOk(m, l);
    hide Inv, InitSem, MonInv;
    NewLockOnlyMine(m, n, l);
    Intro(m, n, l);
  }

  lemma NewLockOnlyMine(m: Monitors, n: Monitors, l: nat)
    requires n == m.(k := n.k, holder := m.holder[l := None], inside := m.inside[l := {}])
    requires n.k.threads == m.k.threads && n.k.sems == m.k.sems[LockSem(l) := 1]
    ensures OnlyMine(m, n, l)
  {
  }

  lemma NewLockIsOk(m: Monitors, l: nat)
    requires InitLock(m, l).k.sems == m.k.sems[LockSem(l) := 1] && InitLock(m, l).k.threads == m.k.threads
    requires ThreadOk(m, m.k.current) && StageOf(m, m.k.current) == Outside
    ensures LockOk(InitLock(m, l), l) && ThreadOk(InitLock(m, l), m.k.current)
  {
    hide InitSem;
  }

  lemma NewCondKeeps(m: Monitors, c: nat)
    requires MonInv(m) && CanMove(m, NewCond(c))
    ensures MonInv(InitCond(m, c))
  {
    var n := InitCond(m, c);
    hide Inv, CondOk, LockOk;
    assert forall x :: Queue(n, x) == Queue(m, x);
    forall t ensures ThreadOk(n, t) {
      At(m, 0, t, 0);
    }
    forall l | l in n.holder ensures LockOk(n, l) {
      At(m, l, 0, 0);
      LockFrame(m, n, l);
    }
    forall x ensures CondOk(n, x) {
      At(m, 0, 0, x);
      CondFrame(m, n, x);
    }
  }

  // ---------------------------------------------------------------- acquiring

  /** The running thread may test the lock's semaphore. */
  ghost predicate MayTest(m: Monitors, l: nat) {
    && MonInv(m) && m.k.status == Live && l in m.holder && m.holder[l] != Some(m.k.current) && LockSem(l) in m.k.sems
    && Enabled(m.k, DownOp(LockSem(l))) && !StageOf(m, m.k.current).Sleeping?
  }

  lemma TestNeeds(m: Monitors, l: nat)
    requires MayTest(m, l)
    ensures MonInv(m) && m.k.status == Live && l in m.holder && m.holder[l] != Some(m.k.current)
            && LockSem(l) in m.k.sems
    ensures LockOk(m, l) && Inv(m.k) && ListsOk(m.k) && Enabled(m.k, DownOp(LockSem(l)))
  {
    At(m, l, m.k.current, 0);
    PlacesOf(m.k);
    hide MonInv, Inv, LockOk, Enabled;
  }

  lemma BlockedShape(m: Monitors, l: nat, w: Stage)
    requires LockSem(l) in m.k.sems && m.k.sems[LockSem(l)] == 0
    ensures var n := TryLock(m, l, w);
            && n == m.(k := Down(m.k, LockSem(l)), stage := n.stage)
            && forall t :: t != m.k.current ==> StageOf(n, t) == StageOf(m, t)
  {
    hide Block;
  }

  lemma BlockedOnlyMine(m: Monitors, n: Monitors, l: nat)
    requires l in m.holder && n == m.(k := n.k, stage := n.stage) && n.k.sems == m.k.sems
    requires forall t :: t != m.k.current ==> Untouched(m, n, t)
    ensures OnlyMine(m, n, l) && l in n.holder
  {
    hide Untouched;
  }

  lemma TestBlocks(m: Monitors, l: nat, w: Stage)
    requires MayTest(m, l) && m.k.sems[LockSem(l)] == 0 && (w == Acquiring(l) || (w.Reacquiring? && w.lock == l))
    ensures MonInv(TryLock(m, l, w))
  {
    hide *;
    TestNeeds(m, l);
    var n, s := TryLock(m, l, w), LockSem(l);
    DownBlocks(m.k, s);
    DownIsBlock(m.k, s);
    BlockLeavesSleepers(m.k, OnSem(s), WaitersOf(s));
    StayBut(m.k, Down(m.k, s), s);
    BlockedLockIsOk(m, l, w);
    BlockedShape(m, l, w);
    SameConds(m, n);
    OthersUntouched(m, n, s);
    BlockedOnlyMine(m, n, l);
    Intro(m, n, l);
  }

  lemma BlockedLockIsOk(m: Monitors, l: nat, w: Stage)
    requires LockOk(m, l) && m.k.sems[LockSem(l)] == 0 && m.holder[l] != Some(m.k.current)
    requires w == Acquiring(l) || (w.Reacquiring? && w.lock == l)
    requires var d := Down(m.k, LockSem(l));
             d.sems == m.k.sems && Th(d, m.k.current).alive && Th(d, m.k.current).blk == OnSem(LockSem(l))
    ensures LockOk(TryLock(m, l, w), l) && ThreadOk(TryLock(m, l, w), m.k.current)
  {
    hide Block;
  }

  /** Taking or giving back lock `l` touches nothing else. */
  lemma LockMoveOnlyMine(m: Monitors, n: Monitors, l: nat, h: Option<Tid>, i: set<Tid>, g: Stage, v: nat)
    requires ListsOk(m.k) && l in m.holder
    requires n == m.(k := n.k, holder := m.holder[l := h], inside := m.inside[l := i], stage := n.stage)
    requires StageOf(n, m.k.current) == g && forall t :: t != m.k.current ==> StageOf(n, t) == StageOf(m, t)
    requires h == None || h == Some(m.k.current)
    requires OthersKept(m.k, n.k) && SleepersStay(m.k, n.k, Some(LockSem(l))) && n.k.sems == m.k.sems[LockSem(l) := v]
    ensures OnlyMine(m, n, l)
  {
    hide ListsOk, StageOf, Th, OthersKept, SleepersStay;
    OthersUntouched(m, n, LockSem(l));
  }

  lemma OwnShape(m: Monitors, n: Monitors, l: nat)
    requires n == Own(m, l).(k := n.k)
    ensures n == m.(k := n.k, holder := m.holder[l := Some(m.k.current)], inside := m.inside[l := Inside(m, l) + {m.k.current}], stage := n.stage)
    ensures StageOf(n, m.k.current) == Outside && forall t :: t != m.k.current ==> StageOf(n, t) == StageOf(m, t)
  {
  }

  lemma GotShape(m: Monitors, l: nat, w: Stage)
    requires LockSem(l) in m.k.sems && m.k.sems[LockSem(l)] > 0
    ensures TryLock(m, l, w) == Own(m, l).(k := Down(m.k, LockSem(l)))
  {
    hide Own, Down;
  }

  /** Taking a lock keeps the invariant, in whatever call. */
  lemma Gained(m: Monitors, n: Monitors, l: nat)
    requires MonInv(m) && m.k.status == Live && l in m.holder && LockOk(m, l) && LockSem(l) in m.k.sems
             && m.k.sems[LockSem(l)] > 0 && ListsOk(m.k)
    requires n == Own(m, l).(k := n.k) && Inv(n.k) && n.k.sems == m.k.sems[LockSem(l) := m.k.sems[LockSem(l)] - 1]
    requires OthersKept(m.k, n.k) && SleepersStay(m.k, n.k, Some(LockSem(l))) && Th(n.k, m.k.current).blk == Running
    ensures MonInv(n)
  {
    hide *;
    OwnedLockIsOk(m, n, l);
    OwnShape(m, n, l);
    SameConds(m, n);
    LockMoveOnlyMine(m, n, l, Some(m.k.current), Inside(m, l) + {m.k.current}, Outside, m.k.sems[LockSem(l)] - 1);
    Intro(m, n, l);
  }

  lemma TestGets(m: Monitors, l: nat, w: Stage)
    requires MayTest(m, l) && m.k.sems[LockSem(l)] > 0
    ensures MonInv(TryLock(m, l, w))
  {
    hide *;
    TestNeeds(m, l);
    var n, s := TryLock(m, l, w), LockSem(l);
    DownTakes(m.k, s);
    MeIs(Down(m.k, s));
    TakeLeavesSleepers(m.k, s);
    GotShape(m, l, w);
    Gained(m, n, l);
  }

  lemma TakeLeavesSleepers(st: State, s: SemId)
    requires s in st.sems && st.sems[s] > 0
    ensures SleepersStay(st, Down(st, s), Some(s))
  {
  }

  lemma OwnedLockIsOk(m: Monitors, n: Monitors, l: nat)
    requires LockOk(m, l) && m.k.sems[LockSem(l)] > 0 && n == Own(m, l).(k := n.k)
    requires n.k.sems == m.k.sems[LockSem(l) := m.k.sems[LockSem(l)] - 1] && Th(n.k, m.k.current).blk == Running
    ensures LockOk(n, l) && ThreadOk(n, m.k.current)
  {
  }

  lemma TryNeeds(m: Monitors, l: nat)
    requires MonInv(m) && CanMove(m, TryIt(l))
    ensures m.k.status == Live && l in m.holder && LockOk(m, l) && LockSem(l) in m.k.sems && Me(m.k).blk == Running
    ensures Inv(m.k) && ListsOk(m.k) && Enabled(m.k, TryDownOp(LockSem(l)))
  {
    At(m, l, m.k.current, 0);
    PlacesOf(m.k);
    hide MonInv, Inv, LockOk;
  }

  lemma TriedShape(m: Monitors, l: nat)
    requires LockSem(l) in m.k.sems
    ensures TryAcquire(m, l) == if m.k.sems[LockSem(l)] > 0 then Own(m, l).(k := TryDown(m.k, LockSem(l))) else m
  {
    hide Own, TryDown;
  }

  lemma TryItKeeps(m: Monitors, l: nat)
    requires MonInv(m) && CanMove(m, TryIt(l))
    ensures MonInv(TryAcquire(m, l))
  {
    TryNeeds(m, l);
    hide *;
    var n, s := TryAcquire(m, l), LockSem(l);
    TriedShape(m, l);
    if m.k.sems[s] > 0 {
      TryTakes(m.k, s);
      SameThreadsStay(m.k, TryDown(m.k, s), Some(s));
      MeIs(m.k);
      Gained(m, n, l);
    }
  }

  // ---------------------------------------------------------------- releasing

  ghost predicate MayRelease(m: Monitors, l: nat) {
    MonInv(m) && Free4Calls(m) && Held(m, l)
  }

  lemma SameStages(m: Monitors, n: Monitors)
    requires n.stage == m.stage
    ensures forall t :: StageOf(n, t) == StageOf(m, t)
  {
  }

  lemma MayReleaseGives(m: Monitors, l: nat)
    requires MayRelease(m, l)
    ensures MonInv(m) && m.k.status == Live && LockOk(m, l) && ListsOk(m.k) && StageOf(m, m.k.current) == Outside
            && Me(m.k).blk == Running
    ensures l in m.holder && LockSem(l) in m.k.sems && Enabled(m.k, UpOp(LockSem(l)))
            && m.holder[l] == Some(m.k.current)
  {
    At(m, l, m.k.current, 0);
    PlacesOf(m.k);
  }

  lemma UpNeeds(st: State, s: SemId)
    requires Enabled(st, UpOp(s))
    ensures s in st.sems
  {
  }

  lemma ReleaseEffect(m: Monitors, l: nat)
    requires MonInv(m) && m.k.status == Live && Enabled(m.k, UpOp(LockSem(l)))
    ensures var u := UpSem(m.k, LockSem(l));
            && Inv(u) && u.status == Live && u.current == m.k.current && u.sems == m.k.sems[LockSem(l) := m.k.sems[LockSem(l)] + 1]
            && OthersKept(m.k, u) && Me(u).blk == Me(m.k).blk && SleepersStay(m.k, u, Some(LockSem(l)))
  {
    hide *;
    At(m, 0, 0, 0);
    PlacesOf(m.k);
    UpNeeds(m.k, LockSem(l));
    UpEffect(m.k, LockSem(l));
    UpLeavesSleepers(m.k, LockSem(l));
    SameCalls(m.k, UpSem(m.k, LockSem(l)));
  }

  lemma ReleasedShape(m: Monitors, l: nat)
    requires LockSem(l) in m.k.sems
    ensures ReleaseLock(m, l) ==
            m.(k := UpSem(m.k, LockSem(l)), holder := m.holder[l := None], inside := m.inside[l := Inside(m, l) - {m.k.current}])
  {
    hide UpSem, Inside;
  }

  lemma LetGoKeeps(m: Monitors, l: nat)
    requires MayRelease(m, l)
    ensures MonInv(ReleaseLock(m, l)) && ReleaseLock(m, l).k.status == Live
            && ReleaseLock(m, l).k.current == m.k.current
    ensures Me(ReleaseLock(m, l).k).blk == Running
  {
    hide *;
    MayReleaseGives(m, l);
    var n := ReleaseLock(m, l);
    ReleaseEffect(m, l);
    MeIs(UpSem(m.k, LockSem(l)));
    ReleasedLockIsOk(m, l);
    ReleasedShape(m, l);
    SameStages(m, n);
    SameConds(m, n);
    LockMoveOnlyMine(m, n, l, None, Inside(m, l) - {m.k.current}, Outside, m.k.sems[LockSem(l)] + 1);
    Intro(m, n, l);
  }

  lemma ReleasedLockIsOk(m: Monitors, l: nat)
    requires LockOk(m, l) && m.holder[l] == Some(m.k.current) && StageOf(m, m.k.current) == Outside
             && Me(m.k).blk == Running
    requires var u := UpSem(m.k, LockSem(l));
             u.sems == m.k.sems[LockSem(l) := m.k.sems[LockSem(l)] + 1] && Th(u, m.k.current).blk == Running
    ensures LockOk(ReleaseLock(m, l), l) && ThreadOk(ReleaseLock(m, l), m.k.current)
  {
    hide UpSem;
  }

  // ---------------------------------------------------------------- cond_wait

  /** The state in `cond_wait` after `sem_init` and `list_push_back`. */
  function Queued(m: Monitors, c: nat): Monitors {
    m.(k := InitSem(m.k, WaiterSem(m.k.current), 0), waiters := m.waiters[c := Queue(m, c) + [m.k.current]])
  }

  lemma MyWaiterSemIsIdle(m: Monitors)
    requires MonInv(m) && m.k.status == Live && StageOf(m, m.k.current) == Outside
    ensures Idle(m.k, WaiterSem(m.k.current))
  {
    hide Inv, LockOk, CondOk;
    forall t ensures Th(m.k, t).blk != OnSem(WaiterSem(m.k.current)) {
      At(m, 0, t, 0);
    }
  }

  lemma StillRuns(st: State, a: State, s: SemId, lock: SemId)
    requires Enabled(st, InitOp(s, 0)) && lock in st.sems && a.sems == st.sems[s := 0]
    requires a.status == Live && a.current == st.current && a.threads == st.threads
    ensures Enabled(a, UpOp(lock)) && Me(a).blk == Running
  {
    assert Me(a) == Me(st);
  }

  lemma MayDown(a: State, b: State, s: SemId)
    requires Me(a).blk == Running && b.status == Live && b.current == a.current && s in b.sems
    requires forall t :: Th(b, t).blk == Th(a, t).blk
    ensures Enabled(b, DownOp(s))
  {
    hide Th;
  }

  /** `cond_wait` up to the release of the lock. */
  lemma WaitReleases(st: State, s: SemId, lock: SemId)
    requires Inv(st) && Enabled(st, InitOp(s, 0)) && lock in st.sems && lock != s
    ensures var b := UpSem(InitSem(st, s, 0), lock);
            && Inv(b) && Enabled(b, DownOp(s)) && b.sems == st.sems[s := 0][lock := st.sems[lock] + 1] && b.current == st.current
            && (forall t :: Th(b, t).alive == Th(st, t).alive && Th(b, t).blk == Th(st, t).blk)
            && SleepersStay(st, b, Some(lock))
  {
    hide *;
    InitEffect(st, s, 0);
    var a := InitSem(st, s, 0);
    StillRuns(st, a, s, lock);
    UpEffect(a, lock);
    PlacesOf(a);
    UpLeavesSleepers(a, lock);
    SameThreadsSleep(st, a, UpSem(a, lock), lock);
    MayDown(a, UpSem(a, lock), s);
  }

  lemma SameThreadsSleep(st: State, a: State, b: State, lock: SemId)
    requires a.threads == st.threads && a.current == st.current && SleepersStay(a, b, Some(lock))
    ensures SleepersStay(st, b, Some(lock)) && forall t :: Th(a, t) == Th(st, t)
  {
    assert forall t :: Th(a, t) == Th(st, t);
  }

  /** ... and its wait on the fresh semaphore. */
  lemma WaitSleeps(b: State, s: SemId)
    requires Inv(b) && Enabled(b, DownOp(s)) && b.sems[s] == 0
    ensures var k := Down(b, s);
            && Inv(k) && OthersKept(b, k) && SleepersStay(b, k, None) && k.sems == b.sems
            && Th(k, b.current).alive && Th(k, b.current).blk == OnSem(s) && Th(k, b.current).inList == Some(WaitersOf(s))
  {
    hide Inv, Down, Block, SleepersStay, OthersKept;
    DownBlocks(b, s);
    PlacesOf(b);
    DownIsBlock(b, s);
    BlockLeavesSleepers(b, OnSem(s), WaitersOf(s));
    BlockParks(b, OnSem(s), WaitersOf(s));
  }

  lemma WaitNeeds(m: Monitors, c: nat, l: nat)
    requires MonInv(m) && CanMove(m, WaitOn(c, l))
    ensures Inv(m.k) && Enabled(m.k, InitOp(WaiterSem(m.k.current), 0)) && LockSem(l) in m.k.sems
  {
    MyWaiterSemIsIdle(m);
  }

  lemma WaitKernel(m: Monitors, c: nat, l: nat)
    requires LockSem(l) in m.k.sems
    ensures Wait(m, c, l).k == Down(UpSem(InitSem(m.k, WaiterSem(m.k.current), 0), LockSem(l)), WaiterSem(m.k.current))
  {
    hide Down, UpSem;
  }

  lemma WaitEffect(m: Monitors, c: nat, l: nat)
    requires Inv(m.k) && Enabled(m.k, InitOp(WaiterSem(m.k.current), 0)) && LockSem(l) in m.k.sems
    ensures var k, s := Wait(m, c, l).k, WaiterSem(m.k.current);
            && Inv(k) && OthersKept(m.k, k) && SleepersStay(m.k, k, Some(LockSem(l)))
            && k.sems == m.k.sems[s := 0][LockSem(l) := m.k.sems[LockSem(l)] + 1]
            && Th(k, m.k.current).alive && Th(k, m.k.current).blk == OnSem(s) && Th(k, m.k.current).inList == Some(WaitersOf(s))
  {
    hide Inv, Enabled, Wait, Down, UpSem, OthersKept, SleepersStay, Th;
    var s := WaiterSem(m.k.current);
    WaitKernel(m, c, l);
    WaitReleases(m.k, s, LockSem(l));
    var b := UpSem(InitSem(m.k, s, 0), LockSem(l));
    WaitSleeps(b, s);
    ChainWait(m.k, b, Down(b, s), LockSem(l));
  }

  lemma ChainWait(st: State, b: State, d: State, lock: SemId)
    requires b.current == st.current && SleepersStay(st, b, Some(lock)) && SleepersStay(b, d, None) && OthersKept(b, d)
    requires forall t :: Th(b, t).alive == Th(st, t).alive && Th(b, t).blk == Th(st, t).blk
    ensures OthersKept(st, d) && SleepersStay(st, d, Some(lock))
  {
  }

  lemma HeldByMe(m: Monitors, c: nat, l: nat)
    requires CanMove(m, WaitOn(c, l))
    ensures m.k.status == Live && l in m.holder && m.holder[l] == Some(m.k.current)
  {
  }

  lemma WaitKeeps(m: Monitors, c: nat, l: nat)
    requires MonInv(m) && CanMove(m, WaitOn(c, l))
    ensures MonInv(Wait(m, c, l))
  {
    WaitNeeds(m, c, l);
    HeldByMe(m, c, l);
    hide *;
    var n := Wait(m, c, l);
    WaitEffect(m, c, l);
    At(m, l, m.k.current, c);
    WaitShape(m, c, l);
    WaitIsOk(m, n, c, l);
    WaitOnlyMine(m, n, c, l);
    WaitConds(m, n, c, l);
    Intro(m, n, l);
  }

  lemma WaitShape(m: Monitors, c: nat, l: nat)
    requires LockSem(l) in m.k.sems
    ensures WaitedShape(m, Wait(m, c, l), c, l)
  {
    hide UpSem, Down;
    assert InitSem(m.k, WaiterSem(m.k.current), 0).current == m.k.current;
  }

  lemma WaitIsOk(m: Monitors, n: Monitors, c: nat, l: nat)
    requires WaitedShape(m, n, c, l) && LockOk(m, l) && m.holder[l] == Some(m.k.current)
    requires n.k.sems == m.k.sems[WaiterSem(m.k.current) := 0][LockSem(l) := m.k.sems[LockSem(l)] + 1]
    requires var s, t := WaiterSem(m.k.current), Th(n.k, m.k.current); t.alive && t.blk == OnSem(s) && t.inList == Some(WaitersOf(s))
    ensures LockOk(n, l) && ThreadOk(n, m.k.current)
  {
    assert m.k.current in Queue(n, c);
  }

  /** What `cond_wait` leaves in the monitor's own fields. */
  ghost predicate WaitedShape(m: Monitors, n: Monitors, c: nat, l: nat) {
    var me := m.k.current;
    && n.waiters == m.waiters[c := Queue(m, c) + [me]] && n.holder == m.holder[l := None]
    && n.inside == m.inside[l := Inside(m, l) - {me}] && n.stage == m.stage[me := Sleeping(l, c)]
  }

  lemma WaitOnlyMine(m: Monitors, n: Monitors, c: nat, l: nat)
    requires WaitedShape(m, n, c, l) && l in m.holder && LockSem(l) in m.k.sems
    requires n.k.sems == m.k.sems[WaiterSem(m.k.current) := 0][LockSem(l) := m.k.sems[LockSem(l)] + 1]
    requires OthersKept(m.k, n.k) && SleepersStay(m.k, n.k, Some(LockSem(l)))
    ensures OnlyMine(m, n, l)
  {
    hide Th;
    assert forall x :: Queue(n, x) == if x == c then Queue(m, c) + [m.k.current] else Queue(m, x);
    hide Queue;
    assert forall t :: t != m.k.current ==> StageOf(n, t) == StageOf(m, t);
    hide StageOf;
    forall t | t != m.k.current ensures Untouched(m, n, t) {
    }
  }

  lemma WaitConds(m: Monitors, n: Monitors, c: nat, l: nat)
    requires MonInv(m) && m.k.status == Live && WaitedShape(m, n, c, l)
    ensures forall x :: CondOk(n, x)
  {
    CurrentIsNowhere(m);
    hide MonInv, Inv, CondOk;
    forall x ensures CondOk(n, x) {
      At(m, 0, 0, x);
      WaitCond(m, n, c, l, x);
    }
  }

  lemma WaitCond(m: Monitors, n: Monitors, c: nat, l: nat, x: nat)
    requires WaitedShape(m, n, c, l) && CondOk(m, x) && m.k.current !in Queue(m, x)
    ensures CondOk(n, x)
  {
    assert forall t :: t != m.k.current ==> StageOf(n, t) == StageOf(m, t);
    if x == c {
      assert Queue(n, c) == Queue(m, c) + [m.k.current];
      AppendKeepsNoDup(Queue(m, c), m.k.current);
    } else {
      assert Queue(n, x) == Queue(m, x);
      CondFrame(m, n, x);
    }
  }

  // ---------------------------------------------------------------- waking up in cond_wait

  lemma WakeUpNeeds(m: Monitors, c: nat, l: nat)
    requires MonInv(m) && m.k.status == Live && StageOf(m, m.k.current) == Sleeping(l, c)
    ensures var s := WaiterSem(m.k.current);
            && s in m.k.sems && m.k.sems[s] == 1 && l in m.holder && m.holder[l] != Some(m.k.current) && LockOk(m, l)
            && Inv(m.k) && Enabled(m.k, DownOp(s))
  {
    At(m, l, m.k.current, c);
    CurrentIsNowhere(m);
    hide MonInv, Inv, LockOk, CondOk;
  }

  lemma WakeUpEffect(m: Monitors, c: nat, l: nat)
    requires MonInv(m) && m.k.status == Live && StageOf(m, m.k.current) == Sleeping(l, c)
    ensures var s := WaiterSem(m.k.current);
            && s in m.k.sems && m.k.sems[s] == 1 && l in m.holder && m.holder[l] != Some(m.k.current) && Enabled(m.k, DownOp(s))
            && var d := Down(m.k, s);
               && Inv(d) && d.status == Live && d.current == m.k.current && d.sems == m.k.sems[s := 0] && OthersKept(m.k, d)
               && SleepersStay(m.k, d, Some(s)) && Me(d).alive && Me(d).blk == Running
  {
    hide *;
    var s := WaiterSem(m.k.current);
    WakeUpNeeds(m, c, l);
    DownTakes(m.k, s);
    TakeLeavesSleepers(m.k, s);
  }

  lemma WokenShape(m: Monitors, c: nat, l: nat)
    requires WaiterSem(m.k.current) in m.k.sems && m.k.sems[WaiterSem(m.k.current)] == 1
    ensures var n := WakeUp(m, c, l);
            && n == m.(k := Down(m.k, WaiterSem(m.k.current)), stage := m.stage[m.k.current := Reacquiring(l, c)])
            && StageOf(n, m.k.current) == Reacquiring(l, c)
            && forall t :: t != m.k.current ==> StageOf(n, t) == StageOf(m, t)
  {
    hide Down;
  }

  lemma LockStays(m: Monitors, n: Monitors, l: nat)
    requires l in m.holder && LockOk(m, l) && n.holder == m.holder && n.inside == m.inside
    requires n.k.sems == m.k.sems[WaiterSem(m.k.current) := 0]
    ensures LockOk(n, l)
  {
  }

  lemma WokenThread(m: Monitors, n: Monitors, c: nat, l: nat)
    requires StageOf(n, m.k.current) == Reacquiring(l, c) && l in n.holder && n.holder[l] != Some(m.k.current)
    requires n.k.current == m.k.current && Th(n.k, m.k.current).alive && Th(n.k, m.k.current).blk == Running
    ensures ThreadOk(n, m.k.current)
  {
    hide StageOf, Th;
  }

  lemma WakeUpKeeps(m: Monitors, c: nat, l: nat)
    requires MonInv(m) && m.k.status == Live && StageOf(m, m.k.current) == Sleeping(l, c)
    ensures WaiterSem(m.k.current) in m.k.sems && m.k.sems[WaiterSem(m.k.current)] == 1
    ensures MonInv(WakeUp(m, c, l)) && StageOf(WakeUp(m, c, l), m.k.current) == Reacquiring(l, c)
            && WakeUp(m, c, l).k.current == m.k.current
  {
    hide *;
    WakeUpNeeds(m, c, l);
    var n := WakeUp(m, c, l);
    WakeUpEffect(m, c, l);
    WokenShape(m, c, l);
    WokenOnlyMine(m, n, c, l);
    SameConds(m, n);
    LockStays(m, n, l);
    MeIs(n.k);
    WokenThread(m, n, c, l);
    Intro(m, n, l);
  }

  lemma WokenOnlyMine(m: Monitors, n: Monitors, c: nat, l: nat)
    requires l in m.holder
    requires n == m.(k := n.k, stage := m.stage[m.k.current := Reacquiring(l, c)])
    requires n.k.sems == m.k.sems[WaiterSem(m.k.current) := 0]
    requires OthersKept(m.k, n.k) && SleepersStay(m.k, n.k, Some(WaiterSem(m.k.current)))
    ensures OnlyMine(m, n, l)
  {
    hide Th;
    assert forall t :: t != m.k.current ==> StageOf(n, t) == StageOf(m, t);
    hide StageOf;
  }

  // ---------------------------------------------------------------- signalling

  lemma SignalFacts(m: Monitors, c: nat)
    requires MonInv(m) && m.k.status == Live && Queue(m, c) != []
    ensures var t, s := Queue(m, c)[0], WaiterSem(Queue(m, c)[0]);
            && s in m.k.sems && m.k.sems[s] == 0 && t != m.k.current && StageOf(m, t).Sleeping? && StageOf(m, t).cond == c
            && Th(m.k, t).alive && Th(m.k, t).blk == OnSem(s) && Th(m.k, t).inList == Some(WaitersOf(s))
            && Items(m.k, WaitersOf(s)) == [t]
  {
    var t, s := Queue(m, c)[0], WaiterSem(Queue(m, c)[0]);
    assert t in Queue(m, c);
    CurrentIsNowhere(m);
    At(m, 0, t, c);
    PlacesOf(m.k);
    OnlySleeper(m, t);
  }

  lemma SingletonList(w: seq<Tid>, t: Tid)
    requires NoDup(w) && t in w && forall i :: 0 <= i < |w| ==> w[i] == t
    ensures w == [t]
  {
    var j := if |w| > 1 then 1 else 0;
    assert w[j] == t && w[0] == t;
  }

  /** Nobody but thread t sleeps on its private semaphore. */
  lemma OnlySleeper(m: Monitors, t: Tid)
    requires MonInv(m) && m.k.status == Live && Th(m.k, t).inList == Some(WaitersOf(WaiterSem(t)))
    ensures Items(m.k, WaitersOf(WaiterSem(t))) == [t]
  {
    PlacesOf(m.k);
    var w := Items(m.k, WaitersOf(WaiterSem(t)));
    assert t in w;
    WaiterIsParked(m.k, WaiterSem(t));
    hide Inv, LockOk, CondOk;
    forall i | 0 <= i < |w| ensures w[i] == t {
      At(m, 0, w[i], 0);
    }
    SingletonList(w, t);
  }

  lemma SignalledIntro(m: Monitors, n: Monitors, c: nat, u: State)
    requires n == m.(k := u, waiters := n.waiters) && u.current == m.k.current && Queue(m, c) != []
    requires forall x :: Queue(n, x) == if x == c then Queue(m, c)[1..] else Queue(m, x)
    requires forall x :: Th(u, x).alive == Th(m.k, x).alive && Th(u, x).blk == Th(m.k, x).blk
    requires var h, s := Queue(m, c)[0], WaiterSem(Queue(m, c)[0]);
             && s in m.k.sems && m.k.sems[s] == 0 && StageOf(m, h).Sleeping? && StageOf(m, h).cond == c
             && u.sems == m.k.sems[s := m.k.sems[s] + 1] && SleepersStay(m.k, u, Some(s))
    ensures Signalled(m, n, c)
  {
    hide Queue, Th, StageOf, SleepersStay;
  }

  lemma SignalIsSignalled(m: Monitors, c: nat)
    requires MonInv(m) && m.k.status == Live && Me(m.k).blk == Running && Queue(m, c) != []
             && WaiterSem(Queue(m, c)[0]) in m.k.sems
    ensures Signalled(m, Signal(m, c), c)
  {
    hide *;
    At(m, 0, 0, 0);
    SignalFacts(m, c);
    SignalUps(m, WaiterSem(Queue(m, c)[0]), Queue(m, c)[0]);
    SignalShape(m, c);
    SignalledIntro(m, Signal(m, c), c, UpSem(m.k, WaiterSem(Queue(m, c)[0])));
  }

  lemma SignalKeepsThreads(m: Monitors, c: nat)
    requires MonInv(m) && m.k.status == Live && Me(m.k).blk == Running && Queue(m, c) != []
             && WaiterSem(Queue(m, c)[0]) in m.k.sems
    ensures forall t :: ThreadOk(Signal(m, c), t)
  {
    SignalIsSignalled(m, c);
    CurrentIsNowhere(m);
    hide Inv, MonInv, ThreadOk, CondOk, Signal, Queue, Signalled;
    forall t ensures ThreadOk(Signal(m, c), t) {
      At(m, 0, t, c);
      SignalThread(m, Signal(m, c), c, t);
    }
  }

  lemma SignalKeepsLocks(m: Monitors, c: nat)
    requires MonInv(m) && m.k.status == Live && Me(m.k).blk == Running && Queue(m, c) != []
             && WaiterSem(Queue(m, c)[0]) in m.k.sems
    ensures forall l :: l in Signal(m, c).holder ==> LockOk(Signal(m, c), l)
  {
    At(m, 0, 0, 0);
    SignalFacts(m, c);
    SignalUps(m, WaiterSem(Queue(m, c)[0]), Queue(m, c)[0]);
    SignalShape(m, c);
    hide Inv, UpSem, MonInv, LockOk, SleepersStay, Signal, Items, Queue;
    SignalLocks(m, Signal(m, c), c);
  }

  lemma SignalKeepsKernel(m: Monitors, c: nat)
    requires MonInv(m) && m.k.status == Live && Me(m.k).blk == Running && Queue(m, c) != []
             && WaiterSem(Queue(m, c)[0]) in m.k.sems
    ensures var n := Signal(m, c);
            && Inv(n.k) && n.k.status == Live && n.k.current == m.k.current && Me(n.k).blk == Running && n.holder == m.holder
            && Items(n.k, Ready) == Items(m.k, Ready) + [Queue(m, c)[0]]
  {
    At(m, 0, 0, 0);
    SignalFacts(m, c);
    SignalUps(m, WaiterSem(Queue(m, c)[0]), Queue(m, c)[0]);
    SignalShape(m, c);
    hide Inv, UpSem, MonInv, SleepersStay, Signal, Items, Queue;
  }

  lemma SignalKeepsConds(m: Monitors, c: nat)
    requires MonInv(m) && m.k.status == Live && Me(m.k).blk == Running && Queue(m, c) != []
             && WaiterSem(Queue(m, c)[0]) in m.k.sems
    ensures forall x :: CondOk(Signal(m, c), x)
  {
    SignalShape(m, c);
    hide Inv, UpSem, MonInv, CondOk, Signal, Queue;
    SignalConds(m, Signal(m, c), c);
  }

  lemma SignalKeepsInv(m: Monitors, c: nat)
    requires MonInv(m) && m.k.status == Live && Me(m.k).blk == Running && Queue(m, c) != []
             && WaiterSem(Queue(m, c)[0]) in m.k.sems
    ensures var n := Signal(m, c);
            && MonInv(n) && n.k.status == Live && n.k.current == m.k.current && Me(n.k).blk == Running && n.holder == m.holder
            && Items(n.k, Ready) == Items(m.k, Ready) + [Queue(m, c)[0]]
  {
    hide Inv, MonInv, LockOk, ThreadOk, CondOk, Signal, Items, Queue;
    SignalKeepsThreads(m, c);
    SignalKeepsLocks(m, c);
    SignalKeepsConds(m, c);
    SignalKeepsKernel(m, c);
    MonInvIntro(Signal(m, c));
  }

  /** A signal finds the semaphores of the waiters initialised. */
  lemma WaitersAreReached(m: Monitors, c: nat)
    requires MonInv(m) && m.k.status == Live
    ensures SignalsReach(m, c)
  {
    hide Inv, LockOk;
    forall t | t in Queue(m, c) ensures WaiterSem(t) in m.k.sems {
      At(m, 0, t, c);
    }
  }

  lemma SignalKeeps(m: Monitors, c: nat)
    requires MonInv(m) && m.k.status == Live && Me(m.k).blk == Running
    ensures SignalsReach(m, c)
    ensures var n := Signal(m, c);
            && MonInv(n) && n.k.status == Live && n.k.current == m.k.current && Me(n.k).blk == Running && n.holder == m.holder
            && Queue(n, c) == (if Queue(m, c) == [] then [] else Queue(m, c)[1..])
            && Items(n.k, Ready) == Items(m.k, Ready) + (if Queue(m, c) == [] then [] else [Queue(m, c)[0]])
  {
    WaitersAreReached(m, c);
    SignalReaches(m, c);
    hide *;
    if Queue(m, c) != [] {
      SignalKeepsInv(m, c);
    } else {
      SignalNobody(m, c);
    }
  }

  lemma SignalNobody(m: Monitors, c: nat)
    requires Queue(m, c) == []
    ensures Signal(m, c) == m
  {
  }

  lemma MonInvIntro(n: Monitors)
    requires Inv(n.k) && (forall l :: l in n.holder ==> LockOk(n, l)) && (forall t :: ThreadOk(n, t)) && (forall c :: CondOk(n, c))
    ensures MonInv(n)
  {
  }

  lemma SignalShape(m: Monitors, c: nat)
    requires Queue(m, c) != [] && WaiterSem(Queue(m, c)[0]) in m.k.sems
    ensures var n := Signal(m, c);
            n == m.(k := UpSem(m.k, WaiterSem(Queue(m, c)[0])), waiters := n.waiters)
            && forall x :: Queue(n, x) == if x == c then Queue(m, c)[1..] else Queue(m, x)
  {
    hide UpSem;
  }

  lemma SignalUps(m: Monitors, s: SemId, t: Tid)
    requires Inv(m.k) && m.k.status == Live && Me(m.k).blk == Running && s in m.k.sems
             && Items(m.k, WaitersOf(s)) == [t]
    ensures var u := UpSem(m.k, s);
            && Inv(u) && u.status == Live && u.current == m.k.current && u.sems == m.k.sems[s := m.k.sems[s] + 1]
            && (forall x :: Th(u, x).alive == Th(m.k, x).alive && Th(u, x).blk == Th(m.k, x).blk)
            && SleepersStay(m.k, u, Some(s)) && Items(u, Ready) == Items(m.k, Ready) + [t]
  {
    PlacesOf(m.k);
    hide Inv, UpSem, SleepersStay;
    UpEffect(m.k, s);
    UpLeavesSleepers(m.k, s);
  }

  lemma SignalLocks(m: Monitors, n: Monitors, c: nat)
    requires MonInv(m) && m.k.status == Live && n.holder == m.holder && n.inside == m.inside
    requires forall l :: LockSem(l) in m.k.sems ==> LockSem(l) in n.k.sems && n.k.sems[LockSem(l)] == m.k.sems[LockSem(l)]
    ensures forall l :: l in n.holder ==> LockOk(n, l)
  {
    hide MonInv, Inv, LockOk;
    forall l | l in n.holder ensures LockOk(n, l) {
      At(m, l, 0, 0);
      LockHasSem(m, l);
      LockFrame(m, n, l);
    }
  }

  /** What a signal to the first waiter of `c` does to threads. */
  ghost predicate Signalled(m: Monitors, n: Monitors, c: nat) {
    && Queue(m, c) != [] && n.holder == m.holder && n.stage == m.stage && n.k.current == m.k.current
    && (forall x :: Queue(n, x) == if x == c then Queue(m, c)[1..] else Queue(m, x))
    && (forall u :: Th(n.k, u).alive == Th(m.k, u).alive && Th(n.k, u).blk == Th(m.k, u).blk)
    && var h, s := Queue(m, c)[0], WaiterSem(Queue(m, c)[0]);
       && s in m.k.sems && m.k.sems[s] == 0 && StageOf(m, h).Sleeping? && StageOf(m, h).cond == c
       && n.k.sems == m.k.sems[s := 1] && SleepersStay(m.k, n.k, Some(s))
  }

  lemma SignalThread(m: Monitors, n: Monitors, c: nat, t: Tid)
    requires ThreadOk(m, t) && CondOk(m, c) && Signalled(m, n, c)
    requires t == m.k.current ==> forall x :: t !in Queue(m, x)
    ensures ThreadOk(n, t)
  {
    hide Queue, Th;
    var h := Queue(m, c)[0];
    TailKeepsNoDup(Queue(m, c));
    assert StageOf(n, t) == StageOf(m, t);
  }

  lemma SignalConds(m: Monitors, n: Monitors, c: nat)
    requires MonInv(m) && m.k.status == Live && Queue(m, c) != [] && n.stage == m.stage
    requires forall x :: Queue(n, x) == if x == c then Queue(m, c)[1..] else Queue(m, x)
    ensures forall x :: CondOk(n, x)
  {
    hide MonInv, Inv, Queue, NoDup;
    SameStages(m, n);
    forall x ensures CondOk(n, x) {
      At(m, 0, 0, x);
      if x == c {
        TailKeepsNoDup(Queue(m, c));
      }
    }
  }
}

/** Theorems about every run of a system with locks and condition variables. */
module MonitorRuns {
  import opened Basics
  import opened Sched
  import opened SchedInv
  import opened SchedEffects
  import opened Monitor
  import opened MonitorInv

  // ---------------------------------------------------------------- every move

  lemma TestKeeps(m: Monitors, l: nat, w: Stage)
    requires MayTest(m, l) && (w == Acquiring(l) || (w.Reacquiring? && w.lock == l))
    ensures LockSem(l) in m.k.sems && MonInv(TryLock(m, l, w))
  {
    TestNeeds(m, l);
    hide *;
    if m.k.sems[LockSem(l)] == 0 {
      TestBlocks(m, l, w);
    } else {
      TestGets(m, l, w);
    }
  }

  /** Whoever holds the lock may always signal. */
  lemma HoldersMaySignal(m: Monitors, c: nat, l: nat)
    requires MonInv(m) && Free4Calls(m) && Held(m, l) && c in m.waiters
    ensures CanMove(m, SignalOne(c, l)) && CanMove(m, SignalAll(c, l))
  {
    WaitersAreReached(m, c);
    hide MonInv, SignalsReach;
  }

  lemma {:induction false} SignalsRelease(m: Monitors, c: nat, n: nat)
    requires MonInv(m) && m.k.status == Live && Me(m.k).blk == Running
    ensures SignalsReach(m, c)
    ensures var r, q := Signals(m, c, n), Queue(m, c);
            var k := Min(n, |q|);
            && MonInv(r) && r.k.status == Live && r.k.current == m.k.current && Me(r.k).blk == Running && r.holder == m.holder
            && Queue(r, c) == q[k..] && Items(r.k, Ready) == Items(m.k, Ready) + q[..k]
    decreases n
  {
    hide Inv, MonInv, SignalsReach, Signal, Queue, Items;
    WaitersAreReached(m, c);
    if n > 0 && Queue(m, c) != [] {
      SignalReaches(m, c);
      SignalKeeps(m, c);
      SignalsRelease(Signal(m, c), c, n - 1);
      var q := Queue(m, c);
      var k := Min(n, |q|);
      assert q[1..][k - 1..] == q[k..];
      assert [q[0]] + q[1..][..k - 1] == q[..k];
    }
  }

  lemma {:induction false} BroadcastIsAllSignals(m: Monitors, c: nat)
    requires SignalsReach(m, c)
    ensures Broadcast(m, c) == Signals(m, c, |Queue(m, c)|)
    decreases |Queue(m, c)|
  {
    hide SignalsReach, Signal, Queue;
    if Queue(m, c) != [] {
      SignalReaches(m, c);
      BroadcastIsAllSignals(Signal(m, c), c);
    }
  }

  /** Broadcast releases all waiters, in the order they came. */
  lemma BroadcastReleasesAll(m: Monitors, c: nat)
    requires MonInv(m) && m.k.status == Live && Me(m.k).blk == Running
    ensures SignalsReach(m, c)
    ensures var r := Broadcast(m, c);
            && MonInv(r) && r.k.status == Live && r.k.current == m.k.current
            && Queue(r, c) == [] && Items(r.k, Ready) == Items(m.k, Ready) + Queue(m, c)
  {
    hide *;
    WaitersAreReached(m, c);
    BroadcastIsAllSignals(m, c);
    SignalsRelease(m, c, |Queue(m, c)|);
    assert Queue(m, c)[..|Queue(m, c)|] == Queue(m, c);
  }

  lemma AcquireMayTest(m: Monitors, l: nat)
    requires MonInv(m) && CanMove(m, Acquire(l))
    ensures MayTest(m, l)
  {
  }

  /** A thread inside a lock or condition call can always go on with it when it runs. */
  lemma CallsCanGoOn(m: Monitors)
    requires MonInv(m) && m.k.status == Live && StageOf(m, m.k.current) != Outside
    ensures CanMove(m, GoOn)
    ensures match StageOf(m, m.k.current)
            case Acquiring(l) => MayTest(m, l)
            case Reacquiring(l, c) => MayTest(m, l)
            case Sleeping(l, c) => WaiterSem(m.k.current) in m.k.sems
            case Outside => false
  {
    var t := m.k.current;
    hide Inv, CondOk;
    At(m, if StageOf(m, t).Outside? then 0 else StageOf(m, t).lock, t, 0);
  }

  lemma GoOnKeeps(m: Monitors)
    requires MonInv(m) && CanMove(m, GoOn)
    ensures MonInv(Next(m, GoOn))
  {
    GoOnIsLive(m);
    hide Inv, MonInv, MayTest, TryLock, WakeUp, Enabled;
    CallsCanGoOn(m);
    match StageOf(m, m.k.current)
    case Acquiring(l) => TestKeeps(m, l, Acquiring(l));
    case Reacquiring(l, c) => TestKeeps(m, l, Reacquiring(l, c));
    case Sleeping(l, c) => WakeUpKeeps(m, c, l);
  }

  lemma GoOnIsLive(m: Monitors)
    requires CanMove(m, GoOn)
    ensures m.k.status == Live && StageOf(m, m.k.current) != Outside
  {
  }

  lemma MoveKeepsInv(m: Monitors, v: Move)
    requires MonInv(m) && CanMove(m, v)
    ensures MonInv(Next(m, v))
  {
    hide Inv, MonInv, TryLock, WakeUp, InitLock, InitCond, Wait, Signal, Broadcast, ReleaseLock, TryAcquire, Step, SignalsReach, MayTest;
    match v
    case Env(op) => EnvKeeps(m, op);
    case NewLock(l) => NewLockKeeps(m, l);
    case NewCond(c) => NewCondKeeps(m, c);
    case Acquire(l) => AcquireMayTest(m, l); TestKeeps(m, l, Acquiring(l));
    case TryIt(l) => TryItKeeps(m, l);
    case LetGo(l) => LetGoMay(m, l); LetGoKeeps(m, l);
    case WaitOn(c, l) => WaitKeeps(m, c, l);
    case SignalOne(c, l) => SignalKeeps(m, c);
    case SignalAll(c, l) => BroadcastReleasesAll(m, c);
    case GoOn => GoOnKeeps(m);
  }

  lemma LetGoMay(m: Monitors, l: nat)
    requires MonInv(m) && CanMove(m, LetGo(l))
    ensures MayRelease(m, l)
  {
  }

  lemma StartInv()
    ensures MonInv(START)
  {
    InitialInv();
  }

  // ---------------------------------------------------------------- whole runs

  ghost predicate IsRun(tr: seq<Monitors>, vs: seq<Move>) {
    && |tr| == |vs| + 1
    && forall i :: 0 <= i < |vs| ==> CanMove(tr[i], vs[i]) && tr[i + 1] == Next(tr[i], vs[i])
  }

  lemma {:induction false} EveryStateSatisfiesInv(tr: seq<Monitors>, vs: seq<Move>, n: nat)
    requires IsRun(tr, vs) && MonInv(tr[0]) && n < |tr|
    ensures MonInv(tr[n])
  {
    hide MonInv, CanMove, Next;
    if n > 0 {
      EveryStateSatisfiesInv(tr, vs, n - 1);
      MoveKeepsInv(tr[n - 1], vs[n - 1]);
    }
  }

  /** Mutual exclusion in every run: the semaphore of a lock is 0 or 1, `holder` is NULL exactly when it is 1, and no
      two threads are between acquiring and releasing the lock. */
  lemma MutualExclusion(tr: seq<Monitors>, vs: seq<Move>, n: nat, l: nat)
    requires IsRun(tr, vs) && MonInv(tr[0]) && n < |tr| && tr[n].k.status == Live && l in tr[n].holder
    ensures LockSem(l) in tr[n].k.sems && tr[n].k.sems[LockSem(l)] <= 1
    ensures tr[n].holder[l] == None <==> tr[n].k.sems[LockSem(l)] == 1
    ensures Inside(tr[n], l) == match tr[n].holder[l] case None => {} case Some(t) => {t}
    ensures forall t, u :: t in Inside(tr[n], l) && u in Inside(tr[n], l) ==> t == u
  {
    EveryStateSatisfiesInv(tr, vs, n);
    hide IsRun, Inv, ThreadOk, CondOk;
    At(tr[n], l, 0, 0);
  }

  /** Every element of a condition's list is a thread inside `cond_wait` on it, asleep, with its private semaphore at
      0; whoever was signalled and has not gone on is ready or runs, with its semaphore at 1: no signal is lost. */
  lemma WaitersSleepAndSignalledRun(tr: seq<Monitors>, vs: seq<Move>, n: nat, c: nat, t: Tid)
    requires IsRun(tr, vs) && MonInv(tr[0]) && n < |tr| && tr[n].k.status == Live
    ensures t in Queue(tr[n], c) ==>
              && StageOf(tr[n], t).Sleeping? && StageOf(tr[n], t).cond == c
              && WaiterSem(t) in tr[n].k.sems && tr[n].k.sems[WaiterSem(t)] == 0 && t in Items(tr[n].k, WaitersOf(WaiterSem(t)))
    ensures StageOf(tr[n], t).Sleeping? && t !in Queue(tr[n], StageOf(tr[n], t).cond) ==>
              && WaiterSem(t) in tr[n].k.sems && tr[n].k.sems[WaiterSem(t)] == 1
              && (t == tr[n].k.current || t in Items(tr[n].k, Ready))
  {
    EveryStateSatisfiesInv(tr, vs, n);
    var m := tr[n];
    hide IsRun, Inv, LockOk;
    At(m, 0, t, c);
    PlacesOf(m.k);
    if StageOf(m, t).Sleeping? && t !in Queue(m, StageOf(m, t).cond) {
      SignalledIsAwake(m, t);
    }
  }

  lemma SignalledIsAwake(m: Monitors, t: Tid)
    requires MonInv(m) && m.k.status == Live && StageOf(m, t).Sleeping? && t !in Queue(m, StageOf(m, t).cond)
    ensures t == m.k.current || t in Items(m.k, Ready)
  {
    hide Inv, LockOk, CondOk, ListsOk, Places, Items;
    At(m, 0, t, 0);
    PlacesOf(m.k);
    OthersSleepElsewhere(m, t);
    TokenMeansAwake(m.k, WaiterSem(t), t);
    AliveIsPlaced(m.k, t);
    OnListIffNamed(m.k, t, WaitersOf(WaiterSem(t)));
  }

  lemma OnListIffNamed(st: State, t: Tid, l: ListId)
    requires ListsOk(st)
    ensures Th(st, t).inList == Some(l) ==> t in Items(st, l)
  {
  }

  lemma AliveIsPlaced(st: State, t: Tid)
    requires ListsOk(st) && Places(st) && Th(st, t).alive && Th(st, t).blk.OnSem?
    ensures t == st.current || t in Items(st, Ready) || Th(st, t).inList == Some(WaitersOf(Th(st, t).blk.s))
  {
    PlaceAt(st, t);
  }

  /** With a token in the semaphore, the only thread that could sleep on it does not. */
  lemma TokenMeansAwake(st: State, s: SemId, t: Tid)
    requires Inv(st) && st.status == Live && s in st.sems && st.sems[s] > 0
    requires forall u :: u != t ==> Th(st, u).blk != OnSem(s)
    ensures t !in Items(st, WaitersOf(s))
  {
    assert NotLost(st, s);
    PlacesOf(st);
    assert t in Items(st, WaitersOf(s)) ==> Woken(st, s) == {};
  }

  lemma OthersSleepElsewhere(m: Monitors, t: Tid)
    requires MonInv(m) && m.k.status == Live
    ensures forall u :: u != t ==> Th(m.k, u).blk != OnSem(WaiterSem(t))
  {
    hide Inv, LockOk, CondOk;
    forall u | u != t ensures Th(m.k, u).blk != OnSem(WaiterSem(t)) {
      At(m, 0, u, 0);
    }
  }

  /** `cond_wait` and `lock_acquire` return holding the lock: leaving either call makes the caller the holder. */
  lemma CallsReturnHolding(m: Monitors, v: Move)
    requires MonInv(m) && CanMove(m, v) && (v == GoOn || v.Acquire?)
    requires StageOf(Next(m, v), m.k.current) == Outside
    ensures var l := if v.Acquire? then v.l else StageOf(m, m.k.current).lock;
            Holder(Next(m, v), l) == Some(m.k.current) && Inside(Next(m, v), l) == {m.k.current}
  {
    hide Inv, Down, CondOk;
    var l := if v.Acquire? then v.l else if StageOf(m, m.k.current).Outside? then 0 else StageOf(m, m.k.current).lock;
    LiveMoves(m, v);
    At(m, l, m.k.current, 0);
  }

  lemma LiveMoves(m: Monitors, v: Move)
    requires CanMove(m, v)
    ensures m.k.status == Live
  {
  }

  // ---------------------------------------------------------------- first come, first served

  /** Who called `cond_wait` on `c` in the first n moves, in order. */
  ghost function Waited(tr: seq<Monitors>, vs: seq<Move>, n: nat, c: nat): seq<Tid>
    requires n <= |vs| < |tr|
  {
    if n == 0 then []
    else Waited(tr, vs, n - 1, c) + if vs[n - 1].WaitOn? && vs[n - 1].c == c then [tr[n - 1].k.current] else []
  }

  /** Who joined the ready list from m to r. */
  ghost function Readied(m: Monitors, r: Monitors): seq<Tid> {
    var before, after := Items(m.k, Ready), Items(r.k, Ready);
    if |before| <= |after| then after[|before|..] else []
  }

  ghost predicate SignalsOn(v: Move, c: nat) {
    (v.SignalOne? || v.SignalAll?) && v.c == c
  }

  /** Whom the signals and broadcasts on `c` among the first n moves made ready, in order. */
  ghost function Served(tr: seq<Monitors>, vs: seq<Move>, n: nat, c: nat): seq<Tid>
    requires n <= |vs| < |tr|
  {
    if n == 0 then []
    else Served(tr, vs, n - 1, c) + if SignalsOn(vs[n - 1], c) then Readied(tr[n - 1], tr[n]) else []
  }

  lemma {:induction false} BroadcastElsewhere(m: Monitors, c: nat, x: nat)
    requires SignalsReach(m, c) && x != c
    ensures Queue(Broadcast(m, c), x) == Queue(m, x)
    decreases |Queue(m, c)|
  {
    if Queue(m, c) != [] {
      SignalReaches(m, c);
      SignalShape(m, c);
      hide SignalsReach, Signal, Queue;
      BroadcastElsewhere(Signal(m, c), c, x);
    }
  }

  /** Only waiting and signalling changes the lists of the conditions; a new one is empty as before. */
  lemma ListsUntouched(m: Monitors, v: Move)
    requires CanMove(m, v) && !v.WaitOn? && !v.SignalOne? && !v.SignalAll?
    ensures var n := Next(m, v);
            n.waiters == m.waiters || (v.NewCond? && Queue(m, v.c) == [] && n.waiters == m.waiters[v.c := []])
  {
    hide Down, UpSem, TryDown, InitSem, Step, Enabled, NobodyAt, Me;
  }

  lemma SameQueue(m: Monitors, n: Monitors, c: nat)
    requires n.waiters == m.waiters || exists x :: Queue(m, x) == [] && n.waiters == m.waiters[x := []]
    ensures Queue(n, c) == Queue(m, c)
  {
  }

  /** Moves that are no signal on `c` append their caller to its list if it waits there, and else leave the list as it
      is. */
  lemma QueueMoves(m: Monitors, v: Move, c: nat)
    requires MonInv(m) && CanMove(m, v) && !SignalsOn(v, c)
    ensures Queue(Next(m, v), c) == Queue(m, c) + if v.WaitOn? && v.c == c then [m.k.current] else []
  {
    hide Inv, MonInv, Step, Enabled, SignalsReach;
    match v
    case SignalOne(x, _) =>
      SignalReaches(m, x);
      if Queue(m, x) != [] {
        SignalShape(m, x);
      }
    case SignalAll(x, _) => BroadcastElsewhere(m, x, c);
    case WaitOn(x, l) => WaitShape(m, x, l); hide Wait;
    case _ => hide *; ListsUntouched(m, v); SameQueue(m, Next(m, v), c);
  }

  /** A signal makes the first waiter ready, a broadcast all of them. */
  lemma SignalMoves(m: Monitors, v: Move, c: nat)
    requires MonInv(m) && CanMove(m, v) && SignalsOn(v, c)
    ensures Readied(m, Next(m, v)) + Queue(Next(m, v), c) == Queue(m, c)
    ensures v.SignalOne? ==> |Readied(m, Next(m, v))| == Min(1, |Queue(m, c)|)
    ensures Items(Next(m, v).k, Ready) == Items(m.k, Ready) + Readied(m, Next(m, v))
  {
    hide Inv, MonInv, SignalsReach, Signal, Broadcast, Queue, Items;
    if v.SignalOne? {
      SignalKeeps(m, c);
    } else {
      BroadcastReleasesAll(m, c);
    }
  }

  lemma Balanced(first: seq<Tid>, came: seq<Tid>, x: seq<Tid>, served: seq<Tid>, y: seq<Tid>, q: seq<Tid>, r: seq<Tid>)
    requires first + came == served + q && q + x == y + r
    ensures first + (came + x) == served + y + r
  {
    assert first + (came + x) == first + came + x == served + (q + x);
  }

  /** In every run, those whom signals made ready, followed by those who still wait, are those who came to wait, in
      the order in which they came. */
  lemma {:induction false} FirstComeFirstServed(tr: seq<Monitors>, vs: seq<Move>, n: nat, c: nat)
    requires IsRun(tr, vs) && MonInv(tr[0]) && n < |tr|
    ensures Queue(tr[0], c) + Waited(tr, vs, n, c) == Served(tr, vs, n, c) + Queue(tr[n], c)
  {
    hide MonInv, CanMove, Next, Queue, Readied;
    if n > 0 {
      FirstComeFirstServed(tr, vs, n - 1, c);
      EveryStateSatisfiesInv(tr, vs, n - 1);
      var m, v, r := tr[n - 1], vs[n - 1], tr[n];
      assert CanMove(m, v) && r == Next(m, v);
      var x := if v.WaitOn? && v.c == c then [m.k.current] else [];
      var y := if SignalsOn(v, c) then Readied(m, r) else [];
      if SignalsOn(v, c) {
        SignalMoves(m, v, c);
      } else {
        QueueMoves(m, v, c);
      }
      assert Queue(m, c) + x == y + Queue(r, c);
      Balanced(Queue(tr[0], c), Waited(tr, vs, n - 1, c), x, Served(tr, vs, n - 1, c), y, Queue(m, c), Queue(r, c));
    }
  }

  lemma NextServed(came: seq<Tid>, served: seq<Tid>, r: seq<Tid>, rest: seq<Tid>)
    requires came == served + (r + rest) && |r| == Min(1, |r + rest|)
    ensures r == if |served| < |came| then [came[|served|]] else []
    ensures |served + r| == Min(|served| + 1, |came|)
  {
  }

  /** After i threads were served, the next signal on the condition makes the waiter ready that came as number i,
      whatever happened between; it does nothing when all were served. */
  lemma SignalServesTheNext(tr: seq<Monitors>, vs: seq<Move>, n: nat, c: nat)
    requires IsRun(tr, vs) && MonInv(tr[0]) && n < |vs| && vs[n].SignalOne? && vs[n].c == c
    ensures var came, i := Queue(tr[0], c) + Waited(tr, vs, n, c), |Served(tr, vs, n, c)|;
            && i <= |came|
            && Items(tr[n + 1].k, Ready) == Items(tr[n].k, Ready) + (if i < |came| then [came[i]] else [])
            && |Served(tr, vs, n + 1, c)| == Min(i + 1, |came|)
  {
    FirstComeFirstServed(tr, vs, n, c);
    EveryStateSatisfiesInv(tr, vs, n);
    hide MonInv, CanMove, Next, Queue, Readied, Items, Min;
    SignalMoves(tr[n], vs[n], c);
    NextServed(Queue(tr[0], c) + Waited(tr, vs, n, c), Served(tr, vs, n, c), Readied(tr[n], tr[n + 1]), Queue(tr[n + 1], c));
  }
}

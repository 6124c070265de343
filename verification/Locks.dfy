/** Locks and condition variables on the kernel object: each segment of a call, up to the next point where it may
    switch threads, is proved to be one move of `Monitor`. */
module Locks {
  import opened Basics
  import opened Sched
  import opened SchedInv
  import opened SchedEffects
  import opened Monitor
  import opened MonitorInv
  import opened MonitorRuns
  import K = Kernel

  class LockKernel {
    const k: K.Kernel
    var holder: map<nat, Option<Tid>>
    var waiters: map<nat, seq<Tid>>
    var stage: map<Tid, Stage>
    ghost var inside: map<nat, set<Tid>>

    ghost function Value(): Monitors
      reads this, k
    {
      Monitors(k.Value(), holder, waiters, stage, inside)
    }

    ghost predicate Valid()
      reads this, k
    {
      MonInv(Value())
    }

    constructor ()
      ensures Valid() && Value() == Monitor.START && fresh(k)
    {
      k := new K.Kernel();
      holder := map[];
      waiters := map[];
      stage := map[];
      inside := map[];
      new;
      MonitorRuns.StartInv();
    }

    function Waiting(c: nat): (q: seq<Tid>)
      reads this, k
      ensures q == Queue(Value(), c)
    {
      if c in waiters then waiters[c] else []
    }

    method LockInit(l: nat)
      requires Valid() && CanMove(Value(), NewLock(l))
      modifies this, k
      ensures Valid() && Value() == Next(old(Value()), NewLock(l))
    {
      hide MonInv, Inv, Enabled, InitSem, Step, Items, Th, NobodyAt;
      ghost var m := Value();
      MoveKeepsInv(m, NewLock(l));
      NewLockSteps(m, l);
      holder := holder[l := None];
      inside := inside[l := {}];
      k.SemInit(LockSem(l), 1);
    }

    method CondInit(c: nat)
      requires Valid() && CanMove(Value(), NewCond(c))
      modifies this, k
      ensures Valid() && Value() == Next(old(Value()), NewCond(c))
    {
      MoveKeepsInv(Value(), NewCond(c));
      hide MonInv;
      waiters := waiters[c := []];
    }

    /** `sem_down(&lock->sem)` and `lock->holder = current`, on the call of `lock_acquire` (`wait` is `Acquiring`), at
        the end of `cond_wait` (`wait` is `Reacquiring`), or when woken there; true when the caller owns the lock. */
    method Acquires(l: nat, wait: Stage) returns (got: bool)
      requires MayTest(Value(), l) && (wait == Acquiring(l) || (wait.Reacquiring? && wait.lock == l))
      modifies this, k
      ensures Valid() && LockSem(l) in old(k.sems) && Value() == TryLock(old(Value()), l, wait) && (got <==> old(k.sems[LockSem(l)]) > 0)
      ensures got ==> l in holder && holder[l] == Some(old(k.current))
    {
      hide MonInv, Inv, Enabled, Down, Step, Items, Th, MayTest;
      ghost var m := Value();
      var me := k.current;
      TestKeeps(m, l, wait);
      TestSteps(m, l);
      got := k.SemDown(LockSem(l));
      if !got {
        stage := stage[me := wait];
        return;
      }
      holder := holder[l := Some(me)];
      inside := inside[l := Inside(m, l) + {me}];
      stage := stage[me := Outside];
    }

    method LockTryAcquire(l: nat) returns (success: bool)
      requires Valid() && CanMove(Value(), TryIt(l))
      modifies this, k
      ensures Valid() && Value() == Next(old(Value()), TryIt(l)) && LockSem(l) in old(k.sems) && (success <==> old(k.sems[LockSem(l)]) > 0)
    {
      hide MonInv, Inv, Enabled, TryDown, Step, Items, Th;
      ghost var m := Value();
      var me := k.current;
      MoveKeepsInv(m, TryIt(l));
      TrySteps(m, l);
      success := k.SemTryDown(LockSem(l));
      if success {
        holder := holder[l := Some(me)];
        inside := inside[l := Inside(m, l) + {me}];
        stage := stage[me := Outside];
      }
    }

    method LockRelease(l: nat)
      requires Valid() && CanMove(Value(), LetGo(l))
      modifies this, k
      ensures Valid() && Value() == Next(old(Value()), LetGo(l))
    {
      hide MonInv, Inv, Enabled, UpSem, Step, Items, Th;
      ghost var m := Value();
      MoveKeepsInv(m, LetGo(l));
      ReleaseSteps(m, l);
      holder := holder[l := None];
      inside := inside[l := Inside(m, l) - {k.current}];
      k.SemUp(LockSem(l));
    }

    /** `cond_wait` up to its `sem_down`. */
    method CondWait(c: nat, l: nat)
      requires Valid() && CanMove(Value(), WaitOn(c, l))
      modifies this, k
      ensures Valid() && Value() == Next(old(Value()), WaitOn(c, l))
    {
      hide MonInv, Inv, Enabled, UpSem, Down, InitSem, Step, Items, Th, SignalsReach;
      ghost var m := Value();
      var me := k.current;
      MoveKeepsInv(m, WaitOn(c, l));
      WaitSteps(m, c, l);
      k.SemInit(WaiterSem(me), 0);
      waiters := waiters[c := Waiting(c) + [me]];
      holder := holder[l := None];
      inside := inside[l := Inside(m, l) - {me}];
      k.SemUp(LockSem(l));
      var got := k.SemDown(WaiterSem(me));
      stage := stage[me := Sleeping(l, c)];
    }

    /** The waiter runs again in its `sem_down`; with the token it goes on to `Acquires`. */
    method WokenInWait(c: nat, l: nat) returns (signalled: bool)
      requires Valid() && k.status == Live && StageOf(Value(), k.current) == Sleeping(l, c)
      modifies this, k
      ensures Valid() && WaiterSem(old(k.current)) in old(k.sems) && Value() == WakeUp(old(Value()), c, l)
      ensures signalled <==> old(k.sems[WaiterSem(k.current)]) > 0
    {
      hide MonInv, Inv, Enabled, Down, Step, Items, Th;
      ghost var m := Value();
      var me := k.current;
      WokenSteps(m, c, l);
      signalled := k.SemDown(WaiterSem(me));
      if signalled {
        stage := stage[me := Reacquiring(l, c)];
      }
    }

    method CondSignal(c: nat)
      requires Valid() && k.status == Live && Me(k.Value()).blk == Running
      modifies this, k
      ensures Valid() && k.status == Live && Me(k.Value()).blk == Running && SignalsReach(old(Value()), c)
      ensures (Queue(old(Value()), c) != [] ==> WaiterSem(Queue(old(Value()), c)[0]) in old(k.sems)) && Value() == Signal(old(Value()), c)
      ensures Queue(old(Value()), c) != [] ==> Queue(Value(), c) == Queue(old(Value()), c)[1..]
    {
      hide MonInv, Inv, Enabled, UpSem, Step, Items, Th, SignalsReach, Me;
      ghost var m := Value();
      SignalSteps(m, c);
      if Waiting(c) != [] {
        var t := Waiting(c)[0];
        waiters := waiters[c := Waiting(c)[1..]];
        k.SemUp(WaiterSem(t));
      }
    }

    /** The loop of `cond_broadcast`. */
    method CondBroadcast(c: nat)
      requires Valid() && k.status == Live && Me(k.Value()).blk == Running
      modifies this, k
      ensures Valid() && SignalsReach(old(Value()), c) && Value() == Broadcast(old(Value()), c)
      ensures Queue(Value(), c) == [] && Items(k.Value(), Ready) == Items(old(k.Value()), Ready) + old(Waiting(c))
    {
      hide MonInv, Inv, SignalsReach, Me, Signal, Items, Queue;
      ghost var m := Value();
      BroadcastReleasesAll(m, c);
      while Waiting(c) != []
        invariant Valid() && k.status == Live && Me(k.Value()).blk == Running
        invariant SignalsReach(Value(), c) && Broadcast(Value(), c) == Broadcast(m, c)
        decreases |Waiting(c)|
      {
        CondSignal(c);
        WaitersAreReached(Value(), c);
      }
    }
  }

  lemma NewLockSteps(m: Monitors, l: nat)
    requires MonInv(m) && CanMove(m, NewLock(l))
    ensures Inv(m.k) && Enabled(m.k, InitOp(LockSem(l), 1))
            && Step(m.k, InitOp(LockSem(l), 1)) == InitSem(m.k, LockSem(l), 1)
  {
    At(m, l, m.k.current, 0);
    LockIsIdle(m, l);
    hide MonInv, Inv, InitSem;
  }

  lemma TestSteps(m: Monitors, l: nat)
    requires MayTest(m, l)
    ensures LockSem(l) in m.k.sems && Inv(m.k) && Enabled(m.k, DownOp(LockSem(l)))
            && Step(m.k, DownOp(LockSem(l))) == Down(m.k, LockSem(l))
  {
    hide Inv, Down, LockOk, CondOk;
    At(m, l, m.k.current, 0);
  }

  lemma TrySteps(m: Monitors, l: nat)
    requires MonInv(m) && CanMove(m, TryIt(l))
    ensures LockSem(l) in m.k.sems && Inv(m.k) && Enabled(m.k, TryDownOp(LockSem(l)))
            && Step(m.k, TryDownOp(LockSem(l))) == TryDown(m.k, LockSem(l))
    ensures m.k.sems[LockSem(l)] == 0 ==> TryDown(m.k, LockSem(l)) == m.k
  {
    hide Inv, LockOk, CondOk;
    At(m, l, m.k.current, 0);
  }

  lemma ReleaseSteps(m: Monitors, l: nat)
    requires MonInv(m) && CanMove(m, LetGo(l))
    ensures Inv(m.k) && Enabled(m.k, UpOp(LockSem(l))) && Step(m.k, UpOp(LockSem(l))) == UpSem(m.k, LockSem(l))
  {
    hide Inv, UpSem, LockOk, CondOk;
    At(m, l, m.k.current, 0);
  }

  lemma WaitSteps(m: Monitors, c: nat, l: nat)
    requires MonInv(m) && CanMove(m, WaitOn(c, l))
    ensures LockSem(l) in m.k.sems
    ensures var s := WaiterSem(m.k.current); var a := InitSem(m.k, s, 0);
            && Inv(m.k) && Enabled(m.k, InitOp(s, 0)) && Step(m.k, InitOp(s, 0)) == a && a.current == m.k.current
            && Enabled(a, UpOp(LockSem(l))) && Step(a, UpOp(LockSem(l))) == UpSem(a, LockSem(l))
            && var b := UpSem(a, LockSem(l));
               b.current == m.k.current && Enabled(b, DownOp(s)) && Step(b, DownOp(s)) == Down(b, s)
  {
    WaitNeeds(m, c, l);
    hide *;
    ThreeSteps(m.k, WaiterSem(m.k.current), LockSem(l));
  }

  lemma ThreeSteps(st: State, s: SemId, lock: SemId)
    requires Inv(st) && Enabled(st, InitOp(s, 0)) && lock in st.sems && lock != s
    ensures var a := InitSem(st, s, 0);
            && Step(st, InitOp(s, 0)) == a && a.current == st.current
            && Enabled(a, UpOp(lock)) && Step(a, UpOp(lock)) == UpSem(a, lock)
            && var b := UpSem(a, lock); b.current == st.current && Enabled(b, DownOp(s)) && Step(b, DownOp(s)) == Down(b, s)
  {
    hide Inv, UpSem, Down, Idle;
    WaitReleases(st, s, lock);
  }

  lemma WokenSteps(m: Monitors, c: nat, l: nat)
    requires MonInv(m) && m.k.status == Live && StageOf(m, m.k.current) == Sleeping(l, c)
    ensures var s := WaiterSem(m.k.current);
            && s in m.k.sems && Inv(m.k) && Enabled(m.k, DownOp(s)) && Step(m.k, DownOp(s)) == Down(m.k, s) && MonInv(WakeUp(m, c, l))
  {
    hide Inv, MonInv, Down, LockOk, CondOk, WakeUp;
    WakeUpKeeps(m, c, l);
    At(m, l, m.k.current, c);
  }

  lemma SignalSteps(m: Monitors, c: nat)
    requires MonInv(m) && m.k.status == Live && Me(m.k).blk == Running
    ensures Inv(m.k) && SignalsReach(m, c)
    ensures (Queue(m, c) != [] ==> WaiterSem(Queue(m, c)[0]) in m.k.sems)
    ensures var n := Signal(m, c); MonInv(n) && n.k.status == Live && Me(n.k).blk == Running
    ensures Queue(m, c) != [] ==>
              var s := WaiterSem(Queue(m, c)[0]);
              Enabled(m.k, UpOp(s)) && Step(m.k, UpOp(s)) == UpSem(m.k, s) && Queue(Signal(m, c), c) == Queue(m, c)[1..]
  {
    hide *;
    SignalKeeps(m, c);
    SignalReaches(m, c);
    At(m, 0, m.k.current, c);
    if Queue(m, c) != [] {
      UpIs(m.k, WaiterSem(Queue(m, c)[0]));
    }
  }
}

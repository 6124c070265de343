/** What one scheduler operation does to calls in progress and to semaphore values, for the layers above. */
module SchedEffects {
  import opened Basics
  import opened Sched
  import opened SchedInv

  /** Liveness and the blocking call of every thread but the running one are as before. */
  ghost predicate OthersKept(st: State, st': State) {
    forall t :: t != st.current ==> Th(st', t).alive == Th(st, t).alive && Th(st', t).blk == Th(st, t).blk
  }

  lemma BlockEffect(st: State, b: Blocked, l: ListId)
    ensures var r := Block(st, b, l);
            && OthersKept(st, r) && r.sems == st.sems && r.h.exits == st.h.exits
            && Th(r, st.current).blk == b && Th(r, st.current).alive == Me(st).alive
  {
    hide Block, Parked, Run, Items, Th;
    BlockIsParked(st, b, l);
    ParkedShape(st, b, l);
    var p := Parked(st, b, l);
    if Items(p, Ready) != [] {
      RunShape(p);
    } else {
      RunIsStuck(p);
    }
  }

  lemma RunIsStuck(st: State)
    requires Items(st, Ready) == []
    ensures Run(st) == st.(status := Deadlocked) && forall t :: Th(Run(st), t) == Th(st, t)
  {
  }

  /** `sem_down` on a semaphore with a token. */
  lemma DownTakes(st: State, s: SemId)
    requires Inv(st) && Enabled(st, DownOp(s)) && st.sems[s] > 0
    ensures var d := Down(st, s);
            && Inv(d) && d.status == Live && d.current == st.current && d.sems == st.sems[s := st.sems[s] - 1]
            && OthersKept(st, d) && Me(d).alive && Me(d).blk == Running
  {
    hide Inv, TakeToken, SetBlk, Items, Th;
    StepKeepsInv(st, DownOp(s));
    CurrentIsAlive(st);
    TakeShape(st, s);
  }

  lemma CurrentIsAlive(st: State)
    requires Inv(st) && st.status == Live
    ensures Me(st).alive && st.current in st.threads
  {
  }

  /** `sem_down` on a semaphore without one. */
  lemma DownBlocks(st: State, s: SemId)
    requires Inv(st) && Enabled(st, DownOp(s)) && st.sems[s] == 0
    ensures var d := Down(st, s);
            && Inv(d) && d.sems == st.sems && OthersKept(st, d)
            && Th(d, st.current).blk == OnSem(s) && Th(d, st.current).alive
  {
    hide Inv, Block;
    StepKeepsInv(st, DownOp(s));
    CurrentIsAlive(st);
    BlockEffect(st, OnSem(s), WaitersOf(s));
  }

  lemma UpEffect(st: State, s: SemId)
    requires Inv(st) && Enabled(st, UpOp(s))
    ensures var u := UpSem(st, s);
            && Inv(u) && u.status == Live && u.current == st.current && u.sems == st.sems[s := st.sems[s] + 1]
            && forall t :: Th(u, t).alive == Th(st, t).alive && Th(u, t).blk == Th(st, t).blk
  {
    hide Inv, Items, Th;
    UpKeeps(st, s);
    AddTokenShape(st, s);
    if Items(st, WaitersOf(s)) != [] {
      WakeShape(AddToken(st, s), WaitersOf(s));
    }
  }

  lemma InitEffect(st: State, s: SemId, v: nat)
    requires Inv(st) && Enabled(st, InitOp(s, v))
    ensures var i := InitSem(st, s, v);
            && Inv(i) && i.status == Live && i.current == st.current && i.sems == st.sems[s := v] && i.threads == st.threads
  {
    StepKeepsInv(st, InitOp(s, v));
  }

  ghost predicate Mentions(op: Op, s: SemId) {
    match op
    case InitOp(x, v) => x == s
    case DownOp(x) => x == s
    case TryDownOp(x) => x == s
    case UpOp(x) => x == s
    case _ => false
  }

  lemma ExitEffect(st: State, code: int)
    requires Inv(st) && st.status == Live && Me(st).blk == Running
    ensures var e := Exit(st, code);
            && e.sems == st.sems && Th(e, st.current).blk == Running
            && (forall t :: t != st.current && Th(st, t).alive ==> Th(e, t).alive && Th(e, t).blk == Th(st, t).blk)
            && (forall t :: Th(e, t).blk == Th(st, t).blk || Th(e, t).blk == Running)
  {
    CurrentIsAlive(st);
    hide Exit, Left, WakeAllJoiner, Depart, Items, Th, Places, ListsOk, SemsOk, AliveSet;
    LeftShape(st, code);
    FreeIsDead(st);
    var l, w := Left(st, code), WakeAllJoiner(Left(st, code));
    WakeAllEffect(l);
    DepartEffect(w);
    assert Exit(st, code) == Depart(w) by {
      ExitIs(st, code);
    }
  }

  lemma WakeAllEffect(e: State)
    ensures var w := WakeAllJoiner(e);
            w.sems == e.sems && forall t :: Th(w, t).alive == Th(e, t).alive && Th(w, t).blk == Th(e, t).blk
  {
    if Items(e, AllJoin) != [] && e.num == 2 {
      WakeShape(e, AllJoin);
    }
  }

  lemma DepartEffect(w: State)
    ensures var d := Depart(w);
            d.sems == w.sems && forall t :: Th(d, t).alive == Th(w, t).alive && Th(d, t).blk == Th(w, t).blk
  {
    if w.num > 1 {
      var d := w.(num := w.num - 1);
      assert forall t :: Th(d, t) == Th(w, t);
      assert Items(d, Ready) == Items(w, Ready);
      if Items(d, Ready) != [] {
        RunShape(d);
      } else {
        RunIsStuck(d);
      }
    }
  }

  /** A live thread other than the running one keeps its blocking call, and an operation brings nobody to a semaphore
      but its own. */
  lemma StepEffect(st: State, op: Op)
    requires Inv(st) && Enabled(st, op)
    ensures var r := Step(st, op);
            && (forall t :: t != st.current && Th(st, t).alive ==> Th(r, t).alive && Th(r, t).blk == Th(st, t).blk)
            && (forall t :: Th(r, t).blk == Th(st, t).blk || Th(r, t).blk == Running
                            || (t == st.current && match op
                                                   case DownOp(s) => Th(r, t).blk == OnSem(s)
                                                   case _ => !Th(r, t).blk.OnSem?))
            && (forall s :: s in st.sems && !Mentions(op, s) ==> s in r.sems && r.sems[s] == st.sems[s])
  {
    hide Inv, Block, Exit;
    match op
    case NewOp(args, memory) => NewEffect(st, args, memory);
    case ExitOp(code) => ExitEffect(st, code);
    case JoinOp(t) => BlockEffect(st, OnThread(t), JoinOf(t));
    case JoinAllOp => BlockEffect(st, OnAll, AllJoin);
    case ResumeOp => CurrentIsAlive(st);
    case PauseOp => BlockEffect(st, Running, Ready);
    case InitOp(s, v) =>
    case DownOp(s) =>
      if st.sems[s] == 0 {
        DownBlocks(st, s);
      } else {
        DownTakes(st, s);
      }
    case TryDownOp(s) =>
    case UpOp(s) => UpEffect(st, s);
  }

  lemma NewEffect(st: State, args: seq<int>, memory: bool)
    requires Inv(st) && st.status == Live
    ensures var r := New(st, args, memory);
            && r.sems == st.sems && r.current == st.current
            && (forall t :: Th(st, t).alive ==> Th(r, t).alive && Th(r, t).blk == Th(st, t).blk)
            && (forall t :: Th(r, t).blk == Th(st, t).blk || Th(r, t).blk == Running)
  {
    hide SemsOk, AliveSet, PlaceOk, Spawn, Release, Items;
    ReleaseShape(st);
    FreeIsDead(st);
    if memory {
      NextIsNew(st);
      SpawnShape(Release(st), args);
    }
  }

  // ---------------------------------------------------------------- sleepers stay asleep

  /** Every thread asleep on a semaphore in `st` still is in `r`, except on semaphore `s`. */
  ghost predicate SleepersStay(st: State, r: State, but: Option<SemId>) {
    forall t, s :: t != st.current && Th(st, t).inList == Some(WaitersOf(s)) && but != Some(s) ==> Th(r, t).inList == Some(WaitersOf(s))
  }

  lemma BlockLeavesSleepers(st: State, b: Blocked, l: ListId)
    requires ListsOk(st)
    ensures SleepersStay(st, Block(st, b, l), None)
  {
    hide Block, Parked, Run, Items, Th;
    BlockIsParked(st, b, l);
    ParkedShape(st, b, l);
    var p := Parked(st, b, l);
    if Items(p, Ready) != [] {
      RunShape(p);
      ReadyIsNoSleeper(st);
    } else {
      RunIsStuck(p);
    }
  }

  lemma ReadyIsNoSleeper(st: State)
    requires ListsOk(st)
    ensures Items(st, Ready) != [] ==> Th(st, Items(st, Ready)[0]).inList == Some(Ready)
  {
    assert Items(st, Ready) != [] ==> Items(st, Ready)[0] in Items(st, Ready);
  }

  lemma UpLeavesSleepers(st: State, s: SemId)
    requires ListsOk(st) && s in st.sems
    ensures SleepersStay(st, UpSem(st, s), Some(s))
    ensures var w := Items(st, WaitersOf(s)); forall t :: t !in w ==> Th(UpSem(st, s), t) == Th(st, t)
    ensures var w := Items(st, WaitersOf(s));
            w != [] ==> && Th(UpSem(st, s), w[0]).inList == Some(Ready) && Items(UpSem(st, s), Ready) == Items(st, Ready) + [w[0]]
                        && Items(UpSem(st, s), WaitersOf(s)) == w[1..]
    ensures forall l :: l != Ready && l != WaitersOf(s) ==> Items(UpSem(st, s), l) == Items(st, l)
  {
    AddTokenShape(st, s);
    hide Items, Th;
    var w := Items(st, WaitersOf(s));
    if w != [] {
      WakeShape(AddToken(st, s), WaitersOf(s));
      assert w[0] in w;
    }
  }

  lemma ExitLeavesSleepers(st: State, code: int)
    requires Inv(st) && st.status == Live && Me(st).blk == Running
    ensures SleepersStay(st, Exit(st, code), None)
  {
    LeftSettled(st, code);
    CurrentIsAlive(st);
    ExitIs(st, code);
    hide Exit, Left, WakeAllJoiner, Depart, Items, Th, SemsOk, AliveSet;
    LeftShape(st, code);
    FreeIsDead(st);
    var l := Left(st, code);
    WakeAllJoinerSettled(l);
    LeftLeavesSleepers(st, code);
    WakeAllLeavesSleepers(l);
    DepartLeavesSleepers(WakeAllJoiner(l));
    SleepersChain(st, l, WakeAllJoiner(l), Exit(st, code));
  }

  lemma SleepersChain(st: State, a: State, b: State, c: State)
    requires SleepersStay(st, a, None) && a.current == st.current && b.current == st.current
    requires SleepersStay(a, b, None) && SleepersStay(b, c, None)
    ensures SleepersStay(st, c, None)
  {
  }

  lemma CurrentIsUnlisted(st: State)
    requires Inv(st) && st.status == Live
    ensures Me(st).inList == None && Me(st).alive
  {
  }

  lemma JoinersAreListed(st: State)
    requires Inv(st) && st.status == Live
    ensures forall t :: t in Items(st, JoinOf(st.current)) ==> Th(st, t).inList == Some(JoinOf(st.current))
  {
    PlacesOf(st);
    hide Inv, Places, Items, Th, NoDup;
  }

  lemma LeftLeavesSleepers(st: State, code: int)
    requires Inv(st) && st.status == Live
    ensures SleepersStay(st, Left(st, code), None) && Left(st, code).current == st.current
  {
    PlacesOf(st);
    FreeAreListed(st);
    CurrentIsAlive(st);
    CurrentIsUnlisted(st);
    JoinersAreListed(st);
    hide Inv, ListsOk, Places, Left, Items, Th;
    LeftShape(st, code);
    MeIs(st);
  }

  lemma WakeAllLeavesSleepers(e: State)
    requires ListsOk(e)
    ensures SleepersStay(e, WakeAllJoiner(e), None) && WakeAllJoiner(e).current == e.current
  {
    if Items(e, AllJoin) != [] && e.num == 2 {
      assert Items(e, AllJoin)[0] in Items(e, AllJoin);
      WakeShape(e, AllJoin);
    }
  }

  lemma DepartLeavesSleepers(w: State)
    requires ListsOk(w)
    ensures SleepersStay(w, Depart(w), None)
  {
    if w.num > 1 {
      var d := w.(num := w.num - 1);
      assert forall t :: Th(d, t) == Th(w, t);
      assert Items(d, Ready) == Items(w, Ready);
      ReadyIsNoSleeper(w);
      if Items(d, Ready) != [] {
        RunShape(d);
      } else {
        RunIsStuck(d);
      }
    }
  }

  ghost function SemOf(op: Op): Option<SemId> {
    match op
    case InitOp(s, _) => Some(s)
    case DownOp(s) => Some(s)
    case TryDownOp(s) => Some(s)
    case UpOp(s) => Some(s)
    case _ => None
  }

  lemma StepLeavesSleepers(st: State, op: Op)
    requires Inv(st) && Enabled(st, op)
    ensures SleepersStay(st, Step(st, op), SemOf(op))
  {
    CurrentIsAlive(st);
    hide Block, Exit, SemsOk, AliveSet, Places, UpSem;
    match op
    case NewOp(args, memory) => NewLeavesSleepers(st, args, memory);
    case ExitOp(code) => ExitLeavesSleepers(st, code);
    case JoinOp(t) => BlockLeavesSleepers(st, OnThread(t), JoinOf(t));
    case JoinAllOp => BlockLeavesSleepers(st, OnAll, AllJoin);
    case PauseOp => BlockLeavesSleepers(st, Running, Ready);
    case DownOp(s) => BlockLeavesSleepers(st, OnSem(s), WaitersOf(s));
    case UpOp(s) => UpLeavesSleepers(st, s);
    case _ =>
  }

  lemma FreeAreListed(st: State)
    requires Inv(st) && st.status == Live
    ensures forall t :: t in Items(st, Free) ==> Th(st, t).inList == Some(Free)
  {
    PlacesOf(st);
    hide Inv, Places, Items, Th, NoDup;
  }

  lemma NewLeavesSleepers(st: State, args: seq<int>, memory: bool)
    requires Inv(st) && st.status == Live
    ensures SleepersStay(st, New(st, args, memory), None)
  {
    PlacesOf(st);
    FreeAreListed(st);
    hide Inv, ListsOk, Places, Spawn, Release, Items, Th;
    NextIsNew(st);
    FreshIsNobody(st, st.next);
    ReleaseShape(st);
    ReleaseNext(st);
    SpawnShape(Release(st), args);
  }

  lemma PlacesOf(st: State)
    requires Inv(st) && st.status == Live
    ensures Places(st) && ListsOk(st)
  {
  }

  lemma FreshIsNobody(st: State, t: Tid)
    requires t !in st.threads
    ensures Th(st, t) == NOBODY
  {
  }

  lemma ReleaseNext(st: State)
    ensures Release(st).next == st.next && Release(st).current == st.current
  {
  }

  /** A thread that blocks on a list other than the ready list is on that list afterwards. */
  lemma BlockParks(st: State, b: Blocked, l: ListId)
    requires Inv(st) && st.status == Live && l != Ready
    ensures Th(Block(st, b, l), st.current).inList == Some(l)
    ensures Items(Block(st, b, l), l) == Items(st, l) + [st.current]
  {
    PlacesOf(st);
    NotOnItsList(st, Ready);
    hide Block, Parked, Run, Items, Th, Inv;
    BlockIsParked(st, b, l);
    ParkedShape(st, b, l);
    var p := Parked(st, b, l);
    if Items(p, Ready) != [] {
      RunShape(p);
      assert Items(p, Ready)[0] in Items(p, Ready);
    } else {
      RunIsStuck(p);
      RunStuckItems(p, l);
    }
  }

  lemma RunStuckItems(st: State, l: ListId)
    requires Items(st, Ready) == []
    ensures Items(Run(st), l) == Items(st, l)
  {
  }

  lemma MeIs(st: State)
    ensures Me(st) == Th(st, st.current)
  {
    hide Th;
  }

  lemma TryTakes(st: State, s: SemId)
    requires Inv(st) && Enabled(st, TryDownOp(s)) && st.sems[s] > 0
    ensures var d := TryDown(st, s);
            && Inv(d) && d.status == Live && d.current == st.current && d.sems == st.sems[s := st.sems[s] - 1] && d.threads == st.threads
            && d.lists == st.lists
  {
    StepKeepsInv(st, TryDownOp(s));
  }

  lemma SameThreadsStay(st: State, r: State, but: Option<SemId>)
    requires r.threads == st.threads
    ensures OthersKept(st, r) && SleepersStay(st, r, but) && forall t :: Th(r, t) == Th(st, t)
  {
  }

  lemma StayBut(st: State, r: State, s: SemId)
    requires SleepersStay(st, r, None)
    ensures SleepersStay(st, r, Some(s))
  {
  }

  lemma SameCalls(st: State, u: State)
    requires u.current == st.current && forall t :: Th(u, t).alive == Th(st, t).alive && Th(u, t).blk == Th(st, t).blk
    ensures OthersKept(st, u) && Me(u).blk == Me(st).blk
  {
    hide Th;
  }

  lemma UpIs(st: State, s: SemId)
    requires st.status == Live && Me(st).blk == Running && s in st.sems
    ensures Enabled(st, UpOp(s)) && Step(st, UpOp(s)) == UpSem(st, s)
  {
    hide UpSem;
  }

  lemma DownIs(st: State, s: SemId)
    requires Enabled(st, DownOp(s))
    ensures s in st.sems && Step(st, DownOp(s)) == Down(st, s)
  {
    hide Down;
  }

  lemma NewShape(st: State, args: seq<int>)
    requires Inv(st) && st.status == Live
    ensures var n := New(st, args, true);
            && Items(n, Ready) == Items(st, Ready) + [st.next] && Items(n, AllJoin) == Items(st, AllJoin)
            && (forall u :: Th(n, u) == if u == st.next then Thread(true, Some(Ready), 0, args, Running)
                                        else if u in Items(st, Free) then NOBODY else Th(st, u))
            && n.status == Live && n.current == st.current && n.num == st.num + 1
  {
    hide Inv, Items, Th, Spawn, Release;
    ReleaseShape(st);
    SpawnShape(Release(st), args);
  }

  lemma DepartShape(w: State)
    requires w.num > 1 && Items(w, Ready) != []
    ensures var d, t := Depart(w), Items(w, Ready)[0];
            && (forall m :: Items(d, m) == if m == Ready then Items(w, Ready)[1..] else Items(w, m))
            && (forall u :: Th(d, u) == if u == t then Th(w, t).(inList := None) else Th(w, u))
            && d.current == t && d.status == w.status
  {
    var d := w.(num := w.num - 1);
    assert forall u :: Th(d, u) == Th(w, u);
    assert forall m :: Items(d, m) == Items(w, m);
    hide Items, Th, Run;
    RunShape(d);
  }

  lemma DownIsBlock(st: State, s: SemId)
    requires s in st.sems && st.sems[s] == 0
    ensures Down(st, s) == Block(st, OnSem(s), WaitersOf(s))
  {
    hide Block;
  }
}

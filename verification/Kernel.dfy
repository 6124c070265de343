/** The thread kernel as the C code has it: global state updated in place, every operation proved to be one step of
    `Sched`.

    A call that blocks ends where it calls `run`; what the thread does when it is switched back in is a method of its
    own (`SemDown` again for the loop of `sem_down`, `JoinReturns` for the tail of `thread_join`). */
module Kernel {
  import opened Basics
  import opened Sched
  import opened SchedInv
  import opened SchedEffects
  import opened SchedOps
  import opened SchedRuns

  class Kernel {
    var status: Status
    var current: Tid
    var numThrs: nat
    var next: Tid
    var threads: map<Tid, Thread>
    var lists: map<ListId, seq<Tid>>
    var sems: map<SemId, nat>
    ghost var h: History

    ghost function Value(): State
      reads this
    {
      State(status, current, numThrs, next, threads, lists, sems, h)
    }

    ghost predicate Valid()
      reads this
    {
      Inv(Value())
    }

    /** `thread_init`. */
    constructor ()
      ensures Value() == INITIAL && Valid()
    {
      status := Live;
      current := ROOT;
      numThrs := 1;
      next := 1;
      threads := map[ROOT := Thread(true, None, 0, [], Running)];
      lists := map[];
      sems := map[];
      h := History(0, map[], map[], map[], map[]);
      new;
      InitialInv();
    }

    function ListOf(l: ListId): (s: seq<Tid>)
      reads this
      ensures s == Items(Value(), l)
    {
      if l in lists then lists[l] else []
    }

    // -------------------------------------------------------------- get, put, run, release

    /** The precondition includes the assertion that `in_list` names this list. */
    method Get(l: ListId) returns (t: Tid)
      requires ListOf(l) != [] && ListOf(l)[0] in threads && threads[ListOf(l)[0]].inList == Some(l)
      modifies this
      ensures t == old(ListOf(l)[0]) && Value() == Sched.Get(old(Value()), l)
    {
      t := ListOf(l)[0];
      lists := lists[l := ListOf(l)[1..]];
      threads := threads[t := threads[t].(inList := None)];
    }

    /** The precondition includes the assertion that the thread is on no list. */
    method Put(t: Tid, l: ListId)
      requires t in threads && threads[t].inList == None
      modifies this
      ensures Value() == Sched.Put(old(Value()), t, l)
    {
      threads := threads[t := threads[t].(inList := Some(l))];
      lists := lists[l := ListOf(l) + [t]];
    }

    method Run()
      requires ListOf(Ready) != [] ==> ListOf(Ready)[0] in threads && threads[ListOf(Ready)[0]].inList == Some(Ready)
      modifies this
      ensures Value() == Sched.Run(old(Value()))
    {
      if ListOf(Ready) == [] {
        status := Deadlocked;
      } else {
        current := Get(Ready);
        h := h.(runs := h.runs + 1);
      }
    }

    method Release()
      requires NoDup(ListOf(Free)) && forall t :: t in ListOf(Free) ==> t in threads
      modifies this
      ensures Value() == Sched.Release(old(Value()))
    {
      ghost var start := Value();
      while ListOf(Free) != []
        invariant NoDup(ListOf(Free)) && forall t :: t in ListOf(Free) ==> t in threads
        invariant Sched.Release(Value()) == Sched.Release(start)
        decreases |ListOf(Free)|
      {
        ghost var before := Value();
        var t := ListOf(Free)[0];
        lists := lists[Free := ListOf(Free)[1..]];
        threads := threads - {t};
        FreeOneMore(before, Value());
      }
    }

    // -------------------------------------------------------------- threads

    /** The argument bytes are copied into the new thread; without memory only the freed threads are released. */
    method ThreadNew(args: seq<int>, memory: bool) returns (t: Option<Tid>)
      requires Valid() && Enabled(Value(), NewOp(args, memory))
      modifies this
      ensures Value() == Step(old(Value()), NewOp(args, memory)) && Valid()
      ensures t == if memory then Some(old(next)) else None
      ensures memory ==> Th(Value(), old(next)).args == args && old(next) !in old(threads)
    {
      hide Inv, Enabled, Step, Sched.Release, Places, ListsOk;
      StepKeepsInv(Value(), NewOp(args, memory));
      NewStep(Value(), args, memory);
      ReleaseShape(Value());
      FreeListIsPlain(Value());
      CurrentSettled(Value());
      NextIsNew(Value());
      Release();
      if !memory {
        return None;
      }
      var n := next;
      threads := threads[n := Thread(true, None, 0, args, Running)];
      next := next + 1;
      numThrs := numThrs + 1;
      Put(n, Ready);
      t := Some(n);
    }

    /** `thread_exit`; the assertion in it is proved where it stands. */
    method ThreadExit(code: int)
      requires Valid() && Enabled(Value(), ExitOp(code))
      modifies this
      ensures Value() == Step(old(Value()), ExitOp(code)) && Valid()
      ensures status == Halted <==> old(AliveSet(Value())) == {old(current)}
      ensures status == Live <==> old(ListOf(Ready) != [] || ListOf(JoinOf(current)) != []
                                      || (ListOf(AllJoin) != [] && numThrs == 2))
      ensures numThrs == old(numThrs) - 1 && AliveSet(Value()) == old(AliveSet(Value())) - {old(current)}
    {
      hide Inv, Step, AliveSet, Left, Sched.Leave, WakeJoiners, WakeAllJoiner, Depart;
      ghost var start := Value();
      StepKeepsInv(start, ExitOp(code));
      ExitEnds(start, code);
      ExitBuriesTheCaller(start, code);
      LeaveFacts(start, code);
      ExitStep(start, code);
      Leaves(code);
      WakesJoiners(code);
      FinishesExit(start, code);
    }

    /** `thread_exit` after the loop. */
    method FinishesExit(ghost start: State, code: int)
      requires Inv(start) && start.status == Live && Me(start).blk == Running && Value() == Sched.Left(start, code)
      modifies this
      ensures Value() == Depart(WakeAllJoiner(Sched.Left(start, code)))
    {
      hide Sched.Left, Inv, Sched.Get, Sched.Put, Sched.Run;
      LeftFacts(start, code);
      LeaveFacts(start, code);
      LeftNumber(start, code);
      WakeHistory(Sched.Left(start, code));
      if ListOf(AllJoin) != [] && numThrs == 2 {
        assert ListOf(Ready) == [];
        GotThread(Value(), AllJoin);
        var j := Get(AllJoin);
        Put(j, Ready);
      }
      assert Value() == WakeAllJoiner(Sched.Left(start, code));
      numThrs := numThrs - 1;
      if numThrs == 0 {
        status := Halted;
      } else {
        Run();
      }
    }

    /** `thread_exit` up to `current->handle = NULL`. */
    method Leaves(code: int)
      requires Valid() && Enabled(Value(), ExitOp(code))
      modifies this
      ensures Value() == Sched.Leave(old(Value()), code)
    {
      FreeListIsPlain(Value());
      FreeIsDead(Value());
      ReleaseShape(Value());
      Release();
      if current != ROOT {
        Put(current, Free);
      }
      threads := threads[current := threads[current].(alive := false)];
      h := h.(exits := h.exits[current := code]);
    }

    /** The loop of `thread_exit` over the join list of the running thread. */
    method WakesJoiners(code: int)
      requires current in threads && NoDup(ListOf(JoinOf(current)))
      requires forall t :: t in ListOf(JoinOf(current)) ==> t in threads && threads[t].inList == Some(JoinOf(current))
      modifies this
      ensures Value() == WakeJoiners(old(Value()), old(current), code)
    {
      ghost var start := Value();
      while ListOf(JoinOf(current)) != []
        invariant current == start.current && NoDup(ListOf(JoinOf(current)))
        invariant forall t :: t in ListOf(JoinOf(current)) ==> t in threads && threads[t].inList == Some(JoinOf(current))
        invariant WakeJoiners(Value(), current, code) == WakeJoiners(start, start.current, code)
        decreases |ListOf(JoinOf(current))|
      {
        ghost var before := Value();
        var t := Get(JoinOf(current));
        threads := threads[t := threads[t].(code := code)];
        Put(t, Ready);
        WakeOneMore(before, Value(), current, code);
      }
    }

    /** `thread_join` of an unreleased thread, up to `run`; the result is there at once if it has exited. */
    method ThreadJoin(t: Tid) returns (code: Option<int>)
      requires Valid() && Enabled(Value(), JoinOp(t))
      modifies this
      ensures Value() == Step(old(Value()), JoinOp(t)) && Valid()
      ensures code == if old(threads[t].alive) then None else Some(-1)
      ensures if old(threads[t].alive) then GivesWay(old(Value()), Value(), OnThread(t), JoinOf(t)) else Value() == old(Value())
    {
      StepKeepsInv(Value(), JoinOp(t));
      JoinWaits(Value(), t);
      CurrentIsAlive(Value());
      if threads[t].alive {
        Blocks(OnThread(t), JoinOf(t));
        code := None;
      } else {
        code := Some(-1);
      }
    }

    /** `thread_join(NULL)` up to `run`; true if the caller is alone already. */
    method ThreadJoinAll() returns (alone: bool)
      requires Valid() && Enabled(Value(), JoinAllOp)
      modifies this
      ensures Value() == Step(old(Value()), JoinAllOp) && Valid()
      ensures alone <==> old(numThrs) == 1
      ensures alone <==> old(AliveSet(Value())) == {old(current)}
      ensures if alone then Value() == old(Value()) else GivesWay(old(Value()), Value(), OnAll, AllJoin)
    {
      StepKeepsInv(Value(), JoinAllOp);
      JoinAllWaits(Value());
      AloneIff(Value());
      CurrentIsAlive(Value());
      assert numThrs >= 1 by {
        ThreadsAreCounted(Value());
      }
      if numThrs > 1 {
        Blocks(OnAll, AllJoin);
        alone := false;
      } else {
        alone := true;
      }
    }

    /** What `thread_join` returns after `run`: the exit code of the thread, or 0 when everybody else is gone. */
    method JoinReturns() returns (code: int)
      requires Valid() && Enabled(Value(), ResumeOp)
      modifies this
      ensures Value() == Step(old(Value()), ResumeOp) && Valid()
      ensures var me := old(Me(Value()));
              match me.blk
              case OnThread(x) => x in old(h.exits) && code == old(h.exits)[x]
              case _ => code == 0 && AliveSet(old(Value())) == {old(current)} && old(numThrs) == 1
    {
      StepKeepsInv(Value(), ResumeOp);
      CurrentIsAlive(Value());
      assert PlaceOk(Value(), current);
      if threads[current].blk.OnAll? {
        JoinAllMeansAlone(Value());
        code := 0;
      } else {
        code := threads[current].code;
      }
      threads := threads[current := threads[current].(blk := Running)];
    }

    method ThreadPause()
      requires Valid() && Enabled(Value(), PauseOp)
      modifies this
      ensures Value() == Step(old(Value()), PauseOp) && Valid()
      ensures [current] + ListOf(Ready) == old(ListOf(Ready) + [current])
    {
      StepKeepsInv(Value(), PauseOp);
      PauseQueues(Value());
      CurrentIsAlive(Value());
      Blocks(Running, Ready);
    }

    /** `put(current, list); run();`, noting the call the thread stops in. */
    method Blocks(b: Blocked, l: ListId)
      requires Valid() && status == Live && current in threads
      modifies this
      ensures Value() == Block(old(Value()), b, l)
    {
      HeadOfReady(Value());
      threads := threads[current := threads[current].(blk := b)];
      Put(current, l);
      assert Value() == Sched.Put(SetBlk(old(Value()), b), old(current), l);
      Run();
    }

    // -------------------------------------------------------------- semaphores

    method SemInit(s: SemId, v: nat)
      requires Valid() && Enabled(Value(), InitOp(s, v))
      modifies this
      ensures Value() == Step(old(Value()), InitOp(s, v)) && Valid()
    {
      StepKeepsInv(Value(), InitOp(s, v));
      sems := sems[s := v];
      h := h.(inits := h.inits[s := v], ups := h.ups[s := 0], downs := h.downs[s := 0]);
    }

    /** One round of the loop of `sem_down`; true if the caller got its token. */
    method SemDown(s: SemId) returns (got: bool)
      requires Valid() && Enabled(Value(), DownOp(s))
      modifies this
      ensures Value() == Step(old(Value()), DownOp(s)) && Valid()
      ensures got <==> old(sems[s]) > 0
    {
      hide Inv, Enabled, Step, Block;
      StepKeepsInv(Value(), DownOp(s));
      DownStep(Value(), s);
      if sems[s] == 0 {
        Blocks(OnSem(s), WaitersOf(s));
        return false;
      }
      threads := threads[current := threads[current].(blk := Running)];
      sems := sems[s := sems[s] - 1];
      h := h.(downs := h.downs[s := Count(h.downs, s) + 1]);
      got := true;
    }

    method SemTryDown(s: SemId) returns (success: bool)
      requires Valid() && Enabled(Value(), TryDownOp(s))
      modifies this
      ensures Value() == Step(old(Value()), TryDownOp(s)) && Valid()
      ensures success <==> old(sems[s]) > 0
    {
      hide Inv, Enabled, Step;
      StepKeepsInv(Value(), TryDownOp(s));
      TryStep(Value(), s);
      success := sems[s] > 0;
      if success {
        sems := sems[s := sems[s] - 1];
        h := h.(downs := h.downs[s := Count(h.downs, s) + 1]);
      }
    }

    method SemUp(s: SemId)
      requires Valid() && Enabled(Value(), UpOp(s))
      modifies this
      ensures Value() == Step(old(Value()), UpOp(s)) && Valid()
    {
      hide Inv, Enabled, Step, Sched.Get, Sched.Put;
      StepKeepsInv(Value(), UpOp(s));
      UpStep(Value(), s);
      WaiterHead(Value(), s);
      sems := sems[s := sems[s] + 1];
      h := h.(ups := h.ups[s := Count(h.ups, s) + 1]);
      if ListOf(WaitersOf(s)) != [] {
        GotThread(Value(), WaitersOf(s));
        var t := Get(WaitersOf(s));
        Put(t, Ready);
      }
    }
  }

  /** Popping the head of the free list and freeing it leaves the same thing to release. */
  lemma FreeOneMore(a: State, b: State)
    requires Items(a, Free) != [] && NoDup(Items(a, Free))
    requires b == a.(lists := a.lists[Free := Items(a, Free)[1..]], threads := a.threads - {Items(a, Free)[0]})
    ensures Release(b) == Release(a) && NoDup(Items(b, Free))
    ensures (forall t :: t in Items(a, Free) ==> t in a.threads) ==> forall t :: t in Items(b, Free) ==> t in b.threads
  {
    assert Items(a, Free) == [Items(a, Free)[0]] + Items(b, Free);
    assert b.lists[Free := []] == a.lists[Free := []];
    assert Release(b).threads == Release(a).threads;
  }

  lemma FreeListIsPlain(st: State)
    requires Inv(st) && st.status == Live
    ensures NoDup(Items(st, Free)) && forall t :: t in Items(st, Free) ==> t in st.threads
  {
  }

  lemma HeadOfReady(st: State)
    requires Inv(st) && st.status == Live
    ensures Items(st, Ready) != [] ==>
              var t := Items(st, Ready)[0]; t in st.threads && t != st.current && Th(st, t).inList == Some(Ready)
    ensures Me(st).inList == None
  {
    hide SemsOk, Places, AliveSet, NoDup, Items;
    FirstOnList(st, Ready);
    assert Th(st, st.current).inList == None;
  }

  lemma WaiterHead(st: State, s: SemId)
    requires Inv(st) && st.status == Live
    ensures var w := Items(st, WaitersOf(s)); w != [] ==> w[0] in st.threads && Th(st, w[0]).inList == Some(WaitersOf(s))
  {
    PlacesOf(st);
    hide Inv, Places;
    FirstOnList(st, WaitersOf(s));
  }

  lemma LeaveParts(st: State, code: int)
    requires ListsOk(st) && Places(st) && Me(st).alive && Me(st).inList == None && st.current in st.threads
    ensures var l := Leave(st, code);
            && l.current == st.current && st.current in l.threads && NoDup(Items(l, JoinOf(st.current)))
            && (forall t :: t in Items(l, JoinOf(st.current)) ==> t in l.threads && Th(l, t).inList == Some(JoinOf(st.current)))
  {
    hide Leave, Items, Places, NoDup;
    FreeIsDead(st);
    LeaveShape(st, code);
    LeaveLists(st, code);
  }

  /** What `thread_exit` relies on at each of its list operations. */
  lemma LeaveFacts(st: State, code: int)
    requires Inv(st) && st.status == Live && Me(st).blk == Running
    ensures var l := Leave(st, code);
            && st.num > 0 && l.current == st.current && st.current in l.threads && NoDup(Items(l, JoinOf(st.current)))
            && (forall t :: t in Items(l, JoinOf(st.current)) ==> t in l.threads && Th(l, t).inList == Some(JoinOf(st.current)))
  {
    ThreadsAreCounted(st);
    CurrentIsAlive(st);
    LeaveParts(st, code);
  }

  lemma NewStep(st: State, args: seq<int>, memory: bool)
    requires Enabled(st, NewOp(args, memory))
    ensures st.status == Live
    ensures Step(st, NewOp(args, memory)) == if memory then Spawn(Release(st), args) else Release(st)
  {
    hide Release, Spawn;
  }

  lemma DownStep(st: State, s: SemId)
    requires Inv(st) && Enabled(st, DownOp(s))
    ensures st.status == Live && s in st.sems && st.current in st.threads
    ensures Step(st, DownOp(s)) ==
            if st.sems[s] == 0 then Block(st, OnSem(s), WaitersOf(s)) else TakeToken(SetBlk(st, Running), s)
  {
    CurrentIsAlive(st);
    hide Inv, Block, TakeToken, SetBlk;
  }

  lemma TryStep(st: State, s: SemId)
    requires Enabled(st, TryDownOp(s))
    ensures s in st.sems && Step(st, TryDownOp(s)) == if st.sems[s] > 0 then TakeToken(st, s) else st
  {
    hide TakeToken;
  }

  lemma UpStep(st: State, s: SemId)
    requires Enabled(st, UpOp(s))
    ensures st.status == Live && s in st.sems && Step(st, UpOp(s)) == Wake(AddToken(st, s), WaitersOf(s))
  {
    hide Wake, AddToken;
  }

  /** The thread that leaves a list is on none. */
  lemma GotThread(st: State, l: ListId)
    requires Items(st, l) != []
    ensures var g, t := Get(st, l), Items(st, l)[0]; t in g.threads && g.threads[t].inList == None
  {
  }

  lemma LeftFacts(st: State, code: int)
    requires Inv(st) && st.status == Live && Me(st).blk == Running
    ensures var e := Left(st, code);
            && (Items(e, AllJoin) != [] ==> Items(e, AllJoin)[0] in e.threads && Th(e, Items(e, AllJoin)[0]).inList == Some(AllJoin))
            && (Items(e, AllJoin) != [] && e.num == 2 ==> Items(e, Ready) == [])
            && var w := WakeAllJoiner(e);
               Items(w, Ready) != [] ==> Items(w, Ready)[0] in w.threads && Th(w, Items(w, Ready)[0]).inList == Some(Ready)
  {
    LeftSettled(st, code);
    hide Left, WakeAllJoiner, Inv, SemsOk, Places, Th;
    var e, w := Left(st, code), WakeAllJoiner(Left(st, code));
    WakeAllJoinerSettled(e);
    FirstOnList(e, AllJoin);
    FirstOnList(w, Ready);
    if Items(e, AllJoin) != [] && e.num == 2 {
      NobodyElseIsReady(e);
    }
  }

  lemma FirstOnList(st: State, l: ListId)
    requires ListsOk(st)
    ensures Items(st, l) != [] ==> Items(st, l)[0] in st.threads && Th(st, Items(st, l)[0]).inList == Some(l)
  {
    assert Items(st, l) != [] ==> Items(st, l)[0] in Items(st, l);
  }

  lemma ExitStep(st: State, code: int)
    requires Enabled(st, ExitOp(code))
    ensures Step(st, ExitOp(code)) == Depart(WakeAllJoiner(Left(st, code)))
            && Left(st, code) == WakeJoiners(Leave(st, code), st.current, code)
  {
    hide Depart, Leave;
  }

  /** Readying the first joiner leaves the same joiners to wake. */
  lemma WakeOneMore(a: State, b: State, x: Tid, code: int)
    requires Items(a, JoinOf(x)) != [] && NoDup(Items(a, JoinOf(x)))
    requires forall t :: t in Items(a, JoinOf(x)) ==> t in a.threads && Th(a, t).inList == Some(JoinOf(x))
    requires var t := Items(a, JoinOf(x))[0];
             b == a.(threads := a.threads[t := a.threads[t].(code := code, inList := Some(Ready))],
                     lists := a.lists[JoinOf(x) := Items(a, JoinOf(x))[1..]][Ready := Items(a, Ready) + [t]])
    ensures WakeJoiners(b, x, code) == WakeJoiners(a, x, code) && NoDup(Items(b, JoinOf(x)))
    ensures forall t :: t in Items(b, JoinOf(x)) ==> t in b.threads && Th(b, t).inList == Some(JoinOf(x))
  {
    var js, t := Items(a, JoinOf(x)), Items(a, JoinOf(x))[0];
    assert js == [t] + js[1..];
    assert Items(b, JoinOf(x)) == js[1..] && Items(b, Ready) == Items(a, Ready) + [t];
    assert Items(b, Ready) + js[1..] == Items(a, Ready) + js;
    var wa, wb := WakeJoiners(a, x, code), WakeJoiners(b, x, code);
    assert wa.threads == wb.threads;
    if js[1..] == [] {
      assert js == [t];
    }
    assert forall l :: l in wa.lists <==> l in wb.lists;
    assert wa.lists == wb.lists;
  }
}

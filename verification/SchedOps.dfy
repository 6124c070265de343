/** What each operation does to the lists, the threads and the semaphores, said without the functions that define it. */
module SchedOps {
  import opened Basics
  import opened Sched
  import opened SchedInv
  import opened SchedEffects
  import opened SchedRuns

  ghost predicate SameCounts(st: State, r: State) {
    r.num == st.num && r.next == st.next && r.sems == st.sems && r.h.exits == st.h.exits
  }

  /** The running thread stands last on list `l`, stopped in call `b`, and the first ready thread runs instead; with
      nobody ready the client is deadlocked.  Nothing else changes. */
  ghost predicate GivesWay(st: State, r: State, b: Blocked, l: ListId) {
    var ready := if l == Ready then Items(st, Ready) + [st.current] else Items(st, Ready);
    var parked := Me(st).(blk := b, inList := Some(l));
    && SameCounts(st, r)
    && (forall m :: m != Ready && m != l ==> Items(r, m) == Items(st, m))
    && (l != Ready ==> Items(r, l) == Items(st, l) + [st.current])
    && if ready == [] then
         r.status == Deadlocked && Th(r, st.current) == parked && forall t :: t != st.current ==> Th(r, t) == Th(st, t)
       else
         && r.status == Live && r.current == ready[0] && Items(r, Ready) == ready[1..]
         && Th(r, st.current) == (if st.current == r.current then parked.(inList := None) else parked)
         && (st.current != r.current ==> Th(r, r.current) == Th(st, r.current).(inList := None))
         && forall t :: t != st.current && t != r.current ==> Th(r, t) == Th(st, t)
  }

  lemma BlockGivesWay(st: State, b: Blocked, l: ListId)
    requires st.status == Live
    ensures GivesWay(st, Block(st, b, l), b, l)
  {
    hide Block, Parked, Run, Items, Th;
    BlockIsParked(st, b, l);
    ParkedShape(st, b, l);
    var p := Parked(st, b, l);
    if Items(p, Ready) != [] {
      RunShape(p);
    } else {
      RunIsStuck(p);
      StuckLists(p);
    }
  }

  lemma StuckLists(st: State)
    requires Items(st, Ready) == []
    ensures forall m :: Items(Run(st), m) == Items(st, m)
  {
  }

  /** `thread_join` of a live thread waits at the end of its join list; of an exited one it changes nothing. */
  lemma JoinWaits(st: State, t: Tid)
    requires Inv(st) && Enabled(st, JoinOp(t))
    ensures var r := Step(st, JoinOp(t));
            if Th(st, t).alive then GivesWay(st, r, OnThread(t), JoinOf(t)) else r == st
  {
    BlockGivesWay(st, OnThread(t), JoinOf(t));
    hide Inv, GivesWay, Block;
  }

  /** `thread_join(NULL)` waits while anybody else is alive; alone it changes nothing. */
  lemma JoinAllWaits(st: State)
    requires Inv(st) && Enabled(st, JoinAllOp)
    ensures var r := Step(st, JoinAllOp);
            if AliveSet(st) != {st.current} then GivesWay(st, r, OnAll, AllJoin) else r == st
  {
    BlockGivesWay(st, OnAll, AllJoin);
    AloneIff(st);
    hide Inv, GivesWay, Block;
  }

  /** `num_thrs` is 1 exactly while the running thread is the only live one. */
  lemma AloneIff(st: State)
    requires Inv(st) && st.status == Live
    ensures st.num == 1 <==> AliveSet(st) == {st.current}
    ensures st.num >= 1
  {
    CurrentIsAlive(st);
    ThreadsAreCounted(st);
    if st.num == 1 {
      OnlyOneAlive(st, st.current, st.current);
    }
  }

  lemma ResumeGoesOn(st: State)
    requires Inv(st) && Enabled(st, ResumeOp)
    ensures var r := Step(st, ResumeOp);
            && SameCounts(st, r) && r.status == Live && r.current == st.current && r.lists == st.lists
            && Me(r) == Me(st).(blk := Running) && forall t :: t != st.current ==> Th(r, t) == Th(st, t)
  {
    CurrentIsAlive(st);
    hide Inv;
  }

  /** `thread_pause` queues the caller behind the ready threads, so that alone it runs on. */
  lemma PauseQueues(st: State)
    requires Inv(st) && Enabled(st, PauseOp)
    ensures var r := Step(st, PauseOp);
            GivesWay(st, r, Running, Ready) && [r.current] + Items(r, Ready) == Items(st, Ready) + [st.current]
  {
    BlockGivesWay(st, Running, Ready);
    hide Inv, Block, GivesWay;
    QueuedBehind(st, Step(st, PauseOp));
  }

  lemma QueuedBehind(st: State, r: State)
    requires GivesWay(st, r, Running, Ready)
    ensures [r.current] + Items(r, Ready) == Items(st, Ready) + [st.current]
  {
    hide Items, Th;
  }

  // ---------------------------------------------------------------- thread_new and thread_exit

  /** `thread_new` frees the exited thread and, given memory, queues a new thread with its arguments. */
  lemma NewQueues(st: State, args: seq<int>, memory: bool)
    requires Inv(st) && Enabled(st, NewOp(args, memory))
    ensures var r, n, freed := Step(st, NewOp(args, memory)), st.next, Items(st, Free);
            && r.status == Live && r.current == st.current && r.sems == st.sems && r.h == st.h
            && r.threads.Keys == (st.threads.Keys - Elems(freed)) + (if memory then {n} else {})
            && (forall t :: t in r.threads && (memory ==> t != n) ==> Th(r, t) == Th(st, t))
            && (forall m :: m != Free && (memory ==> m != Ready) ==> Items(r, m) == Items(st, m))
            && Items(r, Free) == []
            && (if memory then
                  && n !in st.threads && Th(r, n) == Thread(true, Some(Ready), 0, args, Running)
                  && Items(r, Ready) == Items(st, Ready) + [n] && r.num == st.num + 1 && r.next == n + 1
                else r.num == st.num && r.next == n)
  {
    hide Release, Spawn, Items, Th, SemsOk, PlaceOk, AliveSet, ListsOk;
    ReleaseShape(st);
    NextIsNew(st);
    SpawnShape(Release(st), args);
  }

  /** The last thread to exit halts the machine; an exit that leaves others goes on with a ready thread, a joiner or
      the one that waits for everybody, and is a deadlock without any. */
  lemma ExitEnds(st: State, code: int)
    requires Inv(st) && Enabled(st, ExitOp(code))
    ensures var r, me := Step(st, ExitOp(code)), st.current;
            && (r.status == Halted <==> AliveSet(st) == {me})
            && (r.status == Live <==>
                Items(st, Ready) != [] || Items(st, JoinOf(me)) != [] || (Items(st, AllJoin) != [] && st.num == 2))
            && r.num == st.num - 1 == |AliveSet(st) - {me}|
  {
    hide Left, WakeAllJoiner, Depart, Places, SemsOk, AliveSet, ListsOk, Items, Th;
    ExitIs(st, code);
    CurrentSettled(st);
    ExitNum(st, code);
    BeforeDeparture(st, code);
    AloneIff(st);
    HeirsAreAlive(st);
    DepartEnds(WakeAllJoiner(Left(st, code)));
    CurrentIsAlive(st);
    MeIsAlive(st);
    CountWithout(AliveSet(st), st.current);
  }

  lemma MeIsAlive(st: State)
    requires Me(st).alive && st.current in st.threads
    ensures st.current in AliveSet(st)
  {
  }

  lemma CountWithout(a: set<Tid>, t: Tid)
    requires t in a
    ensures |a - {t}| == |a| - 1
  {
  }

  lemma DepartEnds(w: State)
    requires w.status == Live && w.num >= 1
    ensures var d := Depart(w);
            && d.num == w.num - 1
            && d.status == if w.num == 1 then Halted else if Items(w, Ready) != [] then Live else Deadlocked
  {
  }

  lemma HeirsAreAlive(st: State)
    requires Inv(st) && st.status == Live
    ensures Items(st, Ready) != [] || Items(st, JoinOf(st.current)) != [] ==> st.num >= 2
  {
    ThreadsAreCounted(st);
    AloneIff(st);
    JoinersAreParked(st, st.current);
    var js := Items(st, JoinOf(st.current));
    if js != [] {
      assert js[0] in js;
      assert js[0] in AliveSet(st);
    }
  }

  /** The tail of `thread_exit` moves threads but neither makes nor frees any. */
  ghost predicate SameThreads(e: State, r: State) {
    && r.threads.Keys == e.threads.Keys && r.sems == e.sems && r.next == e.next && r.h.exits == e.h.exits
    && (forall t :: Th(r, t).alive == Th(e, t).alive)
    && forall m :: m != Ready && m != AllJoin ==> Items(r, m) == Items(e, m)
  }

  lemma WakeAllFrame(e: State)
    requires ListsOk(e)
    ensures SameThreads(e, WakeAllJoiner(e))
  {
    hide ListsOk, Items, Th, Wake;
    FirstOnTheList(e, AllJoin);
    if Items(e, AllJoin) != [] && e.num == 2 {
      WakeShape(e, AllJoin);
      assert e.threads.Keys + {Items(e, AllJoin)[0]} == e.threads.Keys;
    } else if Items(e, AllJoin) == [] {
      WakeNobody(e, AllJoin);
    }
  }

  lemma FirstOnTheList(st: State, l: ListId)
    requires ListsOk(st)
    ensures Items(st, l) != [] ==> Items(st, l)[0] in st.threads
  {
    assert Items(st, l) != [] ==> Items(st, l)[0] in Items(st, l);
  }

  lemma DepartFrame(w: State)
    requires ListsOk(w)
    ensures SameThreads(w, Depart(w))
  {
    var d := w.(num := if w.num > 0 then w.num - 1 else 0);
    assert (forall m :: Items(d, m) == Items(w, m)) && forall t :: Th(d, t) == Th(w, t);
    FirstOnTheList(w, Ready);
    hide ListsOk, Items, Th, Run;
    if w.num > 1 {
      if Items(d, Ready) != [] {
        RunShape(d);
      } else {
        RunIsStuck(d);
        StuckLists(d);
      }
    }
  }

  lemma SameLife(a: State, b: State)
    requires forall t :: Th(a, t).alive == Th(b, t).alive
    ensures AliveSet(a) == AliveSet(b)
  {
    assert forall t :: t in AliveSet(a) <==> Th(a, t).alive;
    assert forall t :: t in AliveSet(b) <==> Th(b, t).alive;
  }

  /** Of the threads only the caller dies; what was on the free list is freed, and the caller takes its place unless
      it is the root. */
  lemma ExitBuriesTheCaller(st: State, code: int)
    requires Inv(st) && Enabled(st, ExitOp(code))
    ensures var r, me, freed := Step(st, ExitOp(code)), st.current, Items(st, Free);
            && r.threads.Keys == st.threads.Keys - Elems(freed) && AliveSet(r) == AliveSet(st) - {me}
            && Items(r, Free) == (if me == ROOT then [] else [me])
            && Items(r, JoinOf(me)) == [] && r.sems == st.sems && r.next == st.next
            && r.h.exits == st.h.exits[me := code]
            && forall m :: m !in {Free, Ready, AllJoin, JoinOf(me)} ==> Items(r, m) == Items(st, m)
  {
    hide Left, WakeAllJoiner, Depart, Places, SemsOk, AliveSet, ListsOk, Items, Th, PlaceOk, Exit;
    ExitIs(st, code);
    CurrentSettled(st);
    LeftShape(st, code);
    LeftAlive(st, code);
    LeftSettled(st, code);
    var l, w := Left(st, code), WakeAllJoiner(Left(st, code));
    WakeAllJoinerSettled(l);
    WakeAllFrame(l);
    DepartFrame(w);
    SameLife(l, w);
    SameLife(w, Depart(w));
  }

  // ---------------------------------------------------------------- semaphores

  /** Only the value of `s` and its history differ. */
  ghost predicate OnlySem(st: State, r: State, s: SemId, value: nat) {
    && r.status == Live && r.current == st.current && r.num == st.num && r.next == st.next
    && r.threads == st.threads && r.lists == st.lists && r.sems == st.sems[s := value]
    && r.h.exits == st.h.exits && r.h.runs == st.h.runs
  }

  lemma InitSets(st: State, s: SemId, v: nat)
    requires Inv(st) && Enabled(st, InitOp(s, v))
    ensures OnlySem(st, Step(st, InitOp(s, v)), s, v)
  {
    hide Inv;
  }

  /** The running thread takes a token of `s` and is in no call any more; nothing else changes. */
  ghost predicate Takes(st: State, r: State, s: SemId) {
    && s in st.sems && st.sems[s] > 0 && OnlySem(st.(threads := r.threads), r, s, st.sems[s] - 1)
    && r.threads.Keys == st.threads.Keys && Me(r) == Me(st).(blk := Running)
    && forall t :: t != st.current ==> Th(r, t) == Th(st, t)
  }

  /** `sem_down` takes a token if there is one; the loop test of a woken thread that finds none waits anew. */
  lemma DownTakesOrWaits(st: State, s: SemId)
    requires Inv(st) && Enabled(st, DownOp(s))
    ensures var r := Step(st, DownOp(s));
            if st.sems[s] == 0 then GivesWay(st, r, OnSem(s), WaitersOf(s)) else Takes(st, r, s)
  {
    hide Inv, Block, GivesWay, Takes, TakeToken, SetBlk, Items, Th;
    CurrentIsAlive(st);
    if st.sems[s] == 0 {
      BlockGivesWay(st, OnSem(s), WaitersOf(s));
    } else {
      DownTakesOne(st, s);
    }
  }

  lemma DownTakesOne(st: State, s: SemId)
    requires st.status == Live && s in st.sems && st.sems[s] > 0 && st.current in st.threads
    ensures Takes(st, Down(st, s), s)
  {
    hide TakeToken, SetBlk, Items, Th;
    TakeShape(st, s);
    TakeLists(st, s);
  }

  lemma TakeLists(st: State, s: SemId)
    requires s in st.sems && st.sems[s] > 0
    ensures TakeToken(SetBlk(st, Running), s).lists == st.lists
  {
  }

  lemma TryDownNeverWaits(st: State, s: SemId)
    requires Inv(st) && Enabled(st, TryDownOp(s))
    ensures var r := Step(st, TryDownOp(s)); if st.sems[s] == 0 then r == st else OnlySem(st, r, s, st.sems[s] - 1)
  {
    hide Inv;
  }

  /** `s` has one more token, and its first waiter, if any, is the last of the ready threads; nothing else changes. */
  ghost predicate Readies(st: State, r: State, s: SemId) {
    var waiters := Items(st, WaitersOf(s));
    && s in st.sems && r.status == st.status && r.current == st.current && r.num == st.num && r.next == st.next
    && r.sems == st.sems[s := st.sems[s] + 1] && r.h.exits == st.h.exits && r.h.runs == st.h.runs
    && Items(r, WaitersOf(s)) == (if waiters == [] then [] else waiters[1..])
    && Items(r, Ready) == Items(st, Ready) + (if waiters == [] then [] else [waiters[0]])
    && (forall m :: m != WaitersOf(s) && m != Ready ==> Items(r, m) == Items(st, m))
    && forall t :: Th(r, t) == if waiters != [] && t == waiters[0] then Th(st, t).(inList := Some(Ready)) else Th(st, t)
  }

  lemma UpReadies(st: State, s: SemId)
    requires s in st.sems
    ensures Readies(st, UpSem(st, s), s)
  {
    AddTokenShape(st, s);
    AddTokenIs(st, s);
    hide AddToken, Items, Th, Wake;
    if Items(st, WaitersOf(s)) != [] {
      WakeShape(AddToken(st, s), WaitersOf(s));
    } else {
      WakeNobody(AddToken(st, s), WaitersOf(s));
    }
  }

  lemma UpReadiesTheFirst(st: State, s: SemId)
    requires Inv(st) && Enabled(st, UpOp(s))
    ensures s in st.sems && Readies(st, Step(st, UpOp(s)), s)
  {
    hide *;
    UpEnabled(st, s);
    UpReadies(st, s);
    UpIs(st, s);
  }

  lemma UpEnabled(st: State, s: SemId)
    requires Enabled(st, UpOp(s))
    ensures st.status == Live && Me(st).blk == Running && s in st.sems
  {
  }
}

/** A thread, the boss, with workers that never block: what `thread_new`, `thread_join(NULL)` and `thread_exit` do to
    the queue of jobs. */
module Workers {
  import opened Basics
  import opened Sched
  import opened SchedInv
  import opened SchedEffects
  import opened SchedRuns

  /** The ready threads have not run yet; in order, they hold `jobs` as their arguments. */
  ghost predicate Queued(st: State, jobs: seq<seq<int>>) {
    && |Items(st, Ready)| == |jobs|
    && forall x :: 0 <= x < |jobs| ==> Th(st, Items(st, Ready)[x]).args == jobs[x] && Th(st, Items(st, Ready)[x]).blk == Running
  }

  /** Nobody is alive but the running thread, the queue, and the boss once it waits for all. */
  ghost predicate Staffed(st: State, boss: Tid) {
    && (forall t :: t != st.current && Th(st, t).alive ==> t in Items(st, Ready) || t in Items(st, AllJoin))
    && Items(st, AllJoin) == if st.current == boss then [] else [boss]
  }

  ghost predicate Crew(st: State, boss: Tid, jobs: seq<seq<int>>) {
    Inv(st) && st.status == Live && Me(st).blk == Running && Queued(st, jobs) && Staffed(st, boss)
  }

  lemma OnTheList(st: State, l: ListId)
    requires ListsOk(st)
    ensures forall t :: t in Items(st, l) ==> t in st.threads && Th(st, t).inList == Some(l)
  {
    hide Items, Th, NoDup;
  }

  lemma ReadyIsKnown(st: State)
    requires Inv(st) && st.status == Live
    ensures forall t :: t in Items(st, Ready) ==> t in st.threads && t != st.current && t !in Items(st, Free) && t != st.next
    ensures st.current !in Items(st, Free) && st.current != st.next
    ensures forall t :: t in Items(st, AllJoin) ==> t != st.current && t !in Items(st, Ready) && t !in Items(st, Free) && t != st.next
  {
    PlacesOf(st);
    NextIsNew(st);
    CurrentIsAlive(st);
    assert Th(st, st.current).inList == None;
    hide *;
    forall l
      ensures forall t :: t in Items(st, l) ==> t in st.threads && t != st.current && t != st.next && Th(st, t).inList == Some(l)
    {
      OnTheList(st, l);
    }
  }

  // ---------------------------------------------------------------- thread_new

  lemma QueueGrows(st: State, n: State, jobs: seq<seq<int>>, t: Tid, args: seq<int>)
    requires Queued(st, jobs) && Items(n, Ready) == Items(st, Ready) + [t] && Th(n, t).args == args
             && Th(n, t).blk == Running
    requires forall u :: u in Items(st, Ready) ==> Th(n, u) == Th(st, u)
    ensures Queued(n, jobs + [args])
  {
    var q := Items(st, Ready);
    assert forall x :: 0 <= x < |q| ==> q[x] in q;
  }

  lemma QueuePops(st: State, n: State, jobs: seq<seq<int>>)
    requires Queued(st, jobs) && jobs != [] && Items(n, Ready) == Items(st, Ready)[1..]
             && n.current == Items(st, Ready)[0]
    requires forall u :: u in Items(st, Ready) ==> Th(n, u).args == Th(st, u).args && Th(n, u).blk == Th(st, u).blk
    ensures Queued(n, jobs[1..]) && Me(n).args == jobs[0] && Me(n).blk == Running
  {
    var q := Items(st, Ready);
    assert forall x :: 0 <= x < |q| ==> q[x] in q;
  }

  lemma CrewParts(st: State, boss: Tid, jobs: seq<seq<int>>)
    requires Crew(st, boss, jobs)
    ensures Inv(st) && st.status == Live && Me(st).blk == Running && Queued(st, jobs) && Staffed(st, boss)
    ensures forall args :: Enabled(st, NewOp(args, true))
    ensures forall code :: Enabled(st, ExitOp(code))
    ensures |Items(st, Ready)| == |jobs|
    ensures Items(st, AllJoin) == if st.current == boss then [] else [boss]
    ensures st.current == boss ==> Enabled(st, JoinAllOp)
  {
    hide Inv, Items, Th;
  }

  lemma CrewIntro(st: State, boss: Tid, jobs: seq<seq<int>>)
    requires Inv(st) && st.status == Live && Me(st).blk == Running && Queued(st, jobs) && Staffed(st, boss)
    ensures Crew(st, boss, jobs)
  {
    hide Inv, Queued, Staffed;
  }

  lemma NewIs(st: State, args: seq<int>)
    requires Enabled(st, NewOp(args, true))
    ensures Step(st, NewOp(args, true)) == New(st, args, true)
  {
    hide New;
  }

  lemma StaffedAfterNew(st: State, boss: Tid, n: State)
    requires Staffed(st, boss) && n.current == st.current && st.current != st.next && st.current !in Items(st, Free)
    requires Items(n, Ready) == Items(st, Ready) + [st.next] && Items(n, AllJoin) == Items(st, AllJoin)
    requires forall u :: Th(n, u) == if u == st.next then Thread(true, Some(Ready), 0, Th(n, u).args, Running)
                                     else if u in Items(st, Free) then NOBODY else Th(st, u)
    requires Me(st).blk == Running
    ensures Staffed(n, boss) && Me(n).blk == Running
  {
    hide Items, Th;
    assert st.next in Items(n, Ready);
  }

  lemma CrewNew(st: State, boss: Tid, jobs: seq<seq<int>>, args: seq<int>)
    requires Crew(st, boss, jobs)
    ensures Enabled(st, NewOp(args, true)) && Crew(New(st, args, true), boss, jobs + [args])
    ensures New(st, args, true).current == st.current
  {
    hide *;
    CrewParts(st, boss, jobs);
    StepKeepsInv(st, NewOp(args, true));
    NewIs(st, args);
    ReadyIsKnown(st);
    NewShape(st, args);
    var n := New(st, args, true);
    QueueGrows(st, n, jobs, st.next, args);
    StaffedAfterNew(st, boss, n);
    CrewIntro(n, boss, jobs + [args]);
  }

  // ---------------------------------------------------------------- thread_join(NULL)

  lemma JoinAllShape(st: State)
    requires Inv(st) && st.status == Live && st.num > 1 && Items(st, Ready) != []
    ensures var j, t := JoinAll(st), Items(st, Ready)[0];
            && Items(j, Ready) == Items(st, Ready)[1..] && Items(j, AllJoin) == Items(st, AllJoin) + [st.current]
            && j.current == t && j.status == Live
            && (forall u :: Th(j, u).alive == Th(st, u).alive && Th(j, u).args == Th(st, u).args)
            && (forall u :: u != st.current ==> Th(j, u).blk == Th(st, u).blk)
  {
    BlockIsParked(st, OnAll, AllJoin);
    hide Inv, Items, Th, Block, Parked, Run;
    ParkedShape(st, OnAll, AllJoin);
    RunShape(Parked(st, OnAll, AllJoin));
  }

  lemma CrewCount(st: State, boss: Tid, jobs: seq<seq<int>>)
    requires Crew(st, boss, jobs)
    ensures st.num == 1 + |jobs| + if st.current == boss then 0 else 1
  {
    ThreadsAreCounted(st);
    ReadyIsKnown(st);
    CrewBlocked(st, boss);
    var b := BlockedSet(st);
    if st.current != boss {
      assert boss in Items(st, AllJoin);
      assert b == {boss};
    } else {
      assert b == {};
    }
  }

  lemma CrewBlocked(st: State, boss: Tid)
    requires Inv(st) && st.status == Live && Staffed(st, boss)
    ensures forall t :: t in BlockedSet(st) <==> t in Items(st, AllJoin)
  {
    PlacesOf(st);
    forall t | t in Items(st, AllJoin) ensures t in BlockedSet(st) {
      assert PlaceOk(st, t);
    }
    forall t | t in BlockedSet(st) ensures t in Items(st, AllJoin) {
      assert t in Items(st, Ready) ==> Th(st, t).inList == Some(Ready);
    }
  }

  lemma JoinAllIs(st: State)
    requires Enabled(st, JoinAllOp)
    ensures Step(st, JoinAllOp) == JoinAll(st)
  {
    hide JoinAll;
  }

  lemma StaffedAfterJoinAll(st: State, boss: Tid, j: State)
    requires Staffed(st, boss) && st.current == boss && Items(st, Ready) != [] && st.current !in Items(st, Ready)
    requires Items(j, Ready) == Items(st, Ready)[1..] && Items(j, AllJoin) == Items(st, AllJoin) + [st.current]
             && j.current == Items(st, Ready)[0]
    requires forall u :: Th(j, u).alive == Th(st, u).alive
    ensures Staffed(j, boss) && j.current != boss
  {
    hide Items, Th;
    var q := Items(st, Ready);
    assert q == [q[0]] + q[1..];
    assert q[0] in q;
  }

  lemma StaffedAfterExit(st: State, boss: Tid, x: State)
    requires Staffed(st, boss) && st.current != boss && Items(st, Ready) != [] && boss !in Items(st, Ready)
    requires Items(x, Ready) == Items(st, Ready)[1..] && Items(x, AllJoin) == Items(st, AllJoin)
             && x.current == Items(st, Ready)[0]
    requires forall u :: Th(x, u).alive ==> Th(st, u).alive && u != st.current
    ensures Staffed(x, boss) && x.current != boss
  {
    hide Items, Th;
    var q := Items(st, Ready);
    assert q == [q[0]] + q[1..];
    assert q[0] in q;
  }

  lemma CrewJoinAll(st: State, boss: Tid, jobs: seq<seq<int>>)
    requires Crew(st, boss, jobs) && st.current == boss
    ensures Enabled(st, JoinAllOp) && (st.num == 1 <==> jobs == [])
    ensures jobs != [] ==> Crew(JoinAll(st), boss, jobs[1..]) && JoinAll(st).current != boss && Me(JoinAll(st)).args == jobs[0]
  {
    hide *;
    CrewCount(st, boss, jobs);
    CrewParts(st, boss, jobs);
    if jobs != [] {
      StepKeepsInv(st, JoinAllOp);
      JoinAllIs(st);
      ReadyIsKnown(st);
      JoinAllShape(st);
      QueuePops(st, JoinAll(st), jobs);
      StaffedAfterJoinAll(st, boss, JoinAll(st));
      CrewIntro(JoinAll(st), boss, jobs[1..]);
    }
  }

  // ---------------------------------------------------------------- thread_exit

  lemma NotAJoiner(st: State, boss: Tid, t: Tid)
    requires Inv(st) && st.status == Live && Staffed(st, boss)
    ensures t !in Items(st, JoinOf(st.current))
  {
    PlacesOf(st);
    JoinersAreParked(st, st.current);
    OnTheList(st, JoinOf(st.current));
    OnTheList(st, Ready);
    OnTheList(st, AllJoin);
  }

  lemma NobodyJoins(st: State, boss: Tid)
    requires Inv(st) && st.status == Live && Staffed(st, boss)
    ensures Items(st, JoinOf(st.current)) == []
  {
    hide *;
    var js := Items(st, JoinOf(st.current));
    if js != [] {
      NotAJoiner(st, boss, js[0]);
    }
  }

  lemma LeftOf(st: State, boss: Tid, code: int)
    requires Inv(st) && st.status == Live && Staffed(st, boss) && st.current != boss
    ensures var e := Left(st, code);
            && Items(e, Ready) == Items(st, Ready) && Items(e, AllJoin) == Items(st, AllJoin)
            && (forall u :: Th(e, u) == if u in Items(st, Free) then NOBODY
                                        else if u == st.current then Me(st).(alive := false, inList := Th(e, u).inList) else Th(st, u))
            && e.status == Live && e.num == st.num && e.current == st.current
            && (forall u :: Th(e, u).alive ==> Th(st, u).alive && u != st.current)
  {
    CurrentSettled(st);
    NobodyJoins(st, boss);
    hide Left, Inv, Items, Staffed, Th, ListsOk, Places;
    LeftShape(st, code);
    MeIs(st);
  }

  lemma ExitOpIs(st: State, code: int)
    requires Enabled(st, ExitOp(code))
    ensures Step(st, ExitOp(code)) == Exit(st, code)
  {
    hide Exit;
  }

  lemma NoWake(e: State)
    requires e.num != 2
    ensures WakeAllJoiner(e) == e
  {
  }

  lemma ExitShape(st: State, boss: Tid, code: int)
    requires Inv(st) && st.status == Live && Staffed(st, boss) && st.current != boss && Items(st, Ready) != []
             && st.num > 2
    ensures var x, t := Exit(st, code), Items(st, Ready)[0];
            && Items(x, Ready) == Items(st, Ready)[1..] && Items(x, AllJoin) == Items(st, AllJoin)
            && x.current == t && x.status == Live
            && (forall u :: Th(x, u).alive ==> Th(st, u).alive && u != st.current)
            && forall u :: u in Items(st, Ready) ==> Th(x, u).args == Th(st, u).args && Th(x, u).blk == Th(st, u).blk
  {
    hide *;
    ExitIs(st, code);
    LeftOf(st, boss, code);
    ReadyIsKnown(st);
    NoWake(Left(st, code));
    DepartShape(Left(st, code));
  }

  /** The exit of a worker starts the next job, if there is one. */
  lemma CrewExit(st: State, boss: Tid, jobs: seq<seq<int>>, code: int)
    requires Crew(st, boss, jobs) && st.current != boss && jobs != []
    ensures Enabled(st, ExitOp(code)) && Crew(Exit(st, code), boss, jobs[1..])
    ensures Exit(st, code).current != boss && Me(Exit(st, code)).args == jobs[0]
  {
    hide *;
    CrewCount(st, boss, jobs);
    CrewParts(st, boss, jobs);
    StepKeepsInv(st, ExitOp(code));
    ExitOpIs(st, code);
    ReadyIsKnown(st);
    ExitShape(st, boss, code);
    QueuePops(st, Exit(st, code), jobs);
    StaffedAfterExit(st, boss, Exit(st, code));
    CrewIntro(Exit(st, code), boss, jobs[1..]);
  }

  lemma MayResume(x: State)
    requires x.status == Live && Me(x).blk == OnAll
    ensures Enabled(x, ResumeOp)
  {
  }

  lemma LastExitShape(st: State, boss: Tid, code: int)
    requires Inv(st) && st.status == Live && Staffed(st, boss) && st.current != boss && Items(st, Ready) == []
             && st.num == 2
    requires Items(st, AllJoin) == [boss]
    ensures var x := Exit(st, code); x.current == boss && x.status == Live && Me(x).blk == OnAll && Items(x, Ready) == []
  {
    hide *;
    ExitIs(st, code);
    LeftOf(st, boss, code);
    ReadyIsKnown(st);
    BossWaits(st, boss);
    var e := Left(st, code);
    WakesBoss(e, boss);
    assert boss in Items(st, AllJoin);
    DepartShape(WakeAllJoiner(e));
    MeIs(Depart(WakeAllJoiner(e)));
  }

  lemma WakesBoss(e: State, boss: Tid)
    requires e.num == 2 && Items(e, AllJoin) == [boss] && Items(e, Ready) == []
    ensures var w := WakeAllJoiner(e);
            && Items(w, Ready) == [boss] && w.num == 2 && w.status == e.status
            && forall u :: Th(w, u).blk == Th(e, u).blk
  {
    WakeShape(e, AllJoin);
  }

  /** The exit of the last worker brings the boss back. */
  lemma CrewEnds(st: State, boss: Tid, code: int)
    requires Crew(st, boss, []) && st.current != boss
    ensures Enabled(st, ExitOp(code))
    ensures var x := Exit(st, code); Inv(x) && Enabled(x, ResumeOp) && x.current == boss && Me(x).blk == OnAll && Items(x, Ready) == []
  {
    hide *;
    CrewCount(st, boss, []);
    CrewParts(st, boss, []);
    StepKeepsInv(st, ExitOp(code));
    ExitOpIs(st, code);
    LastExitShape(st, boss, code);
    MayResume(Exit(st, code));
  }

  lemma BossWaits(st: State, boss: Tid)
    requires Inv(st) && st.status == Live && Staffed(st, boss) && st.current != boss
    ensures Th(st, boss).blk == OnAll
  {
    PlacesOf(st);
    assert boss in Items(st, AllJoin);
    assert PlaceOk(st, boss);
  }
}

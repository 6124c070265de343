/** Theorems about every run of the scheduler, whatever the threads do. */
module SchedRuns {
  import opened Basics
  import opened Sched
  import opened SchedInv

  ghost predicate IsRun(tr: seq<State>, ops: seq<Op>) {
    && |tr| == |ops| + 1
    && forall i :: 0 <= i < |ops| ==> Enabled(tr[i], ops[i]) && tr[i + 1] == Step(tr[i], ops[i])
  }

  lemma {:induction false} EveryStateSatisfiesInv(tr: seq<State>, ops: seq<Op>, n: nat)
    requires IsRun(tr, ops) && Inv(tr[0]) && n < |tr|
    ensures Inv(tr[n])
  {
    if n > 0 {
      EveryStateSatisfiesInv(tr, ops, n - 1);
      StepKeepsInv(tr[n - 1], ops[n - 1]);
    }
  }

  // ---------------------------------------------------------------- where threads are

  ghost function BlockedSet(st: State): set<Tid> {
    set t | t in st.threads && Th(st, t).alive && t != st.current && Th(st, t).inList != Some(Ready)
  }

  lemma NoDupSize(s: seq<Tid>)
    requires NoDup(s)
    ensures |Elems(s)| == |s|
  {
    if s != [] {
      var r, x := s[..|s| - 1], s[|s| - 1];
      NoDupSize(r);
      assert s == r + [x];
      assert x !in r;
      assert Elems(s) == Elems(r) + {x};
    }
  }

  lemma OccursOnce(s: seq<Tid>, t: Tid)
    requires NoDup(s) && t in s
    ensures multiset(s)[t] == 1
  {
    var i :| 0 <= i < |s| && s[i] == t;
    assert s == s[..i] + [t] + s[i + 1..];
    assert t !in s[..i] && t !in s[i + 1..];
  }

  lemma PlaceOfLive(st: State, t: Tid)
    requires ListsOk(st) && Places(st) && t in AliveSet(st) && t != st.current
    ensures Th(st, t).inList.Some? && Th(st, t).inList != Some(Free) && t in Items(st, Th(st, t).inList.value)
  {
    assert PlaceOk(st, t);
  }

  lemma ListOfLive(st: State, t: Tid) returns (l: ListId)
    requires ListsOk(st) && Places(st) && t in AliveSet(st) && t != st.current
    ensures l != Free && multiset(Items(st, l))[t] == 1
    ensures forall m :: m != l ==> t !in Items(st, m)
  {
    PlaceOfLive(st, t);
    l := Th(st, t).inList.value;
    OccursOnce(Items(st, l), t);
    assert forall m :: t in Items(st, m) ==> Th(st, t).inList == Some(m);
  }

  /** A live thread is the running one and on no list, or on exactly one list, there once, and that is not the free
      list. */
  lemma EveryThreadHasOnePlace(st: State, t: Tid)
    requires Inv(st) && st.status == Live && t in AliveSet(st)
    ensures t == st.current <==> forall l :: t !in Items(st, l)
    ensures t != st.current ==> exists l :: l != Free && multiset(Items(st, l))[t] == 1 && forall m :: m != l ==> t !in Items(st, m)
  {
    if t != st.current {
      var l := ListOfLive(st, t);
      assert t in Items(st, l);
    } else {
      assert forall m :: t in Items(st, m) ==> Th(st, t).inList == Some(m);
    }
  }

  lemma ThreadsAreCounted(st: State)
    requires Inv(st) && st.status == Live
    ensures st.num == |AliveSet(st)| == 1 + |Items(st, Ready)| + |BlockedSet(st)|
  {
    NoDupSize(Items(st, Ready));
    AliveArePartitioned(st);
    SizesAdd(Elems(Items(st, Ready)), BlockedSet(st), st.current);
  }

  lemma SizesAdd(a: set<Tid>, b: set<Tid>, x: Tid)
    requires a !! b && x !in a && x !in b
    ensures |a + b + {x}| == |a| + |b| + 1
  {
  }

  lemma AliveArePartitioned(st: State)
    requires ListsOk(st) && Places(st) && Me(st).alive && Me(st).inList == None && st.current in st.threads
    ensures AliveSet(st) == Elems(Items(st, Ready)) + BlockedSet(st) + {st.current}
    ensures Elems(Items(st, Ready)) !! BlockedSet(st) && st.current !in Items(st, Ready)
  {
    forall t ensures t in AliveSet(st) <==> t in Items(st, Ready) || t in BlockedSet(st) || t == st.current {
      assert t in st.threads ==> PlaceOk(st, t);
    }
  }

  // ---------------------------------------------------------------- what an operation leaves in the history

  lemma RunHistory(st: State)
    ensures Run(st).h == if Items(st, Ready) == [] then st.h else st.h.(runs := st.h.runs + 1)
  {
  }

  lemma BlockHistory(st: State, b: Blocked, l: ListId)
    ensures Block(st, b, l).h.exits == st.h.exits && st.h.runs <= Block(st, b, l).h.runs <= st.h.runs + 1
  {
    RunHistory(Parked(st, b, l));
  }

  lemma DepartHistory(w: State)
    ensures w.h.exits == Depart(w).h.exits && w.h.runs <= Depart(w).h.runs <= w.h.runs + 1
  {
    if w.num > 1 {
      RunHistory(w.(num := w.num - 1));
    }
    hide Run;
  }

  lemma ExitHistory(st: State, code: int)
    ensures Exit(st, code).h.exits == st.h.exits[st.current := code]
    ensures st.h.runs <= Exit(st, code).h.runs <= st.h.runs + 1
  {
    hide *;
    ExitIs(st, code);
    LeftHistory(st, code);
    WakeHistory(Left(st, code));
    DepartHistory(WakeAllJoiner(Left(st, code)));
  }

  lemma LeftHistory(st: State, code: int)
    ensures Left(st, code).h == st.h.(exits := st.h.exits[st.current := code])
  {
    hide Release, Put;
    HistoryStays(st);
  }

  lemma HistoryStays(st: State)
    ensures Release(st).h == st.h && forall r: State, t, l :: Put(r, t, l).h == r.h
  {
  }

  lemma WakeHistory(l: State)
    ensures WakeAllJoiner(l).h == l.h && WakeAllJoiner(l).num == l.num && WakeAllJoiner(l).status == l.status
  {
  }

  lemma StepHistory(st: State, op: Op)
    requires Enabled(st, op)
    ensures Step(st, op).h.exits == if op.ExitOp? then st.h.exits[st.current := op.code] else st.h.exits
    ensures st.h.runs <= Step(st, op).h.runs <= st.h.runs + 1
  {
    match op
    case ExitOp(code) => ExitHistory(st, code);
    case JoinOp(t) => BlockHistory(st, OnThread(t), JoinOf(t));
    case JoinAllOp => BlockHistory(st, OnAll, AllJoin);
    case PauseOp => BlockHistory(st, Running, Ready);
    case DownOp(s) => BlockHistory(st, OnSem(s), WaitersOf(s));
    case _ =>
  }

  /** The free list holds at most one thread; it has exited, is not the root and does not run. */
  lemma OnlyTheExitedAreFreed(st: State)
    requires Inv(st) && st.status == Live
    ensures |Items(st, Free)| <= 1
    ensures forall t :: t in Items(st, Free) ==> t in st.h.exits && t != ROOT && t != st.current
  {
    FreeIsDead(st);
    forall t | t in Items(st, Free) ensures t in st.h.exits {
      assert PlaceOk(st, t);
    }
  }

  // ---------------------------------------------------------------- semaphores

  /** No wake-up is lost: behind every token that sleepers could take stands a thread that was woken and will retest. */
  lemma NoLostWakeup(st: State, s: SemId)
    requires Inv(st) && st.status == Live && s in st.sems && Items(st, WaitersOf(s)) != []
    ensures st.sems[s] <= |Woken(st, s)|
    ensures forall t :: t in Woken(st, s) ==> t == st.current || t in Items(st, Ready)
    ensures st.sems[s] > 0 ==> exists t :: Th(st, t).blk == OnSem(s) && (t == st.current || t in Items(st, Ready))
  {
    assert NotLost(st, s);
    forall t | t in Woken(st, s) ensures t == st.current || t in Items(st, Ready) {
      assert PlaceOk(st, t);
    }
    if st.sems[s] > 0 {
      assert Woken(st, s) != {};
      var t :| t in Woken(st, s);
      assert Th(st, t).blk == OnSem(s);
    }
  }

  lemma TokensAreConserved(st: State, s: SemId)
    requires Inv(st) && st.status == Live && s in st.sems
    ensures st.sems[s] == Count(st.h.inits, s) + Count(st.h.ups, s) - Count(st.h.downs, s)
  {
    assert Conserved(st, s);
  }

  // ---------------------------------------------------------------- joins and exits

  /** `thread_join(NULL)` goes on only when the caller is the only live thread. */
  lemma JoinAllMeansAlone(st: State)
    requires Inv(st) && st.status == Live && Me(st).blk == OnAll
    ensures AliveSet(st) == {st.current} && st.num == 1 && Items(st, Ready) == []
  {
    assert PlaceOk(st, st.current);
    ThreadsAreCounted(st);
  }

  lemma WaitsForAll(st: State, t: Tid)
    requires Inv(st) && st.status == Live && t in Items(st, AllJoin)
    ensures Th(st, t).blk == OnAll
  {
    hide SemsOk, AliveSet, NoDup;
    assert t in st.threads && Th(st, t).inList == Some(AllJoin);
    assert PlaceOk(st, t);
  }

  lemma OnlyElement(s: seq<Tid>, t: Tid)
    requires t in s && |s| <= 1
    ensures s == [t]
  {
  }

  /** A thread that waits for everybody is never alone in waiting: somebody else is still alive to wake it. */
  lemma AllJoinerIsNotStranded(st: State, t: Tid)
    requires Inv(st) && st.status == Live && t in Items(st, AllJoin)
    ensures st.num >= 2 && Items(st, AllJoin) == [t] && Th(st, t).blk == OnAll
  {
    hide SemsOk, AliveSet, NoDup, ListsOk;
    WaitsForAll(st, t);
    assert |Items(st, AllJoin)| <= 1;
    hide *;
    OnlyElement(Items(st, AllJoin), t);
  }

  /** Whoever waits for a live thread is on its join list; whoever is past that list holds the exit code. */
  lemma JoinersAreNotStranded(st: State, t: Tid, x: Tid)
    requires Inv(st) && st.status == Live && t in AliveSet(st) && Th(st, t).blk == OnThread(x)
    ensures x in AliveSet(st) ==> t in Items(st, JoinOf(x))
    ensures x !in AliveSet(st) ==>
              (t == st.current || t in Items(st, Ready)) && x in st.h.exits && Th(st, t).code == st.h.exits[x]
  {
    assert PlaceOk(st, t);
    if x in AliveSet(st) {
      assert PlaceOk(st, x);
    }
  }

  lemma CurrentSettled(st: State)
    requires Inv(st) && st.status == Live
    ensures ListsOk(st) && Places(st) && Me(st).alive && Me(st).inList == None && st.current in st.threads
    ensures Items(st, AllJoin) == [] || Items(st, AllJoin) == [Items(st, AllJoin)[0]]
  {
    hide ListsOk, Places, SemsOk;
  }

  lemma DepartsLive(w: State)
    requires Depart(w).status == Live
    ensures w.num >= 2 && Items(w, Ready) != []
  {
  }

  /** An exit readies all joiners in the order they came, then the thread that waits for everybody if it is the last,
      and runs the first ready one. */
  lemma ExitReadiesJoinersInOrder(st: State, code: int)
    requires Inv(st) && st.status == Live && Me(st).blk == Running && Exit(st, code).status == Live
    ensures var e := Exit(st, code);
            [e.current] + Items(e, Ready) ==
            Items(st, Ready) + Items(st, JoinOf(st.current)) + (if st.num == 2 then Items(st, AllJoin) else [])
    ensures forall t :: t in Items(st, JoinOf(st.current)) ==> Th(Exit(st, code), t).code == code
  {
    CurrentSettled(st);
    hide Left, WakeAllJoiner, Places, SemsOk, Inv, Items, Th, ListsOk, Depart;
    var w := WakeAllJoiner(Left(st, code));
    ExitNum(st, code);
    BeforeDeparture(st, code);
    CodesInLeft(st, code);
    DepartsLive(w);
    DepartRuns(w);
  }

  /** The ready list at the end of `thread_exit`, before its call of `run`. */
  lemma BeforeDeparture(st: State, code: int)
    requires ListsOk(st) && Places(st) && Me(st).alive && Me(st).inList == None && st.current in st.threads
             && Me(st).blk == Running
    ensures Items(WakeAllJoiner(Left(st, code)), Ready) ==
            Items(st, Ready) + Items(st, JoinOf(st.current)) + (if st.num == 2 && Items(st, AllJoin) != [] then [Items(st, AllJoin)[0]] else [])
  {
    hide Left, WakeAllJoiner, Th, Places;
    LeftShape(st, code);
    WakeAllJoinerReady(Left(st, code));
  }

  lemma WakeAllJoinerReady(e: State)
    ensures Items(WakeAllJoiner(e), Ready) == Items(e, Ready) + (if e.num == 2 && Items(e, AllJoin) != [] then [Items(e, AllJoin)[0]] else [])
    ensures forall t :: Th(WakeAllJoiner(e), t).code == Th(e, t).code
  {
    if e.num == 2 && Items(e, AllJoin) != [] {
      WakeShape(e, AllJoin);
    }
  }

  lemma CodesInLeft(st: State, code: int)
    requires ListsOk(st) && Places(st) && Me(st).alive && Me(st).inList == None && st.current in st.threads
             && Me(st).blk == Running
    ensures forall t :: t in Items(st, JoinOf(st.current)) ==> Th(WakeAllJoiner(Left(st, code)), t).code == code
  {
    hide Left, WakeAllJoiner, Th, Places;
    LeftShape(st, code);
    FreeIsDead(st);
    JoinersAreParked(st, st.current);
    WakeAllJoinerReady(Left(st, code));
  }

  lemma DepartRuns(w: State)
    requires w.num >= 2 && Items(w, Ready) != []
    ensures var d := Depart(w);
            && [d.current] + Items(d, Ready) == Items(w, Ready) && d.status == w.status && d.h.runs == w.h.runs + 1
            && forall t :: Th(d, t).code == Th(w, t).code
  {
    var d := w.(num := w.num - 1);
    assert forall m :: Items(d, m) == Items(w, m);
    assert forall t :: Th(d, t) == Th(w, t);
    RunShape(d);
  }

  lemma LeftNumber(st: State, code: int)
    ensures Left(st, code).num == st.num && Left(st, code).status == st.status
  {
  }

  lemma ExitNum(st: State, code: int)
    ensures var w := WakeAllJoiner(Left(st, code)); w.num == st.num && w.status == st.status && w.h.runs == st.h.runs
  {
    LeftHistory(st, code);
    LeftNumber(st, code);
    hide Left, WakeAllJoiner;
    WakeHistory(Left(st, code));
  }

  lemma ExitCodesStay(st: State, op: Op, x: Tid)
    requires Inv(st) && Enabled(st, op) && x in st.h.exits
    ensures x in Step(st, op).h.exits && Step(st, op).h.exits[x] == st.h.exits[x]
  {
    assert PlaceOk(st, st.current);
    StepHistory(st, op);
  }

  lemma {:induction false} ExitCodesStayInRuns(tr: seq<State>, ops: seq<Op>, i: nat, j: nat, x: Tid)
    requires IsRun(tr, ops) && Inv(tr[0]) && i <= j < |tr| && x in tr[i].h.exits
    ensures x in tr[j].h.exits && tr[j].h.exits[x] == tr[i].h.exits[x]
  {
    hide Step, Enabled, Inv;
    if i < j {
      ExitCodesStayInRuns(tr, ops, i, j - 1, x);
      EveryStateSatisfiesInv(tr, ops, j - 1);
      ExitCodesStay(tr[j - 1], ops[j - 1], x);
    }
  }

  /** In every run: whoever resumes from joining `x` returns the very code with which `x` exited. */
  lemma JoinReturnsTheExitCode(tr: seq<State>, ops: seq<Op>, i: nat, j: nat, code: int)
    requires IsRun(tr, ops) && Inv(tr[0]) && i < j < |tr|
    requires ops[i] == ExitOp(code) && tr[j].status == Live && Me(tr[j]).blk == OnThread(tr[i].current)
    ensures Me(tr[j]).code == code
  {
    var x := tr[i].current;
    EveryStateSatisfiesInv(tr, ops, i);
    EveryStateSatisfiesInv(tr, ops, j);
    StepHistory(tr[i], ops[i]);
    ExitCodesStayInRuns(tr, ops, i + 1, j, x);
    assert PlaceOk(tr[j], tr[j].current);
  }

  // ---------------------------------------------------------------- round robin

  /** An operation appends to the ready list and calls `run` at most once; the result is the ready list just before
      that. */
  lemma ReadyBeforeRun(st: State, op: Op) returns (q: seq<Tid>)
    requires Inv(st) && Enabled(st, op) && Items(st, Ready) != []
    ensures Items(st, Ready) <= q && Step(st, op).status == Live
    ensures Step(st, op).h.runs == st.h.runs ==> Items(Step(st, op), Ready) == q
    ensures Step(st, op).h.runs != st.h.runs ==>
              Step(st, op).h.runs == st.h.runs + 1 && [Step(st, op).current] + Items(Step(st, op), Ready) == q
  {
    var r := Step(st, op);
    match op
    case NewOp(args, memory) => ReleaseShape(st); SpawnShape(Release(st), args); q := Items(r, Ready);
    case ExitOp(code) => q := ExitRuns(st, code);
    case JoinOp(t) => q := if Th(st, t).alive then BlockRuns(st, OnThread(t), JoinOf(t)) else Items(st, Ready);
    case JoinAllOp => q := if st.num > 1 then BlockRuns(st, OnAll, AllJoin) else Items(st, Ready);
    case PauseOp => q := BlockRuns(st, Running, Ready);
    case DownOp(s) => q := if st.sems[s] == 0 then BlockRuns(st, OnSem(s), WaitersOf(s)) else Items(st, Ready);
    case UpOp(s) =>
      if Items(st, WaitersOf(s)) != [] {
        UpIsWake(st, s);
      }
      q := Items(r, Ready);
    case _ => q := Items(st, Ready);
  }

  lemma UpIsWake(st: State, s: SemId)
    requires s in st.sems && Items(st, WaitersOf(s)) != []
    ensures Items(UpSem(st, s), Ready) == Items(st, Ready) + [Items(st, WaitersOf(s))[0]]
  {
    WakeShape(AddToken(st, s), WaitersOf(s));
  }

  function BlockRuns(st: State, b: Blocked, l: ListId): (q: seq<Tid>)
    requires Items(st, Ready) != []
    ensures Items(st, Ready) <= q && [Block(st, b, l).current] + Items(Block(st, b, l), Ready) == q
    ensures Block(st, b, l).status == st.status && Block(st, b, l).h.runs == st.h.runs + 1
  {
    ParkedShape(st, b, l);
    RunShape(Parked(st, b, l));
    Items(Parked(st, b, l), Ready)
  }

  lemma ExitRuns(st: State, code: int) returns (q: seq<Tid>)
    requires Inv(st) && st.status == Live && Me(st).blk == Running && Items(st, Ready) != []
    ensures Items(st, Ready) <= q && [Exit(st, code).current] + Items(Exit(st, code), Ready) == q
    ensures Exit(st, code).status == Live && Exit(st, code).h.runs == st.h.runs + 1
  {
    ThreadsAreCounted(st);
    ExitNum(st, code);
    BeforeDeparture(st, code);
    q := Items(WakeAllJoiner(Left(st, code)), Ready);
    DepartRuns(WakeAllJoiner(Left(st, code)));
  }

  /** One operation moves a ready thread up by one, or makes it run, exactly when it calls `run`. */
  lemma ReadyMovesUp(st: State, op: Op, j: nat)
    requires Inv(st) && Enabled(st, op) && j < |Items(st, Ready)|
    ensures var r, t := Step(st, op), Items(st, Ready)[j];
            && r.status == Live
            && (r.h.runs == st.h.runs || r.h.runs == st.h.runs + 1)
            && (r.h.runs == st.h.runs ==> j < |Items(r, Ready)| && Items(r, Ready)[j] == t)
            && (r.h.runs == st.h.runs + 1 ==> if j == 0 then r.current == t else j - 1 < |Items(r, Ready)| && Items(r, Ready)[j - 1] == t)
  {
    hide Step, Inv, Enabled;
    var q := ReadyBeforeRun(st, op);
    assert q[j] == Items(st, Ready)[j];
  }

  lemma ReadyMovesUpInRun(tr: seq<State>, ops: seq<Op>, n: nat, j: nat)
    requires IsRun(tr, ops) && Inv(tr[0]) && n < |ops| && j < |Items(tr[n], Ready)|
    ensures var st, r, t := tr[n], tr[n + 1], Items(tr[n], Ready)[j];
            && r.status == Live
            && (r.h.runs == st.h.runs || r.h.runs == st.h.runs + 1)
            && (r.h.runs == st.h.runs ==> j < |Items(r, Ready)| && Items(r, Ready)[j] == t)
            && (r.h.runs == st.h.runs + 1 ==> if j == 0 then r.current == t else j - 1 < |Items(r, Ready)| && Items(r, Ready)[j - 1] == t)
  {
    EveryStateSatisfiesInv(tr, ops, n);
    ReadyMovesUp(tr[n], ops[n], j);
  }

  lemma RunsGrow(tr: seq<State>, ops: seq<Op>, n: nat)
    requires IsRun(tr, ops) && n < |ops|
    ensures tr[n].h.runs <= tr[n + 1].h.runs
  {
    var st, op := tr[n], ops[n];
    assert tr[n + 1] == Step(st, op);
    StepHistory(st, op);
  }

  /** Round robin over whole runs: the thread at index k of the ready list stays ready, moves up by one with each call
      of `run`, and is the running thread right after exactly k + 1 of them. */
  lemma {:induction false} RoundRobin(tr: seq<State>, ops: seq<Op>, k: nat, n: nat)
    requires IsRun(tr, ops) && Inv(tr[0]) && tr[0].status == Live && k < |Items(tr[0], Ready)| && n < |tr|
    requires n > 0 ==> tr[n - 1].h.runs <= tr[0].h.runs + k
    ensures tr[n].status == Live && tr[0].h.runs <= tr[n].h.runs <= tr[0].h.runs + k + 1
    ensures var d := tr[n].h.runs - tr[0].h.runs;
            if d <= k then k - d < |Items(tr[n], Ready)| && Items(tr[n], Ready)[k - d] == Items(tr[0], Ready)[k]
            else tr[n].current == Items(tr[0], Ready)[k]
  {
    hide Step, Enabled, Inv;
    if n > 0 {
      if n > 1 {
        RunsGrow(tr, ops, n - 2);
      }
      RoundRobin(tr, ops, k, n - 1);
      ReadyMovesUpInRun(tr, ops, n - 1, k - (tr[n - 1].h.runs - tr[0].h.runs));
    }
  }
}

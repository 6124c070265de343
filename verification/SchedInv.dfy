/** What holds in every reachable state of the scheduler. */
module SchedInv {
  import opened Basics
  import opened Sched

  /** No list holds a thread twice, and `inList` names the only list a thread is on. */
  ghost predicate ListsOk(st: State) {
    && (forall l :: NoDup(Items(st, l)))
    && (forall l, t :: t in Items(st, l) ==> t in st.threads && Th(st, t).inList == Some(l))
    && (forall t :: Th(st, t).inList.Some? ==> t in Items(st, Th(st, t).inList.value))
  }

  /** What a thread that is neither blocked nor new can find when it goes on. */
  ghost predicate MayGoOn(st: State, t: Tid) {
    match Th(st, t).blk
    case Running => true
    case OnSem(s) => s in st.sems
    case OnThread(x) => x in st.h.exits && Th(st, t).code == st.h.exits[x]
    case OnAll => AliveSet(st) == {t}
  }

  /** The list a thread is on agrees with the call it stopped in. */
  ghost predicate PlaceOk(st: State, t: Tid) {
    var u := Th(st, t);
    if !u.alive then
      t in st.h.exits && u.inList == if t == ROOT then None else Some(Free)
    else
      && t !in st.h.exits
      && match u.inList
         case None => t == st.current && MayGoOn(st, t)
         case Some(Ready) => MayGoOn(st, t)
         case Some(Free) => false
         case Some(AllJoin) => u.blk == OnAll
         case Some(JoinOf(x)) => u.blk == OnThread(x) && x != t && Th(st, x).alive
         case Some(WaitersOf(s)) => u.blk == OnSem(s) && s in st.sems
  }

  /** The threads a semaphore has woken that have not retested its value yet. */
  ghost function Woken(st: State, s: SemId): set<Tid> {
    set t | t in st.threads && Th(st, t).alive && Th(st, t).blk == OnSem(s) && Th(st, t).inList != Some(WaitersOf(s))
  }

  ghost predicate NotLost(st: State, s: SemId)
    requires s in st.sems
  {
    Items(st, WaitersOf(s)) != [] ==> st.sems[s] <= |Woken(st, s)|
  }

  ghost predicate Conserved(st: State, s: SemId)
    requires s in st.sems
  {
    st.sems[s] + Count(st.h.downs, s) == Count(st.h.inits, s) + Count(st.h.ups, s)
  }

  ghost predicate Places(st: State) {
    && ROOT in st.threads
    && (forall t :: t in st.threads ==> t < st.next && PlaceOk(st, t))
    && (forall t :: t in st.h.exits ==> t < st.next)
  }

  ghost predicate SemsOk(st: State) {
    forall s :: s in st.sems ==> NotLost(st, s) && Conserved(st, s)
  }

  /** The part that also holds in the middle of an operation; `leaving` is 1 while `thread_exit` has yet to count
      itself out. */
  ghost predicate Settled(st: State, leaving: nat) {
    && ListsOk(st) && Places(st) && SemsOk(st)
    && st.num == |AliveSet(st)| + leaving
    && |Items(st, Free)| <= 1 && |Items(st, AllJoin)| <= 1
  }

  ghost predicate Inv(st: State) {
    st.status == Live ==>
      && Settled(st, 0)
      && Me(st).alive && Me(st).inList == None
      && (Items(st, AllJoin) != [] ==> st.num >= 2)
  }

  // ---------------------------------------------------------------- sets and lists

  ghost function Elems(s: seq<Tid>): set<Tid> {
    set t | t in s
  }

  lemma SubsetSize(a: set<Tid>, b: set<Tid>)
    requires a <= b
    ensures |a| <= |b|
  {
    assert b == a + (b - a);
  }

  lemma PutShape(st: State, t: Tid, l: ListId)
    ensures var p := Put(st, t, l);
            && (forall m :: Items(p, m) == if m == l then Items(st, l) + [t] else Items(st, m))
            && (forall u :: Th(p, u) == if u == t then Th(st, t).(inList := Some(l)) else Th(st, u))
            && p == st.(threads := p.threads, lists := p.lists) && p.threads.Keys == st.threads.Keys + {t}
  {
  }

  lemma GetShape(st: State, l: ListId)
    requires Items(st, l) != []
    ensures var g, t := Get(st, l), Items(st, l)[0];
            && (forall m :: Items(g, m) == if m == l then Items(st, l)[1..] else Items(st, m))
            && (forall u :: Th(g, u) == if u == t then Th(st, u).(inList := None) else Th(st, u))
            && g == st.(threads := g.threads, lists := g.lists) && g.threads.Keys == st.threads.Keys + {t}
  {
  }

  lemma AppendKeepsNoDup(s: seq<Tid>, t: Tid)
    requires NoDup(s) && t !in s
    ensures NoDup(s + [t])
  {
  }

  lemma PutLists(st: State, t: Tid, l: ListId)
    requires ListsOk(st) && Th(st, t).inList == None && t in st.threads
    ensures ListsOk(Put(st, t, l))
  {
    hide Put, Items, Th, NoDup;
    PutShape(st, t, l);
    AppendKeepsNoDup(Items(st, l), t);
  }

  lemma TailKeepsNoDup(s: seq<Tid>)
    requires NoDup(s) && s != []
    ensures NoDup(s[1..]) && s[0] in s && s[0] !in s[1..]
    ensures forall t :: t in s ==> t == s[0] || t in s[1..]
    ensures forall t :: t in s[1..] ==> t in s
  {
  }

  lemma GetLists(st: State, l: ListId)
    requires ListsOk(st) && Items(st, l) != []
    ensures ListsOk(Get(st, l))
  {
    hide Get, Items, Th, NoDup;
    GetShape(st, l);
    TailKeepsNoDup(Items(st, l));
  }

  lemma SameThreadsKeepLists(st: State, st': State)
    requires ListsOk(st)
    requires forall l :: Items(st', l) == Items(st, l)
    requires forall t :: (t in st'.threads <==> t in st.threads) && Th(st', t).inList == Th(st, t).inList
    ensures ListsOk(st')
  {
  }

  // ---------------------------------------------------------------- steps shared by the operations

  /** Frame rule for the semaphores: no waiter appears, no token is made and no woken thread gets lost. */
  lemma KeepSems(st: State, st': State)
    requires SemsOk(st)
    requires st'.sems == st.sems && st'.h.inits == st.h.inits && st'.h.ups == st.h.ups && st'.h.downs == st.h.downs
    requires forall s :: s in st.sems && Items(st', WaitersOf(s)) != [] && st.sems[s] > 0 ==>
                           Items(st, WaitersOf(s)) != [] && Woken(st, s) <= Woken(st', s)
    ensures SemsOk(st')
  {
    forall s | s in st'.sems ensures NotLost(st', s) && Conserved(st', s) {
      if Items(st', WaitersOf(s)) != [] && st.sems[s] > 0 {
        SubsetSize(Woken(st, s), Woken(st', s));
      }
    }
  }

  lemma RunShape(st: State)
    requires Items(st, Ready) != []
    ensures var r, t := Run(st), Items(st, Ready)[0];
            && (forall m :: Items(r, m) == if m == Ready then Items(st, Ready)[1..] else Items(st, m))
            && (forall u :: Th(r, u) == if u == t then Th(st, t).(inList := None) else Th(st, u))
            && r == st.(current := t, threads := r.threads, lists := r.lists, h := st.h.(runs := st.h.runs + 1))
            && r.threads.Keys == st.threads.Keys + {t}
  {
  }

  /** The same threads are alive, and nothing but their lists and calls differs. */
  ghost predicate SameRoster(st: State, st': State) {
    && st'.threads.Keys == st.threads.Keys
    && (forall u :: Th(st', u).alive == Th(st, u).alive)
    && st'.next == st.next && st'.num == st.num && st'.h.exits == st.h.exits
    && st'.sems.Keys == st.sems.Keys
  }

  lemma SameRosterAlive(st: State, st': State)
    requires SameRoster(st, st')
    ensures AliveSet(st') == AliveSet(st)
  {
    forall u ensures u in AliveSet(st') <==> u in AliveSet(st) {
      assert Th(st', u).alive == Th(st, u).alive;
    }
  }

  lemma PlaceAt(st: State, t: Tid)
    requires Places(st) && t in st.threads
    ensures PlaceOk(st, t) && t < st.next
  {
  }

  /** A thread that did not move keeps its place. */
  lemma PlaceFrame(st: State, st': State, t: Tid)
    requires PlaceOk(st, t) && SameRoster(st, st') && AliveSet(st') == AliveSet(st) && Th(st', t) == Th(st, t)
    requires Th(st, t).alive && Th(st, t).inList == None ==> st'.current == t
    ensures PlaceOk(st', t)
  {
    hide AliveSet, Th;
  }

  /** Only thread `t` moved. */
  lemma PlacesAfter(st: State, st': State, t: Tid)
    requires Places(st) && SameRoster(st, st') && PlaceOk(st', t)
    requires forall u :: u != t ==> Th(st', u) == Th(st, u)
    requires t == st.current || st'.current == st.current || Th(st, st.current).inList != None || !Th(st, st.current).alive
    ensures Places(st') && AliveSet(st') == AliveSet(st)
  {
    hide AliveSet, Th, SameRoster;
    SameRosterAlive(st, st');
    forall u | u in st'.threads ensures u < st'.next && PlaceOk(st', u) {
      assert u in st.threads && st'.next == st.next by {
        SameRosterKeys(st, st');
      }
      PlaceAt(st, u);
      if u != t {
        PlaceFrame(st, st', u);
      }
    }
    SameRosterKeys(st, st');
  }

  lemma SameRosterKeys(st: State, st': State)
    requires SameRoster(st, st')
    ensures st'.threads.Keys == st.threads.Keys && st'.next == st.next && st'.h.exits == st.h.exits
  {
  }

  lemma RunPlaces(st: State)
    requires ListsOk(st) && Places(st) && Items(st, Ready) != []
    requires Th(st, st.current).inList == None ==> !Th(st, st.current).alive
    ensures Places(Run(st)) && Me(Run(st)).alive && Me(Run(st)).inList == None && AliveSet(Run(st)) == AliveSet(st)
  {
    hide Run, Items, Th, AliveSet, Places;
    var t, r := Items(st, Ready)[0], Run(st);
    RunShape(st);
    assert t in Items(st, Ready);
    PlaceAt(st, t);
    SameRosterAlive(st, r);
    PlacesAfter(st, r, t);
  }

  lemma RunSems(st: State)
    requires SemsOk(st) && Items(st, Ready) != [] && Th(st, Items(st, Ready)[0]).inList == Some(Ready)
    ensures SemsOk(Run(st))
  {
    hide Run, Items, Th, NotLost, Conserved, SemsOk;
    RunShape(st);
    KeepSems(st, Run(st));
  }

  lemma RunLists(st: State)
    requires ListsOk(st) && Items(st, Ready) != []
    ensures ListsOk(Run(st)) && Th(st, Items(st, Ready)[0]).inList == Some(Ready)
  {
    hide Items, NoDup;
    assert Items(st, Ready)[0] in Items(st, Ready);
    GetLists(st, Ready);
    RunShape(st);
    GetShape(st, Ready);
    SameThreadsKeepLists(Get(st, Ready), Run(st));
  }

  lemma RunKeeps(st: State)
    requires st.status == Live && Settled(st, 0)
    requires Th(st, st.current).inList == None ==> !Th(st, st.current).alive
    requires Items(st, AllJoin) != [] ==> st.num >= 2
    ensures Inv(Run(st))
    ensures Items(st, Ready) != [] ==> Run(st).status == Live
  {
    hide ListsOk, Places, SemsOk, Th, AliveSet;
    if Items(st, Ready) != [] {
      var t, r := Items(st, Ready)[0], Run(st);
      RunShape(st);
      RunLists(st);
      RunPlaces(st);
      RunSems(st);
    }
  }

  // ---------------------------------------------------------------- blocking

  /** The lists a thread may join, each with the call it then stops in. */
  ghost predicate MayBlock(st: State, b: Blocked, l: ListId) {
    && (Me(st).blk == Running || (b.OnSem? && Me(st).blk == b))
    && match l
       case Ready => b == Running
       case Free => false
       case AllJoin => b == OnAll && Items(st, AllJoin) == [] && st.num >= 2
       case JoinOf(x) => b == OnThread(x) && x != st.current && Th(st, x).alive
       case WaitersOf(s) => b == OnSem(s) && s in st.sems && st.sems[s] == 0
  }

  function Parked(st: State, b: Blocked, l: ListId): State {
    Put(SetBlk(st, b), st.current, l)
  }

  lemma ParkedShape(st: State, b: Blocked, l: ListId)
    ensures var p := Parked(st, b, l);
            && (forall m :: Items(p, m) == if m == l then Items(st, l) + [st.current] else Items(st, m))
            && (forall u :: Th(p, u) == if u == st.current then Me(st).(inList := Some(l), blk := b) else Th(st, u))
            && p == st.(threads := p.threads, lists := p.lists) && p.threads.Keys == st.threads.Keys + {st.current}
  {
  }

  lemma ParkedPlaces(st: State, b: Blocked, l: ListId)
    requires Places(st) && Me(st).alive && Me(st).inList == None && MayBlock(st, b, l) && st.current in st.threads
    ensures Places(Parked(st, b, l)) && AliveSet(Parked(st, b, l)) == AliveSet(st)
  {
    hide Parked, Items, Th, AliveSet, Places;
    var p := Parked(st, b, l);
    ParkedShape(st, b, l);
    PlaceAt(st, st.current);
    SameRosterAlive(st, p);
    PlacesAfter(st, p, st.current);
  }

  lemma ParkedSems(st: State, b: Blocked, l: ListId)
    requires SemsOk(st) && MayBlock(st, b, l) && Me(st).inList == None
    ensures SemsOk(Parked(st, b, l))
  {
    hide Parked, Items, Th, NotLost, Conserved, SemsOk;
    ParkedShape(st, b, l);
    KeepSems(st, Parked(st, b, l));
  }

  lemma ParkedLists(st: State, b: Blocked, l: ListId)
    requires ListsOk(st) && Me(st).inList == None && st.current in st.threads
    ensures ListsOk(Parked(st, b, l))
  {
    SameThreadsKeepLists(st, SetBlk(st, b));
    PutLists(SetBlk(st, b), st.current, l);
  }

  lemma BlockIsParked(st: State, b: Blocked, l: ListId)
    ensures Block(st, b, l) == Run(Parked(st, b, l))
  {
    hide Run;
  }

  lemma BlockKeeps(st: State, b: Blocked, l: ListId)
    requires Inv(st) && st.status == Live && MayBlock(st, b, l) && st.current in st.threads
    ensures Inv(Block(st, b, l))
  {
    hide ListsOk, Places, SemsOk, Th, AliveSet, Parked, Run;
    ParkedLists(st, b, l);
    ParkedPlaces(st, b, l);
    ParkedSems(st, b, l);
    ParkedShape(st, b, l);
    assert Block(st, b, l) == Run(Parked(st, b, l)) by {
      BlockIsParked(st, b, l);
    }
    RunKeeps(Parked(st, b, l));
  }

  // ---------------------------------------------------------------- semaphores

  lemma WakeShape(st: State, l: ListId)
    requires Items(st, l) != [] && l != Ready
    ensures var w, t := Wake(st, l), Items(st, l)[0];
            && (forall m :: Items(w, m) == if m == l then Items(st, l)[1..]
                                            else if m == Ready then Items(st, Ready) + [t] else Items(st, m))
            && (forall x :: Th(w, x) == if x == t then Th(st, t).(inList := Some(Ready)) else Th(st, x))
            && w == st.(threads := w.threads, lists := w.lists) && w.threads.Keys == st.threads.Keys + {t}
  {
    GetShape(st, l);
    PutShape(Get(st, l), Items(st, l)[0], Ready);
  }

  lemma WakeLists(st: State, l: ListId)
    requires ListsOk(st) && Items(st, l) != []
    ensures ListsOk(Wake(st, l))
  {
    hide Items, NoDup, Put;
    assert Items(st, l)[0] in Items(st, l);
    GetLists(st, l);
    GetShape(st, l);
    PutLists(Get(st, l), Items(st, l)[0], Ready);
  }

  lemma WakePlaces(st: State, l: ListId)
    requires ListsOk(st) && Places(st) && Items(st, l) != [] && l != Ready
    requires Th(st, Items(st, l)[0]).alive && MayGoOn(st, Items(st, l)[0])
    ensures Places(Wake(st, l)) && SameRoster(st, Wake(st, l))
  {
    hide Wake, Items, Th, AliveSet, Places;
    var w, t := Wake(st, l), Items(st, l)[0];
    assert t in Items(st, l);
    WakeShape(st, l);
    PlaceAt(st, t);
    SameRosterAlive(st, w);
    PlacesAfter(st, w, t);
  }

  lemma WaiterIsParked(st: State, s: SemId)
    requires ListsOk(st) && Places(st)
    ensures forall t :: t in Items(st, WaitersOf(s)) ==> Th(st, t).alive && Th(st, t).blk == OnSem(s) && s in st.sems
  {
    forall t | t in Items(st, WaitersOf(s)) ensures Th(st, t).alive && Th(st, t).blk == OnSem(s) && s in st.sems {
      assert PlaceOk(st, t);
    }
  }

  /** Waking a thread of `s` pays for one more token. */
  lemma WakePays(st: State, s: SemId)
    requires ListsOk(st) && s in st.sems && Items(st, WaitersOf(s)) != []
    requires Th(st, Items(st, WaitersOf(s))[0]).alive && Th(st, Items(st, WaitersOf(s))[0]).blk == OnSem(s)
    ensures var w := Wake(st, WaitersOf(s));
            && |Woken(w, s)| == |Woken(st, s)| + 1
            && (forall x :: x != s ==> Woken(w, x) == Woken(st, x))
  {
    hide Wake, Items, Th;
    var w, t := Wake(st, WaitersOf(s)), Items(st, WaitersOf(s))[0];
    WakeShape(st, WaitersOf(s));
    assert t in Items(st, WaitersOf(s));
    assert t !in Woken(st, s);
    assert Woken(w, s) == Woken(st, s) + {t};
  }

  lemma AddTokenShape(st: State, s: SemId)
    requires s in st.sems
    ensures forall m :: Items(AddToken(st, s), m) == Items(st, m)
    ensures forall x :: Th(AddToken(st, s), x) == Th(st, x)
  {
  }

  /** An up counts a token and, with it, wakes the first waiter. */
  lemma UpPays(st: State, s: SemId)
    requires ListsOk(st) && Places(st) && s in st.sems
    ensures var u, ws := UpSem(st, s), Items(st, WaitersOf(s));
            && u.sems == st.sems[s := st.sems[s] + 1] && u.h == st.h.(ups := st.h.ups[s := Count(st.h.ups, s) + 1])
            && |Woken(u, s)| == |Woken(st, s)| + (if ws == [] then 0 else 1)
            && (forall x :: x != s ==> Woken(u, x) == Woken(st, x))
            && forall x :: Items(u, WaitersOf(x)) == if x == s && ws != [] then ws[1..] else Items(st, WaitersOf(x))
  {
    var a, ws := AddToken(st, s), Items(st, WaitersOf(s));
    AddTokenShape(st, s);
    hide Items, Th, Places, ListsOk, AddToken, Wake;
    SameThreadsKeepLists(st, a);
    WaiterIsParked(st, s);
    AddTokenIs(st, s);
    assert forall x :: Woken(a, x) == Woken(st, x);
    hide Woken;
    if ws != [] {
      assert ws[0] in ws;
      WakePays(a, s);
      WakeShape(a, WaitersOf(s));
    } else {
      WakeNobody(a, WaitersOf(s));
    }
  }

  lemma AddTokenIs(st: State, s: SemId)
    requires s in st.sems
    ensures AddToken(st, s) == st.(sems := st.sems[s := st.sems[s] + 1], h := st.h.(ups := st.h.ups[s := Count(st.h.ups, s) + 1]))
  {
  }

  lemma ExitIs(st: State, code: int)
    ensures Exit(st, code) == Depart(WakeAllJoiner(Left(st, code)))
  {
    hide Depart, WakeAllJoiner, Left;
  }

  lemma WakeNobody(st: State, l: ListId)
    requires Items(st, l) == []
    ensures Wake(st, l) == st
  {
  }

  lemma UpSems(st: State, s: SemId)
    requires SemsOk(st) && ListsOk(st) && Places(st) && s in st.sems
    ensures SemsOk(UpSem(st, s))
  {
    var u := UpSem(st, s);
    UpPays(st, s);
    hide Items, Woken, Places, ListsOk, UpSem;
    forall x | x in u.sems ensures NotLost(u, x) && Conserved(u, x) {
      assert NotLost(st, x) && Conserved(st, x);
    }
  }

  lemma NotOnItsList(st: State, l: ListId)
    requires ListsOk(st) && Me(st).inList == None
    ensures st.current !in Items(st, l)
  {
  }

  lemma UpKeeps(st: State, s: SemId)
    requires Inv(st) && st.status == Live && s in st.sems
    ensures Inv(UpSem(st, s))
  {
    hide Items, ListsOk, Places, SemsOk, AliveSet;
    var a, u, ws := AddToken(st, s), UpSem(st, s), Items(st, WaitersOf(s));
    AddTokenShape(st, s);
    SameThreadsKeepLists(st, a);
    SameThreadsKeepPlaces(st, a);
    UpSems(st, s);
    if ws != [] {
      WaiterIsParked(st, s);
      assert ws[0] in ws;
      WakeLists(a, WaitersOf(s));
      WakePlaces(a, WaitersOf(s));
      WakeShape(a, WaitersOf(s));
      SameRosterAlive(a, u);
      NotOnItsList(st, WaitersOf(s));
    }
  }

  lemma TakeShape(st: State, s: SemId)
    requires s in st.sems && st.sems[s] > 0 && st.current in st.threads
    ensures var u := TakeToken(SetBlk(st, Running), s);
            && (forall m :: Items(u, m) == Items(st, m))
            && (forall x :: Th(u, x) == if x == st.current then Me(st).(blk := Running) else Th(st, x))
            && u == st.(threads := u.threads, sems := st.sems[s := st.sems[s] - 1], h := st.h.(downs := st.h.downs[s := Count(st.h.downs, s) + 1]))
            && u.threads.Keys == st.threads.Keys
  {
  }

  lemma TakeSems(st: State, s: SemId)
    requires SemsOk(st) && s in st.sems && st.sems[s] > 0 && Me(st).alive && Me(st).inList == None
             && st.current in st.threads
    requires Me(st).blk == Running || Me(st).blk == OnSem(s)
    ensures SemsOk(TakeToken(SetBlk(st, Running), s))
  {
    var u, me := TakeToken(SetBlk(st, Running), s), st.current;
    TakeShape(st, s);
    hide TakeToken, SetBlk, Items, Th;
    forall x | x in u.sems ensures NotLost(u, x) && Conserved(u, x) {
      assert NotLost(st, x) && Conserved(st, x);
      assert Woken(u, x) == Woken(st, x) - {me};
      assert x != s ==> me !in Woken(st, x);
      assert me in Woken(st, s) || Woken(u, s) == Woken(st, s);
    }
  }

  lemma SettingRunningKeepsPlaces(st: State)
    requires Places(st) && st.current in st.threads && Me(st).alive && Me(st).inList == None
    ensures Places(Resume(st)) && SameRoster(st, Resume(st))
  {
    var r := Resume(st);
    assert forall x :: Th(r, x) == if x == st.current then Me(st).(blk := Running) else Th(st, x);
    assert r.threads.Keys == st.threads.Keys;
    SameRosterAlive(st, r);
    forall x | x in r.threads ensures x < r.next && PlaceOk(r, x) {
      assert PlaceOk(st, x);
    }
  }

  lemma SameThreadsKeepPlaces(st: State, st': State)
    requires Places(st) && st'.threads == st.threads && st'.current == st.current && st'.next == st.next
    requires st'.sems.Keys >= st.sems.Keys && st'.h.exits == st.h.exits
    ensures Places(st') && AliveSet(st') == AliveSet(st)
  {
    assert AliveSet(st') == AliveSet(st);
    forall x | x in st'.threads ensures x < st'.next && PlaceOk(st', x) {
      assert PlaceOk(st, x);
    }
  }

  lemma TakeKeeps(st: State, s: SemId)
    requires Inv(st) && st.status == Live && s in st.sems && st.sems[s] > 0
    requires Me(st).blk == Running || Me(st).blk == OnSem(s)
    ensures Inv(TakeToken(SetBlk(st, Running), s))
  {
    var r := SetBlk(st, Running);
    var u := TakeToken(r, s);
    SettingRunningKeepsPlaces(st);
    SameRosterAlive(st, r);
    SameThreadsKeepPlaces(r, u);
    SameThreadsKeepLists(st, u);
    TakeSems(st, s);
  }

  lemma ResumeKeeps(st: State)
    requires Inv(st) && st.status == Live && (Me(st).blk.OnThread? || Me(st).blk.OnAll?)
    ensures Inv(Resume(st))
  {
    var r := Resume(st);
    SettingRunningKeepsPlaces(st);
    SameRosterAlive(st, r);
    SameThreadsKeepLists(st, r);
    KeepSems(st, r);
  }

  lemma WaitersAreNotIdle(st: State, s: SemId)
    requires ListsOk(st) && Places(st) && Items(st, WaitersOf(s)) != []
    ensures !Idle(st, s)
  {
    WaiterIsParked(st, s);
    assert Items(st, WaitersOf(s))[0] in Items(st, WaitersOf(s));
  }

  lemma InitSems(st: State, s: SemId, v: nat)
    requires SemsOk(st) && Items(st, WaitersOf(s)) == []
    ensures SemsOk(InitSem(st, s, v))
  {
    var i := InitSem(st, s, v);
    forall x | x in i.sems ensures NotLost(i, x) && Conserved(i, x) {
      assert Woken(i, x) == Woken(st, x);
      assert x != s ==> NotLost(st, x) && Conserved(st, x);
    }
  }

  lemma InitKeeps(st: State, s: SemId, v: nat)
    requires Inv(st) && st.status == Live && Idle(st, s)
    ensures Inv(InitSem(st, s, v))
  {
    SameThreadsKeepPlaces(st, InitSem(st, s, v));
    SameThreadsKeepLists(st, InitSem(st, s, v));
    assert Items(st, WaitersOf(s)) == [] by {
      if Items(st, WaitersOf(s)) != [] {
        WaitersAreNotIdle(st, s);
      }
    }
    InitSems(st, s, v);
  }

  // ---------------------------------------------------------------- thread_new

  lemma ReleaseShape(st: State)
    ensures var r, f := Release(st), Items(st, Free);
            && (forall m :: Items(r, m) == if m == Free then [] else Items(st, m))
            && (forall u :: Th(r, u) == if u in f then NOBODY else Th(st, u))
            && r.threads.Keys == st.threads.Keys - Elems(f) && r == st.(threads := r.threads, lists := r.lists)
  {
  }

  lemma FreeIsDead(st: State)
    requires ListsOk(st) && Places(st)
    ensures forall t :: t in Items(st, Free) ==> !Th(st, t).alive && t != ROOT
  {
    forall t | t in Items(st, Free) ensures !Th(st, t).alive && t != ROOT {
      assert PlaceOk(st, t);
    }
  }

  lemma ReleaseKeeps(st: State, leaving: nat)
    requires Settled(st, leaving)
    ensures Settled(Release(st), leaving) && Items(Release(st), Free) == []
    ensures AliveSet(Release(st)) == AliveSet(st)
  {
    var r := Release(st);
    ReleaseShape(st);
    FreeIsDead(st);
    ReleaseLists(st);
    ReleasePlaces(st);
    KeepSems(st, r);
  }

  lemma ReleaseLists(st: State)
    requires ListsOk(st)
    ensures ListsOk(Release(st))
  {
    hide Release, Items, Th, NoDup;
    var r := Release(st);
    ReleaseShape(st);
    EmptyNoDup();
    forall l, t | l != Free && t in Items(r, l) ensures t in r.threads && Th(r, t).inList == Some(l) {
      assert t in Items(st, l) && Th(st, t).inList == Some(l);
      assert t in Items(st, Free) ==> Th(st, t).inList == Some(Free);
    }
  }

  lemma ReleasePlaces(st: State)
    requires Places(st)
    requires forall t :: t in Items(st, Free) ==> !Th(st, t).alive && t != ROOT
    ensures Places(Release(st)) && AliveSet(Release(st)) == AliveSet(st)
  {
    var r := Release(st);
    ReleaseShape(st);
    assert AliveSet(r) == AliveSet(st);
    forall x | x in r.threads ensures x < r.next && PlaceOk(r, x) {
      assert PlaceOk(st, x);
    }
  }

  lemma SpawnShape(st: State, args: seq<int>)
    ensures var p := Spawn(st, args);
            && (forall m :: Items(p, m) == if m == Ready then Items(st, Ready) + [st.next] else Items(st, m))
            && (forall u :: Th(p, u) == if u == st.next then Thread(true, Some(Ready), 0, args, Running) else Th(st, u))
            && p.threads.Keys == st.threads.Keys + {st.next}
            && p == st.(threads := p.threads, lists := p.lists, num := st.num + 1, next := st.next + 1)
  {
  }

  lemma SpawnLists(st: State, args: seq<int>)
    requires ListsOk(st) && st.next !in st.threads
    ensures ListsOk(Spawn(st, args))
  {
    hide Spawn, Items, Th;
    SpawnShape(st, args);
  }

  lemma SpawnAlive(st: State, args: seq<int>)
    requires Places(st)
    ensures AliveSet(Spawn(st, args)) == AliveSet(st) + {st.next} && st.next !in AliveSet(st)
  {
    hide PlaceOk;
    SpawnShape(st, args);
  }

  /** With a running thread that is not waiting for everybody, nobody can be past such a wait. */
  lemma NobodyElseIsAlone(st: State, t: Tid)
    requires st.current in st.threads && Me(st).alive && Me(st).blk == Running
    ensures Th(st, t).blk == OnAll ==> AliveSet(st) != {t}
  {
    assert st.current in AliveSet(st);
  }

  lemma NextIsNew(st: State)
    requires Places(st)
    ensures st.next !in st.threads && st.next !in st.h.exits
  {
    hide PlaceOk;
  }

  lemma PlacesBasics(st: State)
    requires Places(st)
    ensures ROOT in st.threads && forall t :: t in st.h.exits ==> t < st.next
  {
  }

  lemma PlacesIntro(st: State)
    requires ROOT in st.threads && forall t :: t in st.h.exits ==> t < st.next
    requires forall t :: t in st.threads ==> t < st.next && PlaceOk(st, t)
    ensures Places(st)
  {
  }

  lemma SpawnPlaces(st: State, args: seq<int>)
    requires Places(st) && Me(st).alive && st.current in st.threads && Me(st).blk == Running
    ensures Places(Spawn(st, args))
  {
    hide Spawn, Items, Th, AliveSet, Places;
    var p := Spawn(st, args);
    SpawnShape(st, args);
    SpawnAlive(st, args);
    forall x | x in p.threads ensures x < p.next && PlaceOk(p, x) {
      if x != st.next {
        PlaceAt(st, x);
        NobodyElseIsAlone(st, x);
      } else {
        NextIsNew(st);
      }
    }
    PlacesBasics(st);
    PlacesIntro(p);
  }

  lemma SpawnSems(st: State, args: seq<int>)
    requires SemsOk(st) && st.next !in st.threads
    ensures SemsOk(Spawn(st, args))
  {
    hide Spawn, Items, Th, NotLost, Conserved;
    SpawnShape(st, args);
    KeepSems(st, Spawn(st, args));
  }

  lemma SpawnKeeps(st: State, args: seq<int>)
    requires Settled(st, 0) && Me(st).alive && st.current in st.threads && Me(st).blk == Running
             && Items(st, Free) == []
    ensures Settled(Spawn(st, args), 0)
  {
    hide ListsOk, Places, SemsOk, AliveSet;
    NextIsNew(st);
    SpawnLists(st, args);
    SpawnPlaces(st, args);
    SpawnSems(st, args);
    SpawnShape(st, args);
    SpawnAlive(st, args);
  }

  lemma NewKeeps(st: State, args: seq<int>, memory: bool)
    requires Inv(st) && st.status == Live && Me(st).blk == Running
    ensures Inv(New(st, args, memory))
  {
    var r := Release(st);
    ReleaseKeeps(st, 0);
    ReleaseShape(st);
    FreeIsDead(st);
    assert st.current !in Items(st, Free);
    if memory {
      SpawnKeeps(r, args);
      SpawnShape(r, args);
    }
  }

  // ---------------------------------------------------------------- thread_exit

  lemma LeaveShape(st: State, code: int)
    requires st.current !in Items(st, Free)
    ensures var l, me := Leave(st, code), st.current;
            && (forall m :: Items(l, m) == if m == Free then (if me == ROOT then [] else [me]) else Items(st, m))
            && (forall u :: Th(l, u) == if u in Items(st, Free) then NOBODY
                                         else if u == me then Me(st).(alive := false, inList := if me == ROOT then Me(st).inList else Some(Free))
                                         else Th(st, u))
            && l.threads.Keys == st.threads.Keys - Elems(Items(st, Free)) + {me}
            && l == st.(threads := l.threads, lists := l.lists, h := st.h.(exits := st.h.exits[me := code]))
  {
    ReleaseShape(st);
  }

  lemma WakeJoinersShape(st: State, x: Tid, code: int)
    requires forall t :: t in Items(st, JoinOf(x)) ==> t in st.threads
    ensures var w, js := WakeJoiners(st, x, code), Items(st, JoinOf(x));
            && (forall m :: Items(w, m) == if m == JoinOf(x) then [] else if m == Ready then Items(st, Ready) + js else Items(st, m))
            && (forall u :: Th(w, u) == if u in js then Th(st, u).(inList := Some(Ready), code := code) else Th(st, u))
            && w.threads.Keys == st.threads.Keys && w == st.(threads := w.threads, lists := w.lists)
  {
  }

  lemma JoinersAreParked(st: State, x: Tid)
    requires ListsOk(st) && Places(st)
    ensures forall t :: t in Items(st, JoinOf(x)) ==> t in st.threads && t != x && Th(st, t).alive && Th(st, t).blk == OnThread(x)
  {
    forall t | t in Items(st, JoinOf(x))
      ensures t in st.threads && t != x && Th(st, t).alive && Th(st, t).blk == OnThread(x)
    {
      assert PlaceOk(st, t);
    }
  }

  lemma AppendDisjoint(a: seq<Tid>, b: seq<Tid>)
    requires NoDup(a) && NoDup(b) && forall t :: t in a ==> t !in b
    ensures NoDup(a + b)
  {
    assert forall i :: 0 <= i < |a| ==> a[i] in a;
    assert forall j :: 0 <= j < |b| ==> b[j] in b;
  }

  lemma EmptyNoDup()
    ensures NoDup([])
  {
  }

  lemma WakeJoinersLists(st: State, x: Tid, code: int)
    requires ListsOk(st)
    ensures ListsOk(WakeJoiners(st, x, code))
  {
    hide WakeJoiners, Items, Th, NoDup;
    var w, js := WakeJoiners(st, x, code), Items(st, JoinOf(x));
    WakeJoinersShape(st, x, code);
    forall t | t in Items(st, Ready) ensures t !in js {
      assert Th(st, t).inList == Some(Ready);
    }
    AppendDisjoint(Items(st, Ready), js);
    EmptyNoDup();
  }

  lemma LeaveLists(st: State, code: int)
    requires ListsOk(st) && Places(st) && Me(st).alive && Me(st).inList == None && st.current in st.threads
    ensures ListsOk(Leave(st, code))
  {
    var r, l := Release(st), Leave(st, code);
    ReleaseLists(st);
    StillThere(st);
    hide ListsOk, Places, Release, Put;
    if st.current != ROOT {
      PutLists(r, st.current, Free);
    }
    var p := if st.current != ROOT then Put(r, st.current, Free) else r;
    PutThread(r, st.current);
    LeftThread(p, st.current, code);
    hide Leave;
    SameThreadsKeepLists(p, l);
  }

  lemma PutThread(r: State, t: Tid)
    requires t in r.threads
    ensures t in Put(r, t, Free).threads
  {
  }

  lemma LeftThread(p: State, t: Tid, code: int)
    requires t in p.threads
    ensures var l := p.(threads := p.threads[t := Th(p, t).(alive := false)], h := p.h.(exits := p.h.exits[t := code]));
            && (forall m :: Items(l, m) == Items(p, m))
            && forall u :: (u in l.threads <==> u in p.threads) && Th(l, u).inList == Th(p, u).inList
  {
  }

  /** Releasing the dead does not release the running thread. */
  lemma StillThere(st: State)
    requires ListsOk(st) && Me(st).inList == None && st.current in st.threads
    ensures st.current in Release(st).threads && Th(Release(st), st.current).inList == None
  {
    ReleaseShape(st);
    hide Release;
  }

  lemma LeftShape(st: State, code: int)
    requires ListsOk(st) && Places(st) && Me(st).alive && Me(st).inList == None && st.current in st.threads
    ensures var e, me, js := Left(st, code), st.current, Items(st, JoinOf(st.current));
            && (forall m :: Items(e, m) == if m == Free then (if me == ROOT then [] else [me])
                                            else if m == JoinOf(me) then []
                                            else if m == Ready then Items(st, Ready) + js else Items(st, m))
            && (forall u :: Th(e, u) == if u in Items(st, Free) then NOBODY
                                         else if u == me then Me(st).(alive := false, inList := if me == ROOT then None else Some(Free))
                                         else if u in js then Th(st, u).(inList := Some(Ready), code := code)
                                         else Th(st, u))
            && e.threads.Keys == st.threads.Keys - Elems(Items(st, Free))
            && e == st.(threads := e.threads, lists := e.lists, h := st.h.(exits := st.h.exits[me := code]))
  {
    hide WakeJoiners, Leave, Places;
    var l, me, js := Leave(st, code), st.current, Items(st, JoinOf(st.current));
    FreeIsDead(st);
    LeaveShape(st, code);
    JoinersAreParked(st, me);
    assert Items(l, JoinOf(me)) == js;
    assert forall t :: t in js ==> t in l.threads;
    WakeJoinersShape(l, me, code);
  }

  lemma LeftAlive(st: State, code: int)
    requires ListsOk(st) && Places(st) && Me(st).alive && Me(st).inList == None && st.current in st.threads
    ensures AliveSet(Left(st, code)) == AliveSet(st) - {st.current}
  {
    hide Left, Items;
    LeftShape(st, code);
    FreeIsDead(st);
    var e := Left(st, code);
    forall u ensures u in AliveSet(e) <==> u in AliveSet(st) && u != st.current {
      assert u in AliveSet(e) <==> u in e.threads && Th(e, u).alive;
      assert u in AliveSet(st) <==> u in st.threads && Th(st, u).alive;
    }
  }

  lemma JoinersOnList(st: State, x: Tid, t: Tid)
    requires ListsOk(st)
    ensures x in Items(st, JoinOf(t)) <==> Th(st, x).inList == Some(JoinOf(t))
  {
  }

  lemma LeftPlaces(st: State, code: int)
    requires ListsOk(st) && Places(st) && Me(st).alive && Me(st).inList == None && st.current in st.threads
    requires Me(st).blk == Running
    ensures Places(Left(st, code))
  {
    hide Left, Items, Th, AliveSet, Places, ListsOk;
    var e, me, js := Left(st, code), st.current, Items(st, JoinOf(st.current));
    LeftShape(st, code);
    LeftAlive(st, code);
    FreeIsDead(st);
    JoinersAreParked(st, me);
    PlaceAt(st, me);
    PlacesBasics(st);
    forall x | x in e.threads ensures x < e.next && PlaceOk(e, x) {
      PlaceAt(st, x);
      NobodyElseIsAlone(st, x);
      JoinersOnList(st, x, me);
    }
    PlacesIntro(e);
  }

  lemma LeftSems(st: State, code: int)
    requires ListsOk(st) && Places(st) && Me(st).alive && Me(st).inList == None && st.current in st.threads
    requires Me(st).blk == Running && SemsOk(st)
    ensures SemsOk(Left(st, code))
  {
    hide Left, Items, Th, NotLost, Conserved;
    LeftShape(st, code);
    FreeIsDead(st);
    JoinersAreParked(st, st.current);
    KeepSems(st, Left(st, code));
  }

  lemma LeftSettled(st: State, code: int)
    requires Inv(st) && st.status == Live && Me(st).blk == Running
    ensures Settled(Left(st, code), 1)
  {
    LeaveLists(st, code);
    WakeJoinersLists(Leave(st, code), st.current, code);
    LeftPlaces(st, code);
    LeftSems(st, code);
    LeftShape(st, code);
    LeftAlive(st, code);
    assert st.current in AliveSet(st);
  }

  lemma OnlyOneAlive(st: State, t: Tid, u: Tid)
    requires |AliveSet(st)| == 1 && t in AliveSet(st) && u in AliveSet(st)
    ensures t == u && AliveSet(st) == {t}
  {
    assert |AliveSet(st) - {t}| == 0;
  }

  /** The assertion in `thread_exit`: when the last other thread waits for everybody, no thread is ready. */
  lemma NobodyElseIsReady(e: State)
    requires Settled(e, 1) && Items(e, AllJoin) != [] && e.num == 2
    ensures Items(e, Ready) == []
    ensures AliveSet(e) == {Items(e, AllJoin)[0]}
  {
    hide Items, Places;
    var j, r := Items(e, AllJoin)[0], Items(e, Ready);
    assert j in Items(e, AllJoin);
    PlaceAt(e, j);
    OnlyOneAlive(e, j, j);
    if r != [] {
      assert r[0] in r;
      PlaceAt(e, r[0]);
      OnlyOneAlive(e, j, r[0]);
    }
  }

  lemma WakeSemsOther(st: State, l: ListId)
    requires SemsOk(st) && Items(st, l) != [] && !l.WaitersOf? && l != Ready
             && Th(st, Items(st, l)[0]).inList == Some(l)
    ensures SemsOk(Wake(st, l))
  {
    WakeShape(st, l);
    KeepSems(st, Wake(st, l));
  }

  lemma FirstAllJoiner(e: State)
    requires ListsOk(e) && Places(e) && Items(e, AllJoin) != []
    ensures var j := Items(e, AllJoin)[0];
            Th(e, j).alive && Th(e, j).blk == OnAll && Th(e, j).inList == Some(AllJoin) && j in AliveSet(e) && |AliveSet(e)| >= 1
  {
    var j := Items(e, AllJoin)[0];
    assert j in Items(e, AllJoin);
    PlaceAt(e, j);
    assert j in AliveSet(e);
    SubsetSize({j}, AliveSet(e));
  }

  lemma WakeAllJoinerSettled(e: State)
    requires Settled(e, 1)
    ensures var w := WakeAllJoiner(e); Settled(w, 1) && (Items(w, AllJoin) != [] ==> e.num >= 3) && SameRoster(e, w)
  {
    hide ListsOk, Places, SemsOk, AliveSet, Th, Items;
    if Items(e, AllJoin) != [] && e.num == 2 {
      var j := Items(e, AllJoin)[0];
      FirstAllJoiner(e);
      NobodyElseIsReady(e);
      WakeLists(e, AllJoin);
      WakePlaces(e, AllJoin);
      WakeSemsOther(e, AllJoin);
      WakeShape(e, AllJoin);
      SameRosterAlive(e, Wake(e, AllJoin));
    } else if Items(e, AllJoin) != [] {
      FirstAllJoiner(e);
    }
  }

  lemma DepartKeeps(w: State)
    requires Settled(w, 1) && w.status == Live && !Me(w).alive && (Items(w, AllJoin) != [] ==> w.num >= 3)
    ensures Inv(Depart(w))
  {
    if w.num > 1 {
      var d := w.(num := w.num - 1);
      SameThreadsKeepLists(w, d);
      SameThreadsKeepPlaces(w, d);
      KeepSems(w, d);
      RunKeeps(d);
    }
  }

  lemma LeftMe(st: State, code: int)
    requires Inv(st) && st.status == Live && Me(st).blk == Running && st.current in st.threads
    ensures !Me(WakeAllJoiner(Left(st, code))).alive && WakeAllJoiner(Left(st, code)).status == Live
    ensures WakeAllJoiner(Left(st, code)).num == st.num
  {
    hide AliveSet, SemsOk, Places;
    var e := Left(st, code);
    LeftShape(st, code);
    FreeIsDead(st);
    LeftSettled(st, code);
    if Items(e, AllJoin) != [] && e.num == 2 {
      WakeShape(e, AllJoin);
      FirstAllJoiner(e);
    }
  }

  lemma ExitKeeps(st: State, code: int)
    requires Inv(st) && st.status == Live && Me(st).blk == Running
    ensures Inv(Exit(st, code))
  {
    hide WakeAllJoiner, Depart, ListsOk, Places, SemsOk, AliveSet;
    LeftSettled(st, code);
    LeftMe(st, code);
    WakeAllJoinerSettled(Left(st, code));
    DepartKeeps(WakeAllJoiner(Left(st, code)));
  }

  // ---------------------------------------------------------------- every operation

  lemma StepKeepsInv(st: State, op: Op)
    requires Inv(st) && Enabled(st, op)
    ensures Inv(Step(st, op))
  {
    match op
    case NewOp(args, memory) => NewKeeps(st, args, memory);
    case ExitOp(code) => ExitKeeps(st, code);
    case JoinOp(t) =>
      if Th(st, t).alive {
        BlockKeeps(st, OnThread(t), JoinOf(t));
      }
    case JoinAllOp =>
      if st.num > 1 {
        BlockKeeps(st, OnAll, AllJoin);
      }
    case ResumeOp => ResumeKeeps(st);
    case PauseOp => BlockKeeps(st, Running, Ready);
    case InitOp(s, v) => InitKeeps(st, s, v);
    case DownOp(s) =>
      if st.sems[s] == 0 {
        BlockKeeps(st, OnSem(s), WaitersOf(s));
      } else {
        TakeKeeps(st, s);
      }
    case TryDownOp(s) =>
      if st.sems[s] > 0 {
        assert SetBlk(st, Running) == st;
        TakeKeeps(st, s);
      }
    case UpOp(s) => UpKeeps(st, s);
  }

  lemma InitialInv()
    ensures Inv(INITIAL)
  {
    assert AliveSet(INITIAL) == {ROOT};
    assert forall l :: Items(INITIAL, l) == [];
  }
}

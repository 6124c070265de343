/** The cooperative scheduler and its semaphores, as a step machine on values.

    `lists` holds every intrusive list of threads, indexed by which list it is; a thread's `inList` names the list it
    is on, as the `in_list` field does.  One `Op` is what the running thread does between two points where it could be
    switched out. */
module Sched {
  import opened Basics

  type Tid = nat
  const ROOT: Tid := 0

  /** Which structure a semaphore is embedded in.  `WaiterSem(t)` is the one in `cond_wait`'s frame of thread t. */
  datatype SemId =
    | UserSem(id: nat)
    | LockSem(lock: nat)
    | WaiterSem(owner: Tid)
    | SendSem(chan: nat)
    | RecvSem(chan: nat)
    | SyncSem(chan: nat)

  datatype ListId = Ready | Free | AllJoin | JoinOf(t: Tid) | WaitersOf(s: SemId)

  /** Where a thread stopped inside a blocking call: `OnSem` in the loop of `sem_down`, `OnThread` and `OnAll` in
      `thread_join`.  It is reset when the call goes on. */
  datatype Blocked = Running | OnSem(s: SemId) | OnThread(t: Tid) | OnAll

  /** `alive` stands for `handle == thr`. */
  datatype Thread = Thread(alive: bool, inList: Option<ListId>, code: int, args: seq<int>, blk: Blocked)

  datatype Status = Live | Halted | Deadlocked

  /** What happened so far: calls of `run`, exit codes, and per semaphore the initial value and the completed ups and
      downs. */
  datatype History = History(
    runs: nat, exits: map<Tid, int>, inits: map<SemId, nat>, ups: map<SemId, nat>, downs: map<SemId, nat>)

  datatype State = State(
    status: Status, current: Tid, num: nat, next: Tid,
    threads: map<Tid, Thread>, lists: map<ListId, seq<Tid>>, sems: map<SemId, nat>, h: History)

  const NOBODY := Thread(false, None, 0, [], Running)

  function Items(st: State, l: ListId): seq<Tid> {
    if l in st.lists then st.lists[l] else []
  }

  function Th(st: State, t: Tid): Thread {
    if t in st.threads then st.threads[t] else NOBODY
  }

  function Me(st: State): Thread {
    Th(st, st.current)
  }

  function Count(m: map<SemId, nat>, s: SemId): nat {
    if s in m then m[s] else 0
  }

  ghost function AliveSet(st: State): set<Tid> {
    set t | t in st.threads && st.threads[t].alive
  }

  // ---------------------------------------------------------------- list primitives

  function Put(st: State, t: Tid, l: ListId): State {
    st.(threads := st.threads[t := Th(st, t).(inList := Some(l))],
        lists := st.lists[l := Items(st, l) + [t]])
  }

  function Get(st: State, l: ListId): State
    requires Items(st, l) != []
  {
    var t := Items(st, l)[0];
    st.(threads := st.threads[t := Th(st, t).(inList := None)],
        lists := st.lists[l := Items(st, l)[1..]])
  }

  /** Popping an empty ready list is the client's deadlock. */
  function Run(st: State): State {
    if Items(st, Ready) == [] then st.(status := Deadlocked)
    else Get(st, Ready).(current := Items(st, Ready)[0], h := st.h.(runs := st.h.runs + 1))
  }

  function SetBlk(st: State, b: Blocked): State {
    st.(threads := st.threads[st.current := Me(st).(blk := b)])
  }

  /** The running thread notes why it stops, joins a list and gives up the processor. */
  function Block(st: State, b: Blocked, l: ListId): State {
    Run(Put(SetBlk(st, b), st.current, l))
  }

  /** The first thread of a list, if any, becomes ready. */
  function Wake(st: State, l: ListId): State {
    if Items(st, l) == [] then st else Put(Get(st, l), Items(st, l)[0], Ready)
  }

  function Release(st: State): State {
    if Items(st, Free) == [] then st
    else st.(threads := map t | t in st.threads && t !in Items(st, Free) :: st.threads[t],
             lists := st.lists[Free := []])
  }

  // ---------------------------------------------------------------- operations of the running thread

  function Spawn(st: State, args: seq<int>): State {
    Put(st.(num := st.num + 1, next := st.next + 1,
            threads := st.threads[st.next := Thread(true, None, 0, args, Running)]), st.next, Ready)
  }

  function New(st: State, args: seq<int>, memory: bool): State {
    if memory then Spawn(Release(st), args) else Release(st)
  }

  /** `thread_exit` up to the loop: the thread is no longer a handle. */
  function Leave(st: State, code: int): State {
    var me := st.current;
    var r := Release(st);
    var p := if me != ROOT then Put(r, me, Free) else r;
    p.(threads := p.threads[me := Th(p, me).(alive := false)], h := p.h.(exits := p.h.exits[me := code]))
  }

  /** Every thread on the join list of `t` becomes ready, in order, with the exit code stored in it. */
  function WakeJoiners(st: State, t: Tid, code: int): State {
    var js := Items(st, JoinOf(t));
    if js == [] then st
    else st.(threads := map u | u in st.threads ::
                     if u in js then st.threads[u].(inList := Some(Ready), code := code) else st.threads[u],
             lists := st.lists[JoinOf(t) := []][Ready := Items(st, Ready) + js])
  }

  function WakeAllJoiner(st: State): State {
    if st.num == 2 then Wake(st, AllJoin) else st
  }

  function Depart(st: State): State {
    if st.num <= 1 then st.(num := 0, status := Halted) else Run(st.(num := st.num - 1))
  }

  /** `thread_exit` up to and including the loop that readies the joiners. */
  function Left(st: State, code: int): State {
    WakeJoiners(Leave(st, code), st.current, code)
  }

  function Exit(st: State, code: int): State {
    Depart(WakeAllJoiner(Left(st, code)))
  }

  /** `thread_join` of an unreleased thread; it returns -1 at once when that thread has exited. */
  function Join(st: State, t: Tid): State {
    if Th(st, t).alive then Block(st, OnThread(t), JoinOf(t)) else st
  }

  function JoinAll(st: State): State {
    if st.num > 1 then Block(st, OnAll, AllJoin) else st
  }

  /** The running thread goes on after a wake-up in `thread_join`. */
  function Resume(st: State): State {
    SetBlk(st, Running)
  }

  function Pause(st: State): State {
    Block(st, Running, Ready)
  }

  function InitSem(st: State, s: SemId, v: nat): State {
    st.(sems := st.sems[s := v],
        h := st.h.(inits := st.h.inits[s := v], ups := st.h.ups[s := 0], downs := st.h.downs[s := 0]))
  }

  function TakeToken(st: State, s: SemId): State
    requires s in st.sems && st.sems[s] > 0
  {
    st.(sems := st.sems[s := st.sems[s] - 1], h := st.h.(downs := st.h.downs[s := Count(st.h.downs, s) + 1]))
  }

  /** One evaluation of the loop test of `sem_down`: on the first call or after a wake-up. */
  function Down(st: State, s: SemId): State
    requires s in st.sems
  {
    if st.sems[s] == 0 then Block(st, OnSem(s), WaitersOf(s))
    else TakeToken(SetBlk(st, Running), s)
  }

  function TryDown(st: State, s: SemId): State
    requires s in st.sems
  {
    if st.sems[s] > 0 then TakeToken(st, s) else st
  }

  function AddToken(st: State, s: SemId): State
    requires s in st.sems
  {
    st.(sems := st.sems[s := st.sems[s] + 1], h := st.h.(ups := st.h.ups[s := Count(st.h.ups, s) + 1]))
  }

  function UpSem(st: State, s: SemId): State
    requires s in st.sems
  {
    Wake(AddToken(st, s), WaitersOf(s))
  }

  // ---------------------------------------------------------------- the step relation

  datatype Op =
    | NewOp(args: seq<int>, memory: bool)
    | ExitOp(code: int)
    | JoinOp(t: Tid)
    | JoinAllOp
    | ResumeOp
    | PauseOp
    | InitOp(s: SemId, v: nat)
    | DownOp(s: SemId)
    | TryDownOp(s: SemId)
    | UpOp(s: SemId)

  /** What the caller owes: the assertions at the top of each function, handles that were not released, semaphores
      that were initialised, and no re-initialisation under a waiter.  A thread that was switched out inside a call
      can only go on with that call. */
  ghost predicate Enabled(st: State, op: Op) {
    && st.status == Live
    && match op
       case DownOp(s) => s in st.sems && (Me(st).blk == Running || Me(st).blk == OnSem(s))
       case ResumeOp => Me(st).blk.OnThread? || Me(st).blk.OnAll?
       case NewOp(_, _) => Me(st).blk == Running
       case ExitOp(_) => Me(st).blk == Running
       case PauseOp => Me(st).blk == Running
       case JoinOp(t) => Me(st).blk == Running && t != st.current && t in st.threads
       case JoinAllOp => Me(st).blk == Running && Items(st, AllJoin) == []
       case InitOp(s, v) => Me(st).blk == Running && Idle(st, s)
       case TryDownOp(s) => Me(st).blk == Running && s in st.sems
       case UpOp(s) => Me(st).blk == Running && s in st.sems
  }

  ghost predicate Idle(st: State, s: SemId) {
    forall t :: Th(st, t).blk != OnSem(s)
  }

  function Step(st: State, op: Op): State
    requires Enabled(st, op)
  {
    match op
    case NewOp(args, memory) => New(st, args, memory)
    case ExitOp(code) => Exit(st, code)
    case JoinOp(t) => Join(st, t)
    case JoinAllOp => JoinAll(st)
    case ResumeOp => Resume(st)
    case PauseOp => Pause(st)
    case InitOp(s, v) => InitSem(st, s, v)
    case DownOp(s) => Down(st, s)
    case TryDownOp(s) => TryDown(st, s)
    case UpOp(s) => UpSem(st, s)
  }

  const INITIAL := State(Live, ROOT, 1, 1, map[ROOT := Thread(true, None, 0, [], Running)], map[], map[],
                         History(0, map[], map[], map[], map[]))
}

/** Locks and Mesa-style condition variables as step machines over the scheduler.

    A call is cut where `sem_down` may switch threads.  Everything else of the system appears as `Env`: any scheduler
    operation on any other semaphore, by any thread that is not inside a lock or condition call. */
module Monitor {
  import opened Basics
  import opened Sched

  /** `Acquiring`: in `sem_down` of `lock_acquire`.  `Sleeping`: in `cond_wait`, on the private semaphore.
      `Reacquiring`: in the `lock_acquire` at the end of `cond_wait`. */
  datatype Stage =
    | Outside
    | Acquiring(lock: nat)
    | Sleeping(lock: nat, cond: nat)
    | Reacquiring(lock: nat, cond: nat)

  /** `waiters[c]` holds the threads whose `semaphore_elem` is on the list of c.  `inside[l]` are the threads that
      returned from acquiring l, in whatever way, and have not released it since. */
  datatype Monitors = Monitors(
    k: State, holder: map<nat, Option<Tid>>, waiters: map<nat, seq<Tid>>, stage: map<Tid, Stage>, inside: map<nat, set<Tid>>)

  function StageOf(m: Monitors, t: Tid): Stage {
    if t in m.stage then m.stage[t] else Outside
  }

  function Holder(m: Monitors, l: nat): Option<Tid> {
    if l in m.holder then m.holder[l] else None
  }

  function Inside(m: Monitors, l: nat): set<Tid> {
    if l in m.inside then m.inside[l] else {}
  }

  function Queue(m: Monitors, c: nat): seq<Tid> {
    if c in m.waiters then m.waiters[c] else []
  }

  predicate IsMonitorSem(s: SemId) {
    s.LockSem? || s.WaiterSem?
  }

  // ---------------------------------------------------------------- steps

  function InitLock(m: Monitors, l: nat): Monitors {
    m.(k := InitSem(m.k, LockSem(l), 1), holder := m.holder[l := None], inside := m.inside[l := {}])
  }

  function InitCond(m: Monitors, c: nat): Monitors {
    m.(waiters := m.waiters[c := []])
  }

  /** The lock is the running thread's. */
  function Own(m: Monitors, l: nat): Monitors {
    var me := m.k.current;
    m.(holder := m.holder[l := Some(me)], inside := m.inside[l := Inside(m, l) + {me}], stage := m.stage[me := Outside])
  }

  /** One round of `sem_down(&lock->sem)` and, with the token, `lock->holder = current`; `wait` is the stage to block
      in. */
  function TryLock(m: Monitors, l: nat, wait: Stage): Monitors
    requires LockSem(l) in m.k.sems
  {
    var d := Down(m.k, LockSem(l));
    if m.k.sems[LockSem(l)] == 0 then m.(k := d, stage := m.stage[m.k.current := wait])
    else Own(m, l).(k := d)
  }

  function TryAcquire(m: Monitors, l: nat): Monitors
    requires LockSem(l) in m.k.sems
  {
    if m.k.sems[LockSem(l)] > 0 then Own(m, l).(k := TryDown(m.k, LockSem(l))) else m
  }

  function ReleaseLock(m: Monitors, l: nat): Monitors
    requires LockSem(l) in m.k.sems
  {
    m.(k := UpSem(m.k, LockSem(l)), holder := m.holder[l := None], inside := m.inside[l := Inside(m, l) - {m.k.current}])
  }

  /** `cond_wait` up to its `sem_down`, which finds the fresh semaphore at 0. */
  function Wait(m: Monitors, c: nat, l: nat): Monitors
    requires LockSem(l) in m.k.sems
  {
    var me := m.k.current;
    var r := ReleaseLock(m.(k := InitSem(m.k, WaiterSem(me), 0), waiters := m.waiters[c := Queue(m, c) + [me]]), l);
    r.(k := Down(r.k, WaiterSem(me)), stage := r.stage[me := Sleeping(l, c)])
  }

  /** The private semaphore is tested again; with its token the thread goes on to `lock_acquire`. */
  function WakeUp(m: Monitors, c: nat, l: nat): Monitors
    requires WaiterSem(m.k.current) in m.k.sems
  {
    var me := m.k.current;
    var d := Down(m.k, WaiterSem(me));
    if m.k.sems[WaiterSem(me)] == 0 then m.(k := d)
    else m.(k := d, stage := m.stage[me := Reacquiring(l, c)])
  }

  function Signal(m: Monitors, c: nat): Monitors
    requires Queue(m, c) != [] ==> WaiterSem(Queue(m, c)[0]) in m.k.sems
  {
    if Queue(m, c) == [] then m
    else m.(k := UpSem(m.k, WaiterSem(Queue(m, c)[0])), waiters := m.waiters[c := Queue(m, c)[1..]])
  }

  predicate SignalsReach(m: Monitors, c: nat) {
    forall t :: t in Queue(m, c) ==> WaiterSem(t) in m.k.sems
  }

  /** n calls of `cond_signal` in a row. */
  function Signals(m: Monitors, c: nat, n: nat): Monitors
    requires SignalsReach(m, c)
    decreases n
  {
    if n == 0 || Queue(m, c) == [] then m
    else SignalReaches(m, c); Signals(Signal(m, c), c, n - 1)
  }

  function Broadcast(m: Monitors, c: nat): Monitors
    requires SignalsReach(m, c)
    decreases |Queue(m, c)|
  {
    if Queue(m, c) == [] then m
    else SignalReaches(m, c); Broadcast(Signal(m, c), c)
  }

  lemma SignalReaches(m: Monitors, c: nat)
    requires SignalsReach(m, c)
    ensures Queue(m, c) != [] ==> WaiterSem(Queue(m, c)[0]) in m.k.sems && Queue(Signal(m, c), c) == Queue(m, c)[1..]
    ensures SignalsReach(Signal(m, c), c)
  {
    var q := Queue(m, c);
    if q != [] {
      assert q[0] in q;
      assert Signal(m, c).k.sems.Keys == m.k.sems.Keys;
      assert forall t :: t in q[1..] ==> t in q;
    }
  }

  datatype Move =
    | Env(op: Op)
    | NewLock(l: nat)
    | NewCond(c: nat)
    | Acquire(l: nat)
    | TryIt(l: nat)
    | LetGo(l: nat)
    | WaitOn(c: nat, l: nat)
    | SignalOne(c: nat, l: nat)
    | SignalAll(c: nat, l: nat)
    | GoOn

  predicate OpSparesMonitors(op: Op) {
    match op
    case InitOp(s, v) => !IsMonitorSem(s)
    case DownOp(s) => !IsMonitorSem(s)
    case TryDownOp(s) => !IsMonitorSem(s)
    case UpOp(s) => !IsMonitorSem(s)
    case _ => true
  }

  ghost predicate NobodyAt(m: Monitors, l: nat) {
    forall t :: StageOf(m, t) == Outside || StageOf(m, t).lock != l
  }

  /** The lock is initialised, and its holder is or is not the caller, as the assertions demand. */
  predicate Held(m: Monitors, l: nat) {
    l in m.holder && LockSem(l) in m.k.sems && m.holder[l] == Some(m.k.current)
  }

  predicate NotHeld(m: Monitors, l: nat) {
    l in m.holder && LockSem(l) in m.k.sems && m.holder[l] != Some(m.k.current)
  }

  ghost predicate Free4Calls(m: Monitors) {
    m.k.status == Live && StageOf(m, m.k.current) == Outside && Me(m.k).blk == Running
  }

  ghost predicate CanMove(m: Monitors, v: Move) {
    match v
    case Env(op) => m.k.status == Live && StageOf(m, m.k.current) == Outside && OpSparesMonitors(op) && Enabled(m.k, op)
    case NewLock(l) => Free4Calls(m) && NobodyAt(m, l) && Holder(m, l) == None
    case NewCond(c) => Free4Calls(m) && Queue(m, c) == []
    case Acquire(l) => Free4Calls(m) && NotHeld(m, l)
    case TryIt(l) => Free4Calls(m) && NotHeld(m, l)
    case LetGo(l) => Free4Calls(m) && Held(m, l)
    case WaitOn(c, l) => Free4Calls(m) && Held(m, l) && c in m.waiters
    case SignalOne(c, l) => Free4Calls(m) && Held(m, l) && c in m.waiters && SignalsReach(m, c)
    case SignalAll(c, l) => Free4Calls(m) && Held(m, l) && c in m.waiters && SignalsReach(m, c)
    case GoOn =>
      && m.k.status == Live
      && match StageOf(m, m.k.current)
         case Outside => false
         case Acquiring(l) => LockSem(l) in m.k.sems
         case Sleeping(l, c) => WaiterSem(m.k.current) in m.k.sems
         case Reacquiring(l, c) => LockSem(l) in m.k.sems
  }

  function Next(m: Monitors, v: Move): Monitors
    requires CanMove(m, v)
  {
    match v
    case Env(op) => m.(k := Step(m.k, op))
    case NewLock(l) => InitLock(m, l)
    case NewCond(c) => InitCond(m, c)
    case Acquire(l) => TryLock(m, l, Acquiring(l))
    case TryIt(l) => TryAcquire(m, l)
    case LetGo(l) => ReleaseLock(m, l)
    case WaitOn(c, l) => Wait(m, c, l)
    case SignalOne(c, l) => SignalReaches(m, c); Signal(m, c)
    case SignalAll(c, l) => Broadcast(m, c)
    case GoOn =>
      match StageOf(m, m.k.current)
      case Acquiring(l) => TryLock(m, l, Acquiring(l))
      case Reacquiring(l, c) => TryLock(m, l, Reacquiring(l, c))
      case Sleeping(l, c) => WakeUp(m, c, l)
      case Outside => m
  }

  const START := Monitors(INITIAL, map[], map[], map[], map[])
}

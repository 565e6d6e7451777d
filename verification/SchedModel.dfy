/** The kernel's threads, queues and mutexes as one state, and every atomic step that
    changes it. A failed KASSERT stops the machine: it sets `halted`. */
module SchedModel {
  import opened Basics

  /** A thread is named by the page its record lies on; 0 is the null pointer. */
  type Tid = nat
  const NULL: Tid := 0
  const THREAD_QUANTUM: nat := 4
  const TICKS_PER_SEC: nat := 100

  /** Every list linked through `queueNext`; `Doomed` is the chain the reaper has detached. */
  datatype QueueId =
    | RunQueue | SleepQueue | Graveyard | ReaperWait | Doomed
    | JoinQueue(t: Tid) | MutexQueue(m: nat) | WaitQueue(c: nat)

  /** Where a thread will go on when it next has the processor. */
  datatype Pc =
    | Start                 // not launched yet
    | Running               // its own code
    | Yielded | Slept | Waited(c: nat)      // back from schedule in yield, sleep, a plain wait
    | JoinTest(t: Tid)      // about to test whether `t` is still alive
    | LockTest(m: nat)      // in mutexLock, about to test `locked`
    | LockOwn(m: nat)       // `locked` set, owner not yet
    | LockLeave(m: nat)     // owner set, preemption still off
    | LockWoken(m: nat)     // back from schedule in mutexWait
    | UnlockClear(m: nat) | UnlockOwn(m: nat) | UnlockWake(m: nat) | UnlockLeave
    | ReapTest | ReapYield | ReapYielded | ReapNext | ReapCli
    | ReapFree(next: Tid)   // the reaper has read the link of the thread it is about to destroy
    | Preempted(at: Pc)     // back from schedule in the interrupt stub
    | Dead

  /** A thread record. `ownerRef` (the creator's reference is still held), `children` (threads it
      may still join) and `held` (mutexes locked and not yet being unlocked) only keep account. */
  datatype Thread = Thread(
    pc: Pc, numTicks: nat, sleepUntil: nat, alive: bool, refCount: int, exitCode: int,
    stack: nat, userStack: Option<nat>,
    ownerRef: bool, children: set<Tid>, held: set<nat>)

  datatype Mutex = Mutex(locked: bool, owner: Tid)

  datatype State = State(
    threads: map<Tid, Thread>, queues: map<QueueId, seq<Tid>>, mutexes: map<nat, Mutex>,
    current: Tid, intr: bool, preemptOff: bool, ticks: nat, freePages: seq<nat>,
    main: Tid, idle: Tid, reaper: Tid, halted: bool)

  // ---------------------------------------------------------------- access

  function QOf(queues: map<QueueId, seq<Tid>>, id: QueueId): seq<Tid> {
    if id in queues then queues[id] else []
  }

  function Q(s: State, id: QueueId): seq<Tid> { QOf(s.queues, id) }

  function SetQ(s: State, id: QueueId, q: seq<Tid>): State {
    s.(queues := s.queues[id := q])
  }

  function MutexOf(s: State, m: nat): Mutex {
    if m in s.mutexes then s.mutexes[m] else Mutex(false, NULL)
  }

  function SetMutex(s: State, m: nat, x: Mutex): State {
    s.(mutexes := s.mutexes[m := x])
  }

  function SetThread(s: State, t: Tid, th: Thread): State {
    s.(threads := s.threads[t := th])
  }

  function SetPc(s: State, t: Tid, pc: Pc): State
    requires t in s.threads
  {
    SetThread(s, t, s.threads[t].(pc := pc))
  }

  /** KASSERT. */
  function Check(s: State, holds: bool): State {
    if holds then s else s.(halted := true)
  }

  // ---------------------------------------------------------------- interrupt flag

  function Cli(s: State): State { Check(s, s.intr).(intr := false) }

  function Sti(s: State): State { Check(s, !s.intr).(intr := true) }

  // ---------------------------------------------------------------- queues

  function Enqueue(s: State, id: QueueId, t: Tid): State {
    SetQ(Check(s, !s.intr && t != NULL && t !in Q(s, id)), id, Q(s, id) + [t])
  }

  function MakeRunnable(s: State, t: Tid): State { Enqueue(s, RunQueue, t) }

  /** No member of `ts` is null, repeated, or already in `q`. */
  predicate Appendable(q: seq<Tid>, ts: seq<Tid>) {
    forall i :: 0 <= i < |ts| ==> ts[i] != NULL && ts[i] !in q && ts[i] !in ts[..i]
  }

  /** Enqueue the members of `ts` one after the other. */
  function Append(s: State, id: QueueId, ts: seq<Tid>): State {
    SetQ(Check(s, ts == [] || (!s.intr && Appendable(Q(s, id), ts))), id, Q(s, id) + ts)
  }

  function WakeAll(s: State, id: QueueId): State {
    SetQ(Append(s, RunQueue, Q(s, id)), id, [])
  }

  function WakeOne(s: State, id: QueueId): State {
    var c := Check(s, !s.intr);
    if Q(s, id) == [] then c
    else MakeRunnable(SetQ(c, id, Q(s, id)[1..]), Q(s, id)[0])
  }

  predicate Expired(s: State, t: Tid) {
    t in s.threads && s.ticks >= s.threads[t].sleepUntil
  }

  /** The members of `q` whose time has come, in order ... */
  function Due(s: State, q: seq<Tid>): seq<Tid> {
    if q == [] then [] else (if Expired(s, q[0]) then [q[0]] else []) + Due(s, q[1..])
  }

  /** ... and the others, in order. */
  function NotDue(s: State, q: seq<Tid>): seq<Tid> {
    if q == [] then [] else (if Expired(s, q[0]) then [] else [q[0]]) + NotDue(s, q[1..])
  }

  function ClearSleep(threads: map<Tid, Thread>, ts: seq<Tid>): map<Tid, Thread> {
    map t | t in threads :: if t in ts then threads[t].(sleepUntil := 0) else threads[t]
  }

  /** Move every expired sleeper to the tail of the run queue. */
  function WakeSleepers(s: State): State {
    var due := Due(s, Q(s, SleepQueue));
    var n := SetQ(s, SleepQueue, NotDue(s, Q(s, SleepQueue)));
    Append(n, RunQueue, due).(threads := ClearSleep(s.threads, due))
  }

  // ---------------------------------------------------------------- dispatch

  /** `switchToThread`: clears the outgoing tick count and changes the current thread. */
  function SwitchTo(s: State, t: Tid): State
    requires s.current in s.threads
  {
    SetThread(s, s.current, s.threads[s.current].(numTicks := 0)).(current := t)
  }

  function Schedule(s: State): State
    requires s.current in s.threads
  {
    var w := WakeSleepers(Check(Check(s, !s.intr), !s.preemptOff));
    if Q(w, RunQueue) == [] then w.(halted := true)
    else SwitchTo(SetQ(w, RunQueue, Q(w, RunQueue)[1..]), Q(w, RunQueue)[0])
  }

  /** The current thread joins queue `id`, to go on at `pc`, and gives up the processor. */
  function Block(s: State, id: QueueId, pc: Pc): State
    requires s.current in s.threads
  {
    Schedule(Enqueue(SetPc(s, s.current, pc), id, s.current))
  }

  // ---------------------------------------------------------------- thread calls

  function Yield(s: State, back: Pc): State
    requires s.current in s.threads
  {
    Block(Cli(s), RunQueue, back)
  }

  /** Milliseconds to ticks, in 32-bit unsigned arithmetic, at least one. */
  function SleepTicks(milliseconds: nat): nat {
    var ticks := Low32(milliseconds * TICKS_PER_SEC) / 1000;
    if ticks < 1 then 1 else ticks
  }

  function Sleep(s: State, milliseconds: nat): State
    requires s.current in s.threads
  {
    var until := Low32(s.ticks + SleepTicks(milliseconds));
    Block(SetThread(Cli(s), s.current, s.threads[s.current].(sleepUntil := until)), SleepQueue, Slept)
  }

  function Wait(s: State, c: nat): State
    requires s.current in s.threads
  {
    Block(Cli(s), WaitQueue(c), Waited(c))
  }

  function Wake(s: State, c: nat, all: bool): State {
    var n := Cli(s);
    Sti(if all then WakeAll(n, WaitQueue(c)) else WakeOne(n, WaitQueue(c)))
  }

  /** Put a thread into the graveyard and rouse the reaper. */
  function Reap(s: State, t: Tid): State {
    WakeAll(Enqueue(s, Graveyard, t), ReaperWait)
  }

  /** Drop one reference. */
  function Detach(s: State, t: Tid): State
    requires t in s.threads
  {
    var c := Check(Check(s, !s.intr), s.threads[t].refCount > 0);
    var n := SetThread(c, t, s.threads[t].(refCount := s.threads[t].refCount - 1));
    if n.threads[t].refCount == 0 then Reap(n, t) else n
  }

  /** The exiting thread dies, its joiners are roused and its own reference is dropped. */
  function Depart(s: State, code: int): State
    requires s.current in s.threads
  {
    var d := SetThread(s, s.current, s.threads[s.current].(exitCode := code, alive := false, pc := Dead, children := {}));
    Detach(WakeAll(d, JoinQueue(s.current)), s.current)
  }

  /** The departed thread still has its record. */
  lemma DepartStays(s: State, code: int)
    requires s.current in s.threads
    ensures Depart(s, code).current in Depart(s, code).threads
  {
    hide WakeAll, Detach;
    var d := SetThread(s, s.current, s.threads[s.current].(exitCode := code, alive := false, pc := Dead, children := {}));
    WakingStays(d, JoinQueue(s.current));
    DetachStays(WakeAll(d, JoinQueue(s.current)), s.current);
  }

  lemma WakingStays(s: State, id: QueueId)
    ensures WakeAll(s, id).threads == s.threads && WakeAll(s, id).current == s.current
  {
    hide Appendable;
  }

  lemma DetachStays(s: State, t: Tid)
    requires t in s.threads && s.current in s.threads
    ensures Detach(s, t).current in Detach(s, t).threads
  {
    hide WakeAll;
    var c := Check(Check(s, !s.intr), s.threads[t].refCount > 0);
    var n := SetThread(c, t, s.threads[t].(refCount := s.threads[t].refCount - 1));
    WakingStays(Enqueue(n, Graveyard, t), ReaperWait);
  }

  function Exit(s: State, code: int): State
    requires s.current in s.threads
  {
    var n := if s.intr then Cli(s) else s;
    DepartStays(n, code);
    Schedule(Depart(n, code))
  }

  function Join(s: State, t: Tid): State
    requires s.current in s.threads
  {
    var n := Cli(Check(s, s.intr && t != NULL));
    SetThread(n, s.current, s.threads[s.current].(pc := JoinTest(t), children := s.threads[s.current].children - {t}))
  }

  function JoinStep(s: State, t: Tid): State
    requires s.current in s.threads && t in s.threads
  {
    if s.threads[t].alive then Block(s, JoinQueue(t), JoinTest(t))
    else
      var n := SetPc(s, s.current, Running);
      Sti(Detach(SetThread(n, t, n.threads[t].(ownerRef := false)), t))
  }

  // ---------------------------------------------------------------- mutexes

  predicate MutexHeld(s: State, m: nat) {
    MutexOf(s, m).locked && MutexOf(s, m).owner == s.current
  }

  function Lock(s: State, m: nat): State
    requires s.current in s.threads
  {
    var n := Check(s, s.intr).(preemptOff := true);
    SetPc(Check(n, !MutexHeld(s, m)), s.current, LockTest(m))
  }

  function LockTestStep(s: State, m: nat): State
    requires s.current in s.threads
  {
    if MutexOf(s, m).locked then
      Block(Cli(Check(s, s.preemptOff)).(preemptOff := false), MutexQueue(m), LockWoken(m))
    else
      SetPc(SetMutex(s, m, MutexOf(s, m).(locked := true)), s.current, LockOwn(m))
  }

  function LockOwnStep(s: State, m: nat): State
    requires s.current in s.threads
  {
    SetPc(SetMutex(s, m, MutexOf(s, m).(owner := s.current)), s.current, LockLeave(m))
  }

  function LockLeaveStep(s: State, m: nat): State
    requires s.current in s.threads
  {
    var th := s.threads[s.current];
    SetThread(s, s.current, th.(pc := Running, held := th.held + {m})).(preemptOff := false)
  }

  function LockWokenStep(s: State, m: nat): State
    requires s.current in s.threads
  {
    SetPc(Sti(s.(preemptOff := true)), s.current, LockTest(m))
  }

  function Unlock(s: State, m: nat): State
    requires s.current in s.threads
  {
    var n := Check(s, s.intr).(preemptOff := true);
    var th := s.threads[s.current];
    SetThread(Check(n, MutexHeld(s, m)), s.current, th.(pc := UnlockClear(m), held := th.held - {m}))
  }

  function UnlockClearStep(s: State, m: nat): State
    requires s.current in s.threads
  {
    SetPc(SetMutex(s, m, MutexOf(s, m).(locked := false)), s.current, UnlockOwn(m))
  }

  function UnlockOwnStep(s: State, m: nat): State
    requires s.current in s.threads
  {
    SetPc(SetMutex(s, m, MutexOf(s, m).(owner := NULL)), s.current, UnlockWake(m))
  }

  function UnlockWakeStep(s: State, m: nat): State
    requires s.current in s.threads
  {
    var n := SetPc(s, s.current, UnlockLeave);
    if Q(s, MutexQueue(m)) != [] then Sti(WakeOne(Cli(n), MutexQueue(m))) else n
  }

  function UnlockLeaveStep(s: State): State
    requires s.current in s.threads
  {
    SetPc(s, s.current, Running).(preemptOff := false)
  }

  // ---------------------------------------------------------------- creation and destruction

  function NewThread(stack: nat, userStack: Option<nat>, detached: bool): Thread {
    Thread(Start, 0, 0, true, if detached then 1 else 2, 0, stack, userStack, !detached, {}, {})
  }

  /** Pages taken by a new thread: its record, its stack and perhaps a user stack. */
  function PagesNeeded(usermode: bool): nat { if usermode then 3 else 2 }

  /** `createThread`: a record and stacks off the free list, and an empty join queue. */
  function Create(s: State, detached: bool, usermode: bool): State
    requires s.current in s.threads && PagesNeeded(usermode) <= |s.freePages|
  {
    var t, stack := s.freePages[0], s.freePages[1];
    var userStack := if usermode then Some(s.freePages[2]) else None;
    var n := s.(freePages := s.freePages[PagesNeeded(usermode)..]);
    var th := s.threads[s.current];
    var o := if detached then n else SetThread(n, s.current, th.(children := th.children + {t}));
    SetQ(SetThread(o, t, NewThread(stack, userStack, detached)), JoinQueue(t), [])
  }

  function Spawn(s: State, detached: bool, usermode: bool): State
    requires s.current in s.threads && PagesNeeded(usermode) <= |s.freePages|
  {
    Sti(MakeRunnable(Cli(Create(s, detached, usermode)), s.freePages[0]))
  }

  /** The pages a thread gives back, in the order they are freed. */
  function PagesOf(s: State, t: Tid): seq<nat>
    requires t in s.threads
  {
    if t == s.main then [] else
      [s.threads[t].stack]
      + (match s.threads[t].userStack case Some(u) => [u] case None => [])
      + [t]
  }

  function Destroy(s: State, t: Tid): State
    requires t in s.threads
  {
    var n := Cli(s).(freePages := s.freePages + PagesOf(s, t));
    Sti(n.(threads := n.threads - {t}))
  }

  // ---------------------------------------------------------------- the reaper

  function ReapTestStep(s: State): State
    requires s.current in s.threads
  {
    if Q(s, Graveyard) == [] then Block(s, ReaperWait, ReapTest)
    else
      var n := SetQ(SetQ(s, Doomed, Q(s, Graveyard)), Graveyard, []);
      SetPc(Sti(n), s.current, ReapYield)
  }

  /** The member after the head, or null. */
  function Second(q: seq<Tid>): Tid { if |q| > 1 then q[1] else NULL }

  /** The reaper looks at its chain: done, or it reads the head's link and lets interrupts come. */
  function ReapNextStep(s: State): State
    requires s.current in s.threads
  {
    SetPc(s, s.current, if Q(s, Doomed) == [] then ReapCli else ReapFree(Second(Q(s, Doomed))))
  }

  /** It destroys the head and goes on with the link it read; a link out of date would lose the chain. */
  function ReapFreeStep(s: State, next: Tid): State
    requires s.current in s.threads
  {
    var q := Q(s, Doomed);
    if q == [] || q[0] !in s.threads || next != Second(q) then s.(halted := true)
    else Destroy(SetPc(SetQ(s, Doomed, q[1..]), s.current, ReapNext), q[0])
  }

  // ---------------------------------------------------------------- the timer interrupt

  /** Handler and interrupt stub: count, and preempt a thread that outlived its quantum. */
  function TimerIrq(s: State): State
    requires s.current in s.threads
  {
    var th := s.threads[s.current];
    var n := SetThread(s, s.current, th.(numTicks := th.numTicks + 1)).(ticks := Low32(s.ticks + 1));
    if th.numTicks + 1 > THREAD_QUANTUM && !s.preemptOff then
      Block(n.(intr := false), RunQueue, Preempted(th.pc))
    else n
  }

  // ---------------------------------------------------------------- runs

  datatype Action =
    | Tick                                  // the timer fires
    | Key(c: nat)                           // a key is pressed: whoever waits in queue `c` is roused
    | Step                                  // the current thread goes on inside a kernel call
    | DoYield | DoSleep(ms: nat) | DoWait(c: nat) | DoWake(c: nat, all: bool)
    | DoSpawn(detached: bool, usermode: bool) | DoExit(code: int) | DoJoin(t: Tid)
    | DoLock(m: nat) | DoUnlock(m: nat)

  /** What threads are taken to do: the timer fires and keys are pressed only with interrupts on; the
      idle thread only yields; main never exits; a thread locks a mutex it does not hold, unlocks one it holds,
      exits holding none, joins a thread it created and has not joined, and spawns while
      more pages are free than it needs. */
  predicate Enabled(s: State, a: Action)
    requires s.current in s.threads
  {
    var th := s.threads[s.current];
    match a
    case Tick => s.intr
    case Key(_) => s.intr
    case Step => th.pc != Running && th.pc != Dead
                 && (th.pc.JoinTest? ==> th.pc.t in s.threads)
    case DoYield => th.pc == Running
    case DoSpawn(_, usermode) => th.pc == Running && s.current != s.idle && PagesNeeded(usermode) < |s.freePages|
    case DoExit(_) => th.pc == Running && s.current != s.idle && s.current != s.main && th.held == {}
    case DoJoin(t) => th.pc == Running && s.current != s.idle && t in th.children
    case DoLock(m) => th.pc == Running && s.current != s.idle && m !in th.held
    case DoUnlock(m) => th.pc == Running && s.current != s.idle && m in th.held
    case _ => th.pc == Running && s.current != s.idle
  }

  /** The forced step of a thread inside a kernel call. */
  function Continue(s: State): State
    requires s.current in s.threads && Enabled(s, Step)
  {
    match s.threads[s.current].pc
    case Start => SetPc(Sti(s), s.current, if s.current == s.reaper then ReapCli else Running)
    case Yielded => SetPc(Sti(s), s.current, Running)
    case Slept => SetPc(Sti(s), s.current, Running)
    case Waited(_) => SetPc(Sti(s), s.current, Running)
    case JoinTest(t) => JoinStep(s, t)
    case LockTest(m) => LockTestStep(s, m)
    case LockOwn(m) => LockOwnStep(s, m)
    case LockLeave(m) => LockLeaveStep(s, m)
    case LockWoken(m) => LockWokenStep(s, m)
    case UnlockClear(m) => UnlockClearStep(s, m)
    case UnlockOwn(m) => UnlockOwnStep(s, m)
    case UnlockWake(m) => UnlockWakeStep(s, m)
    case UnlockLeave => UnlockLeaveStep(s)
    case ReapTest => ReapTestStep(s)
    case ReapYield => Yield(s, ReapYielded)
    case ReapYielded => SetPc(Sti(s), s.current, ReapNext)
    case ReapNext => ReapNextStep(s)
    case ReapFree(next) => ReapFreeStep(s, next)
    case ReapCli => SetPc(Cli(s), s.current, ReapTest)
    case Preempted(at) => SetPc(s.(intr := true), s.current, at)
    case Running => s
    case Dead => s
  }

  function Next(s: State, a: Action): State
    requires s.current in s.threads && Enabled(s, a)
  {
    match a
    case Tick => TimerIrq(s)
    case Key(c) => Wake(s, c, true)
    case Step => Continue(s)
    case DoYield => Yield(s, Yielded)
    case DoSleep(ms) => Sleep(s, ms)
    case DoWait(c) => Wait(s, c)
    case DoWake(c, all) => Wake(s, c, all)
    case DoSpawn(detached, usermode) => Spawn(s, detached, usermode)
    case DoExit(code) => Exit(s, code)
    case DoJoin(t) => Join(s, t)
    case DoLock(m) => Lock(s, m)
    case DoUnlock(m) => Unlock(s, m)
  }
}

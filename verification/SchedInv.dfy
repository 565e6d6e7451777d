/** What holds of the scheduler in every reachable state. Most parts take the thread `f`
    that is on the processor and so in no queue; `f` is null just before a dispatch. */
module SchedInv {
  import opened Basics
  import opened SchedModel

  // ---------------------------------------------------------------- program points

  /** Points at which a thread may be interrupted and preempted. */
  predicate Interruptible(pc: Pc) {
    pc == Running || pc == ReapYield || pc == ReapNext || pc.ReapFree? || pc == ReapCli
  }

  /** Points a thread that is off the processor may wait at. */
  predicate OffCpu(pc: Pc) {
    match pc
    case Preempted(at) => Interruptible(at)
    case _ => pc.Start? || pc.Yielded? || pc.Slept? || pc.Waited? || pc.JoinTest? || pc.LockWoken?
              || pc.ReapTest? || pc.ReapYielded?
  }

  /** Points at which preemption is disabled. */
  predicate PreOff(pc: Pc) {
    pc.LockTest? || pc.LockOwn? || pc.LockLeave? || pc.UnlockClear? || pc.UnlockOwn? || pc.UnlockWake? || pc.UnlockLeave?
  }

  /** Points at which interrupts are on. */
  predicate IntrOn(pc: Pc) { Interruptible(pc) || PreOff(pc) }

  predicate ReapOnly(pc: Pc) {
    match pc
    case Preempted(at) => at.ReapYield? || at.ReapNext? || at.ReapFree? || at.ReapCli?
    case _ => pc.ReapTest? || pc.ReapYield? || pc.ReapYielded? || pc.ReapNext? || pc.ReapFree? || pc.ReapCli?
  }

  predicate IdlePc(pc: Pc) { pc == Start || pc == Running || pc == Yielded || pc == Preempted(Running) }

  /** The queue a blocked thread waits in. */
  function Home(pc: Pc): QueueId {
    match pc
    case Slept => SleepQueue
    case Waited(c) => WaitQueue(c)
    case JoinTest(t) => JoinQueue(t)
    case LockWoken(m) => MutexQueue(m)
    case ReapTest => ReaperWait
    case Dead => Graveyard
    case _ => RunQueue
  }

  // ---------------------------------------------------------------- queues

  /** Thread `th` may stand in queue `id`. */
  predicate Fits(th: Thread, id: QueueId) {
    if th.pc == Dead then th.refCount == 0 && (id == Graveyard || id == Doomed)
    else OffCpu(th.pc) && (id == RunQueue || id == Home(th.pc))
  }

  ghost predicate QueueOk(s: State, f: Tid, id: QueueId) {
    && NoDup(Q(s, id))
    && forall t :: t in Q(s, id) ==> t in s.threads && t != f && Fits(s.threads[t], id)
  }

  /** A thread off the processor is dead and awaiting its join, or in a queue that fits it. */
  predicate Located(s: State, t: Tid)
    requires t in s.threads
  {
    var th := s.threads[t];
    if th.pc == Dead then th.refCount == 1 || t in Q(s, Graveyard) || t in Q(s, Doomed)
    else t in Q(s, RunQueue) || t in Q(s, Home(th.pc))
  }

  ghost predicate Places(s: State, f: Tid) {
    && (forall id :: QueueOk(s, f, id))
    && (forall i, j, t :: t in Q(s, i) && t in Q(s, j) ==> i == j)
    && (forall t {:trigger Located(s, t)} :: t in s.threads && t != f ==> Located(s, t))
  }

  // ---------------------------------------------------------------- threads

  predicate RoleOk(s: State, t: Tid)
    requires t in s.threads
  {
    var th := s.threads[t];
    && (th.alive <==> th.pc != Dead)
    && th.refCount == (if th.alive then 1 else 0) + (if th.ownerRef then 1 else 0)
    && (t == s.idle ==> IdlePc(th.pc))
    && (t == s.reaper ==> th.pc == Start || ReapOnly(th.pc))
    && (t != s.reaper ==> !ReapOnly(th.pc))
    && (t == s.main ==> th.pc != Dead)
    && (th.pc == Dead ==> th.held == {} && th.children == {})
    && (th.pc.UnlockClear? ==> th.pc.m !in th.held)
    && (th.pc.Preempted? ==> Interruptible(th.pc.at))
  }

  ghost predicate Roles(s: State) {
    && NULL !in s.threads
    && s.main in s.threads && s.idle in s.threads && s.reaper in s.threads
    && s.main != s.idle && s.main != s.reaper && s.idle != s.reaper
    && forall t {:trigger RoleOk(s, t)} :: t in s.threads ==> RoleOk(s, t)
  }

  // ---------------------------------------------------------------- references

  /** Threads that `th` still holds a reference to. */
  function RefsOf(th: Thread): set<Tid> {
    th.children + if th.pc.JoinTest? then {th.pc.t} else {}
  }

  predicate RefOk(s: State, t: Tid, c: Tid) {
    t in s.threads && c in s.threads && c != t && s.threads[c].ownerRef
    && (s.threads[t].pc == JoinTest(c) ==> c !in s.threads[t].children)
  }

  ghost predicate Refs(s: State) {
    && (forall t, c {:trigger RefOk(s, t, c)} {:trigger c in RefsOf(s.threads[t])} ::
          t in s.threads && c in RefsOf(s.threads[t]) ==> RefOk(s, t, c))
    && (forall t, u, c {:trigger c in RefsOf(s.threads[t]), c in RefsOf(s.threads[u])} ::
          t in s.threads && u in s.threads && c in RefsOf(s.threads[t]) && c in RefsOf(s.threads[u]) ==> t == u)
    && (forall t, c {:trigger t in Q(s, JoinQueue(c))} :: t in Q(s, JoinQueue(c)) ==> c in s.threads && s.threads[c].alive)
  }

  // ---------------------------------------------------------------- mutexes

  /** `th` is between `mutexLock` setting the owner and `mutex_unlock` clearing the lock. */
  predicate Inside(th: Thread, m: nat) {
    m in th.held || th.pc == LockLeave(m) || th.pc == UnlockClear(m)
  }

  predicate At(s: State, f: Tid, pc: Pc) { f in s.threads && s.threads[f].pc == pc }

  ghost predicate LockOk(s: State, f: Tid, m: nat) {
    var x := MutexOf(s, m);
    && (forall t :: t in s.threads && Inside(s.threads[t], m) ==> x.locked && x.owner == t)
    && (x.locked && x.owner != NULL ==> x.owner in s.threads && Inside(s.threads[x.owner], m))
    && (!x.locked && x.owner != NULL <==> At(s, f, UnlockOwn(m)))
    && (x.locked && x.owner == NULL <==> At(s, f, LockOwn(m)))
  }

  ghost predicate Locks(s: State, f: Tid) { forall m :: LockOk(s, f, m) }

  /** A woken waiter of `m` is runnable and will test the lock again. */
  ghost predicate WokenIn(s: State, m: nat) {
    exists t :: t in Q(s, RunQueue) && At(s, t, LockWoken(m))
  }

  /** The thread on the processor will test `m` again, or is about to wake a waiter. */
  predicate Attending(s: State, f: Tid, m: nat) {
    At(s, f, LockWoken(m)) || At(s, f, LockTest(m)) || At(s, f, UnlockOwn(m)) || At(s, f, UnlockWake(m))
  }

  ghost predicate WakeOk(s: State, f: Tid, m: nat) {
    Q(s, MutexQueue(m)) != [] ==> MutexOf(s, m).locked || WokenIn(s, m) || Attending(s, f, m)
  }

  ghost predicate Wakes(s: State, f: Tid) { forall m :: WakeOk(s, f, m) }

  // ---------------------------------------------------------------- reaper

  /** The reaper's own program point agrees with its private chain; a link it has read is still right. */
  predicate ReaperAt(s: State, pc: Pc) {
    var at := if pc.Preempted? then pc.at else pc;
    && (at == Start || at == ReapTest || at == ReapCli ==> Q(s, Doomed) == [])
    && (at.ReapFree? ==> Q(s, Doomed) != [] && at.next == Second(Q(s, Doomed)))
  }

  predicate Reaps(s: State) {
    && s.reaper in s.threads
    && (Q(s, Graveyard) != [] ==> s.reaper !in Q(s, ReaperWait))
    && ReaperAt(s, s.threads[s.reaper].pc)
  }

  // ---------------------------------------------------------------- pages

  ghost predicate Pages(s: State) {
    && NoDup(s.freePages)
    && NULL !in s.freePages && s.main !in s.freePages
    && (forall t :: t in s.threads ==> NoDup(PagesOf(s, t)) && NULL !in PagesOf(s, t) && s.main !in PagesOf(s, t))
    && (forall t, p :: t in s.threads && p in PagesOf(s, t) ==> p !in s.freePages)
    && (forall t, u, p :: t in s.threads && u in s.threads && p in PagesOf(s, t) && p in PagesOf(s, u) ==> t == u)
  }

  // ---------------------------------------------------------------- all together

  ghost predicate Zeroes(s: State) {
    forall t :: t in s.threads && t != s.current ==> s.threads[t].numTicks == 0
  }

  ghost predicate Core(s: State, f: Tid) {
    && !s.halted
    && s.current in s.threads
    && Places(s, f) && Roles(s) && Refs(s) && Locks(s, f) && Wakes(s, f) && Reaps(s) && Pages(s) && Zeroes(s)
  }

  /** The interrupt and preemption flags are those of the current thread's program point. */
  predicate FlagsOk(s: State) {
    && s.current in s.threads
    && var pc := s.threads[s.current].pc;
       pc != Dead && (s.intr <==> IntrOn(pc)) && (s.preemptOff <==> PreOff(pc))
  }

  /** No sleeper is overdue by more ticks than the current thread has run. */
  ghost predicate Sleepers(s: State) {
    && s.current in s.threads
    && forall t :: t in Q(s, SleepQueue) ==>
         t in s.threads && s.ticks < s.threads[t].sleepUntil + s.threads[s.current].numTicks
  }

  ghost predicate Inv(s: State) { Core(s, s.current) && FlagsOk(s) && Sleepers(s) }

  /** Just before a dispatch: the outgoing thread is already placed. */
  ghost predicate Leaving(s: State) { Core(s, NULL) && !s.intr && !s.preemptOff }
}

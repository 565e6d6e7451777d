/** What a step leaves alone: the life of threads and their pages, and the order of the run queue. */
module SchedEffects {
  import opened Basics
  import opened SchedModel
  import opened SchedInv
  import opened SchedDispatch
  import opened SchedLocal
  import opened SchedCalls
  import opened SchedLocks
  import opened SchedLives

  // ---------------------------------------------------------------- what a dispatch does

  /** `n` has the threads of `s`, with at most tick counts, sleep times and program points changed,
      none of them dying; graveyard, reaper's chain and free pages are as before. */
  ghost predicate SameLives(s: State, n: State) {
    && n.threads.Keys == s.threads.Keys
    && (forall t :: t in s.threads ==> SameLife(s.threads[t], n.threads[t]))
    && n.freePages == s.freePages && n.main == s.main && n.idle == s.idle && n.reaper == s.reaper
    && Q(n, Graveyard) == Q(s, Graveyard) && Q(n, Doomed) == Q(s, Doomed)
  }

  predicate SameLife(a: Thread, b: Thread) {
    (b.pc == Dead <==> a.pc == Dead) && b.exitCode == a.exitCode && b.refCount == a.refCount && b.stack == a.stack && b.userStack == a.userStack
  }

  /** The head of the run queue, to which some woken threads were appended, took the processor. */
  ghost predicate Dispatched(s: State, n: State) {
    && n.current in s.threads && n.current in n.threads
    && (exists woken :: Q(s, RunQueue) + woken == [n.current] + Q(n, RunQueue))
    && n.threads[n.current].numTicks == (if n.current == s.current then 0 else s.threads[n.current].numTicks)
  }

  /** The current thread went on, the run queue at most grew at its tail and nobody woke up. */
  ghost predicate WentOn(s: State, n: State) {
    && n.current == s.current && Q(s, RunQueue) <= Q(n, RunQueue) && AllAsleep(s, n)
    && n.current in s.threads && n.current in n.threads
    && n.threads[n.current].numTicks == s.threads[s.current].numTicks
  }

  /** The sleeper `t` of `s` is still asleep, for as long as it was to be. */
  predicate StillAsleep(s: State, n: State, t: Tid)
    requires t in s.threads
  {
    t in Q(n, SleepQueue) && t in n.threads && n.threads[t].sleepUntil == s.threads[t].sleepUntil
  }

  /** On the processor or runnable. */
  predicate Awake(s: State, t: Tid) { t == s.current || t in Q(s, RunQueue) }

  /** Threads leave the sleep queue only when due, and then they are awake. */
  ghost predicate SleepsOn(s: State, n: State) {
    forall t :: t in Q(s, SleepQueue) && t in s.threads ==>
      StillAsleep(s, n, t) || (s.ticks >= s.threads[t].sleepUntil && Awake(n, t))
  }

  /** Nobody leaves the sleep queue. */
  ghost predicate AllAsleep(s: State, n: State) {
    forall t :: t in Q(s, SleepQueue) && t in s.threads ==> StillAsleep(s, n, t)
  }

  lemma WakeSleepersLives(s: State)
    ensures SameLives(s, WakeSleepers(s)) && WakeSleepers(s).current == s.current && WakeSleepers(s).ticks == s.ticks
  {}

  lemma TakeHeadLives(s: State)
    requires s.current in s.threads && Q(s, RunQueue) != []
    ensures SameLives(s, TakeHead(s))
  {}

  lemma ScheduleLives(s: State)
    requires s.current in s.threads && !s.intr && !s.preemptOff
    ensures SameLives(s, Schedule(s))
  {
    var w := WakeSleepers(s);
    WakeSleepersLives(s);
    if Q(w, RunQueue) != [] {
      TakeHeadLives(w);
      assert Schedule(s) == TakeHead(w);
    }
    hide WakeSleepers, TakeHead;
  }

  lemma {:induction false} NotDueHas(s: State, q: seq<Tid>)
    ensures forall t :: t in q && t in s.threads ==> t in NotDue(s, q) || t in Due(s, q)
    ensures forall t :: t in Due(s, q) ==> Expired(s, t)
    ensures forall t :: t in NotDue(s, q) ==> !Expired(s, t)
  {
    if q != [] {
      NotDueHas(s, q[1..]);
      assert q == [q[0]] + q[1..];
    }
  }

  /** Whoever leaves the sleep queue was due and is runnable. */
  ghost predicate DueRunnable(s: State, w: State) {
    forall t :: t in Q(s, SleepQueue) && t in s.threads ==>
      StillAsleep(s, w, t) || (s.ticks >= s.threads[t].sleepUntil && t in Q(w, RunQueue))
  }

  lemma WakeSleepersSleeps(s: State)
    ensures var w := WakeSleepers(s);
            w.current == s.current && w.ticks == s.ticks && w.threads.Keys == s.threads.Keys && DueRunnable(s, w)
  {
    NotDueHas(s, Q(s, SleepQueue));
    var w := WakeSleepers(s);
    assert Q(w, SleepQueue) == NotDue(s, Q(s, SleepQueue)) && Q(w, RunQueue) == Q(s, RunQueue) + Due(s, Q(s, SleepQueue));
    hide NotDue, Due;
  }

  /** The head of the run queue goes to the processor; sleepers are not touched. */
  lemma TakeHeadSleeps(s: State, w: State)
    requires DueRunnable(s, w) && w.current in w.threads && Q(w, RunQueue) != []
    ensures SleepsOn(s, TakeHead(w))
  {
    var n := TakeHead(w);
    assert Q(n, SleepQueue) == Q(w, SleepQueue) && Q(w, RunQueue) == [n.current] + Q(n, RunQueue);
    assert forall t :: t in w.threads ==> t in n.threads && n.threads[t].sleepUntil == w.threads[t].sleepUntil;
    hide Q, TakeHead;
  }

  lemma ScheduleSleeps(s: State)
    requires s.current in s.threads && !s.intr && !s.preemptOff
    ensures SleepsOn(s, Schedule(s)) && Schedule(s).ticks == s.ticks
  {
    var w := WakeSleepers(s);
    WakeSleepersSleeps(s);
    if Q(w, RunQueue) != [] {
      TakeHeadSleeps(s, w);
      assert Schedule(s) == TakeHead(w);
    }
    hide WakeSleepers, TakeHead;
  }

  lemma ScheduleRuns(s: State)
    requires s.current in s.threads && !s.intr && !s.preemptOff && !Schedule(s).halted && Schedule(s).current in s.threads
    ensures Dispatched(s, Schedule(s))
  {
    var w := WakeSleepers(s);
    var woken := Due(s, Q(s, SleepQueue));
    assert Q(w, RunQueue) == Q(s, RunQueue) + woken;
    assert forall t :: t in s.threads ==> t in w.threads && w.threads[t].numTicks == s.threads[t].numTicks;
    assert w.current == s.current;
    hide WakeSleepers, NotDue, Due;
    var n := Schedule(s);
    assert Q(w, RunQueue) == [n.current] + Q(n, RunQueue);
  }

  // ---------------------------------------------------------------- what a step does

  /** The queues and the sleepers after a step that is not a tick. */
  ghost predicate Moves(s: State, n: State) {
    && SleepsOn(s, n) && n.ticks == s.ticks && (WentOn(s, n) || Dispatched(s, n))
  }

  lemma BlockEffects(b: State, id: QueueId, pc: Pc)
    requires b.current in b.threads && !b.intr && !b.preemptOff && id != Graveyard && id != Doomed
    requires b.threads[b.current].pc != Dead && pc != Dead
    requires !Block(b, id, pc).halted && Block(b, id, pc).current in Entered(b, id, pc).threads
    ensures SameLives(b, Block(b, id, pc)) && SleepsOn(b, Block(b, id, pc)) && Dispatched(b, Block(b, id, pc))
    ensures Block(b, id, pc).ticks == b.ticks
  {
    var e := Entered(b, id, pc);
    EnteredEffects(b, id, pc);
    assert Block(b, id, pc) == Schedule(e);
    hide *;
    ScheduleLives(e);
    ScheduleSleeps(e);
    ScheduleRuns(e);
    LivesTwice(b, e, Schedule(e));
    SleepsTwice(b, e, Schedule(e));
    DispatchedLater(b, e, Schedule(e));
  }

  lemma EnteredIs(b: State, id: QueueId, pc: Pc)
    requires b.current in b.threads
    ensures var e := Entered(b, id, pc);
            && e.current == b.current && e.intr == b.intr && e.preemptOff == b.preemptOff && e.ticks == b.ticks
            && e.threads == b.threads[b.current := b.threads[b.current].(pc := pc)]
            && e.freePages == b.freePages && e.main == b.main && e.idle == b.idle && e.reaper == b.reaper
            && (forall j :: j != id ==> Q(e, j) == Q(b, j)) && Q(e, id) == Q(b, id) + [b.current]
  {}

  lemma EnteredEffects(b: State, id: QueueId, pc: Pc)
    requires b.current in b.threads && id != Graveyard && id != Doomed
    requires b.threads[b.current].pc != Dead && pc != Dead
    ensures var e := Entered(b, id, pc);
            && e.current == b.current && e.current in e.threads && e.intr == b.intr && e.preemptOff == b.preemptOff && e.ticks == b.ticks
            && SameLives(b, e) && AllAsleep(b, e) && Q(b, RunQueue) <= Q(e, RunQueue)
            && e.threads.Keys == b.threads.Keys && forall t :: t in b.threads ==> e.threads[t].numTicks == b.threads[t].numTicks
  {
    EnteredIs(b, id, pc);
    hide Entered, Q;
  }

  lemma DispatchedLater(b: State, e: State, n: State)
    requires Dispatched(e, n) && Q(b, RunQueue) <= Q(e, RunQueue) && e.current == b.current
    requires e.threads.Keys == b.threads.Keys && forall t :: t in b.threads && t != b.current ==> e.threads[t].numTicks == b.threads[t].numTicks
    ensures Dispatched(b, n)
  {
    var woken :| Q(e, RunQueue) + woken == [n.current] + Q(n, RunQueue);
    var more := Q(e, RunQueue)[|Q(b, RunQueue)|..] + woken;
    assert Q(b, RunQueue) + more == [n.current] + Q(n, RunQueue);
  }

  lemma LivesTwice(a: State, b: State, c: State)
    requires SameLives(a, b) && SameLives(b, c)
    ensures SameLives(a, c)
  {
    forall t | t in a.threads ensures SameLife(a.threads[t], c.threads[t]) {
      assert SameLife(a.threads[t], b.threads[t]) && SameLife(b.threads[t], c.threads[t]);
    }
  }

  lemma SleepsTwice(a: State, b: State, c: State)
    requires AllAsleep(a, b) && SleepsOn(b, c) && a.ticks == b.ticks
    ensures SleepsOn(a, c)
  {
    hide Q, Awake;
    forall t | t in Q(a, SleepQueue) && t in a.threads
      ensures StillAsleep(a, c, t) || (a.ticks >= a.threads[t].sleepUntil && Awake(c, t))
    {
      assert StillAsleep(a, b, t);
    }
  }

  /** A step that changes only the current thread's record. */
  lemma LocalEffects(s: State, n: State)
    requires Inv(s) && Local(s, n) && SameLife(s.threads[s.current], n.threads[s.current])
    ensures SameLives(s, n) && AllAsleep(s, n)
    ensures n.ticks == s.ticks && n.threads[s.current].numTicks == s.threads[s.current].numTicks ==> Moves(s, n) && WentOn(s, n)
  {
    CoreParts(s, s.current);
    assert QueueOk(s, s.current, SleepQueue);
    assert forall id :: Q(n, id) == Q(s, id);
  }

  predicate InPlace(s: State, a: Action)
    requires s.current in s.threads && Enabled(s, a)
  {
    match a
    case Step => (match s.threads[s.current].pc
                  case JoinTest(t) => false
                  case LockTest(m) => !MutexOf(s, m).locked
                  case UnlockWake(m) => Q(s, MutexQueue(m)) == []
                  case ReapTest => false
                  case ReapYield => false
                  case ReapFree(next) => false
                  case _ => true)
    case DoJoin(_) => true
    case DoLock(_) => true
    case DoUnlock(_) => true
    case _ => false
  }

  /** What a step in place does: the record gets a new program point and little else. */
  ghost predicate Touched(s: State, n: State) {
    && Local(s, n) && SameLife(s.threads[s.current], n.threads[s.current]) && n.ticks == s.ticks
    && n.threads[s.current].numTicks == s.threads[s.current].numTicks
    && RefsOf(n.threads[s.current]) == RefsOf(s.threads[s.current])
  }

  lemma InPlaceStep(s: State)
    requires s.current in s.threads && FlagsOk(s) && !s.halted && RoleOk(s, s.current)
    requires Enabled(s, Step) && InPlace(s, Step) && !Continue(s).halted
    ensures Touched(s, Continue(s))
  {
    hide Schedule, Block, Q, IdlePc, ReapOnly, PreOff, IntrOn, FlagsOk, Continue, PlainNext;
    if PlainStep(s.threads[s.current].pc) {
      PlainNextIs(s);
      PlainNextAlive(s);
    } else {
      InPlaceMutex(s);
    }
  }

  lemma PlainNextAlive(s: State)
    requires s.current in s.threads && RoleOk(s, s.current) && PlainStep(s.threads[s.current].pc)
    ensures PlainNext(s) != Dead && !PlainNext(s).JoinTest?
  {}

  predicate Locking(pc: Pc) { pc.LockTest? || pc.LockOwn? || pc.LockLeave? || pc.LockWoken? }

  /** Only the program point and the held mutexes of the record changed. */
  lemma Touches(s: State, n: State, th: Thread)
    requires s.current in s.threads && s.threads[s.current].pc != Dead && th.pc != Dead
    requires !s.threads[s.current].pc.JoinTest? && !th.pc.JoinTest?
    requires th == s.threads[s.current].(pc := th.pc, held := th.held)
    requires n == s.(threads := s.threads[s.current := th], mutexes := n.mutexes, intr := n.intr, preemptOff := n.preemptOff)
    ensures Touched(s, n)
  {}

  lemma LockTouches(s: State, m: nat)
    requires s.current in s.threads && s.threads[s.current].pc != Dead && !s.threads[s.current].pc.JoinTest?
    ensures !MutexOf(s, m).locked ==> Touched(s, LockTestStep(s, m))
    ensures Touched(s, LockOwnStep(s, m))
  {
    hide Touched, Block, MutexOf;
    var n := LockTestStep(s, m);
    if !MutexOf(s, m).locked { Touches(s, n, n.threads[s.current]); }
    n := LockOwnStep(s, m);
    Touches(s, n, n.threads[s.current]);
  }

  lemma LockedTouches(s: State, m: nat)
    requires s.current in s.threads && s.threads[s.current].pc != Dead && !s.threads[s.current].pc.JoinTest? && !s.halted
    ensures Touched(s, LockLeaveStep(s, m))
    ensures !LockWokenStep(s, m).halted ==> Touched(s, LockWokenStep(s, m))
  {
    hide Touched, Block, MutexOf;
    var n := LockLeaveStep(s, m);
    Touches(s, n, n.threads[s.current]);
    n := LockWokenStep(s, m);
    if !n.halted { Touches(s, n, n.threads[s.current]); }
  }

  lemma UnlockTouches(s: State, m: nat)
    requires s.current in s.threads && s.threads[s.current].pc != Dead && !s.threads[s.current].pc.JoinTest?
    ensures Touched(s, UnlockClearStep(s, m)) && Touched(s, UnlockOwnStep(s, m))
  {
    hide Touched, Block, MutexOf, Q, WakeOne;
    var n := UnlockClearStep(s, m);
    Touches(s, n, n.threads[s.current]);
    n := UnlockOwnStep(s, m);
    Touches(s, n, n.threads[s.current]);
  }

  lemma OtherTouches(s: State, m: nat)
    requires s.current in s.threads && s.threads[s.current].pc != Dead && !s.threads[s.current].pc.JoinTest?
    ensures Touched(s, ReapNextStep(s))
    ensures Q(s, MutexQueue(m)) == [] ==> Touched(s, UnlockWakeStep(s, m))
  {
    hide Touched, Block, MutexOf, WakeOne;
    var n := ReapNextStep(s);
    Touches(s, n, n.threads[s.current]);
    if Q(s, MutexQueue(m)) == [] {
      n := UnlockWakeStep(s, m);
      Touches(s, n, n.threads[s.current]);
    }
  }

  /** What a step in place may be, apart from the plain ones. */
  lemma InPlaceKinds(s: State)
    requires s.current in s.threads && Enabled(s, Step) && InPlace(s, Step) && !PlainStep(s.threads[s.current].pc)
    ensures var pc := s.threads[s.current].pc;
            && pc != Dead && !pc.JoinTest?
            && (Locking(pc) || pc.UnlockClear? || pc.UnlockOwn? || pc.UnlockWake? || pc == ReapNext)
            && (pc.LockTest? ==> !MutexOf(s, pc.m).locked) && (pc.UnlockWake? ==> Q(s, MutexQueue(pc.m)) == [])
            && (Locking(pc) <==> pc.LockTest? || pc.LockOwn? || pc.LockLeave? || pc.LockWoken?)
  {
    hide Q, MutexOf;
  }

  lemma InPlaceMutex(s: State)
    requires s.current in s.threads && !s.halted && Enabled(s, Step) && InPlace(s, Step) && !Continue(s).halted
    requires !PlainStep(s.threads[s.current].pc)
    ensures Touched(s, Continue(s))
  {
    hide *;
    ContinueIs(s);
    InPlaceKinds(s);
    var pc := s.threads[s.current].pc;
    if pc.LockTest? || pc.LockOwn? {
      LockTouches(s, pc.m);
    } else if Locking(pc) {
      LockedTouches(s, pc.m);
    } else if pc.UnlockClear? || pc.UnlockOwn? {
      UnlockTouches(s, pc.m);
    } else {
      OtherTouches(s, if pc == ReapNext then 0 else pc.m);
    }
  }

  lemma InPlaceCall(s: State, a: Action)
    requires s.current in s.threads && FlagsOk(s) && !s.halted && RoleOk(s, s.current)
    requires Enabled(s, a) && InPlace(s, a) && a != Step && !Next(s, a).halted
    ensures Touched(s, Next(s, a))
  {
    hide Schedule, Block, Q, IdlePc, ReapOnly, PreOff, IntrOn, Continue;
  }

  lemma InPlaceIs(s: State, a: Action)
    requires s.current in s.threads && FlagsOk(s) && !s.halted && RoleOk(s, s.current)
    requires Enabled(s, a) && InPlace(s, a) && !Next(s, a).halted
    ensures Touched(s, Next(s, a))
  {
    hide Continue, Touched, FlagsOk, RoleOk, InPlace, Enabled;
    if a == Step { InPlaceStep(s); } else { InPlaceCall(s, a); }
  }

  /** A call that blocks: its effects, seen from before the call. */
  lemma BlockStep(s: State, b: State, id: QueueId, pc: Pc)
    requires Inv(s) && Local(s, b) && !b.intr && !b.preemptOff && id != Graveyard && id != Doomed && pc != Dead
    requires SameLife(s.threads[s.current], b.threads[s.current]) && b.threads[s.current].pc != Dead
    requires b.threads[s.current].numTicks == s.threads[s.current].numTicks && b.ticks == s.ticks
    requires Inv(Block(b, id, pc))
    ensures SameLives(s, Block(b, id, pc)) && Moves(s, Block(b, id, pc)) && Dispatched(s, Block(b, id, pc))
  {
    var n := Block(b, id, pc);
    InvParts(n);
    hide *;
    LocalEffects(s, b);
    LocalRest(s, b);
    ScheduleKeys(b, id, pc);
    BlockEffects(b, id, pc);
    LivesTwice(s, b, n);
    SleepsTwice(s, b, n);
    DispatchedLater(s, b, n);
    MovesDispatched(s, n);
  }

  lemma LocalRest(s: State, b: State)
    requires Local(s, b)
    ensures b.current == s.current && b.current in b.threads && s.current in s.threads && Q(b, RunQueue) == Q(s, RunQueue)
    ensures b.threads.Keys == s.threads.Keys && (b.threads[b.current].pc == Dead <==> b.threads[s.current].pc == Dead)
    ensures forall t :: t in s.threads && t != s.current ==> b.threads[t].numTicks == s.threads[t].numTicks
  {}

  lemma ScheduleKeysOf(e: State)
    requires e.current in e.threads
    ensures Schedule(e).threads.Keys == e.threads.Keys && Schedule(e).freePages == e.freePages
  {
    hide WakeSleepers, TakeHead;
    var c := Check(Check(e, !e.intr), !e.preemptOff);
    var w := WakeSleepers(c);
    WakeSleepersLives(c);
    if Q(w, RunQueue) != [] {
      TakeHeadLives(w);
      assert Schedule(e) == TakeHead(w) by { TakeHeadIs(w); }
    }
  }

  lemma TakeHeadIs(w: State)
    requires w.current in w.threads && Q(w, RunQueue) != []
    ensures TakeHead(w) == SwitchTo(SetQ(w, RunQueue, Q(w, RunQueue)[1..]), Q(w, RunQueue)[0])
  {}

  lemma ScheduleKeys(b: State, id: QueueId, pc: Pc)
    requires b.current in b.threads
    ensures Block(b, id, pc).threads.Keys == b.threads.Keys && Entered(b, id, pc).threads.Keys == b.threads.Keys
  {
    hide Entered, Block, Schedule;
    EnteredIs(b, id, pc);
    EnteredFlags(b, id, pc);
    ScheduleKeysOf(Entered(b, id, pc));
  }

  lemma MovesDispatched(s: State, n: State)
    requires SleepsOn(s, n) && n.ticks == s.ticks && Dispatched(s, n)
    ensures Moves(s, n)
  {}

  /** The steps that block. */
  predicate Blocking(s: State, a: Action)
    requires s.current in s.threads && Enabled(s, a)
  {
    match a
    case Step => (match s.threads[s.current].pc
                  case JoinTest(t) => s.threads[t].alive
                  case LockTest(m) => MutexOf(s, m).locked
                  case ReapTest => Q(s, Graveyard) == []
                  case ReapYield => true
                  case _ => false)
    case DoYield => true
    case DoSleep(_) => true
    case DoWait(_) => true
    case _ => false
  }

  /** What a blocking step does before it blocks, where it waits and where it will go on. */
  function Blocker(s: State, a: Action): (State, QueueId, Pc)
    requires s.current in s.threads && Enabled(s, a) && Blocking(s, a)
  {
    match a
    case Step => (match s.threads[s.current].pc
                  case JoinTest(t) => (s, JoinQueue(t), JoinTest(t))
                  case LockTest(m) => (LockGiveUp(s), MutexQueue(m), LockWoken(m))
                  case ReapTest => (s, ReaperWait, ReapTest)
                  case ReapYield => (Cli(s), RunQueue, ReapYielded))
    case DoYield => (Cli(s), RunQueue, Yielded)
    case DoSleep(ms) => (Drowsy(s, ms), SleepQueue, Slept)
    case DoWait(c) => (Cli(s), WaitQueue(c), Waited(c))
  }

  lemma BlockingKinds(s: State, a: Action)
    requires s.current in s.threads && Enabled(s, a) && Blocking(s, a)
    ensures a == Step || a.DoSleep? || a == DoYield || a.DoWait?
  {}

  lemma BlockingIs(s: State, a: Action)
    requires s.current in s.threads && FlagsOk(s) && !s.halted && Enabled(s, a) && Blocking(s, a)
    ensures var (b, id, pc) := Blocker(s, a);
            && Local(s, b) && !b.intr && !b.preemptOff && id != Graveyard && id != Doomed && pc != Dead
            && SameLife(s.threads[s.current], b.threads[s.current]) && b.threads[s.current].pc != Dead
            && b.threads[s.current].numTicks == s.threads[s.current].numTicks && b.ticks == s.ticks
            && Next(s, a) == Block(b, id, pc)
  {
    hide *;
    BlockingKinds(s, a);
    if a == Step {
      BlockingStepIs(s);
    } else if a.DoSleep? {
      BlockingSleepIs(s, a);
    } else {
      BlockingCallIs(s, a);
    }
  }

  lemma BlockingSleepIs(s: State, a: Action)
    requires s.current in s.threads && FlagsOk(s) && !s.halted && Enabled(s, a) && Blocking(s, a) && a.DoSleep?
    ensures var (b, id, pc) := Blocker(s, a);
            && Local(s, b) && !b.intr && !b.preemptOff && id != Graveyard && id != Doomed && pc != Dead
            && SameLife(s.threads[s.current], b.threads[s.current]) && b.threads[s.current].pc != Dead
            && b.threads[s.current].numTicks == s.threads[s.current].numTicks && b.ticks == s.ticks
            && Next(s, a) == Block(b, id, pc)
  {
    hide Block, Q, IdlePc, ReapOnly, SleepTicks, Low32, Continue, TimerIrq, Wake, Spawn, Exit, Join, Lock, Unlock, Yield, Wait;
  }

  lemma BlockingCallIs(s: State, a: Action)
    requires s.current in s.threads && FlagsOk(s) && !s.halted && Enabled(s, a) && Blocking(s, a) && (a == DoYield || a.DoWait?)
    ensures var (b, id, pc) := Blocker(s, a);
            && Local(s, b) && !b.intr && !b.preemptOff && id != Graveyard && id != Doomed && pc != Dead
            && SameLife(s.threads[s.current], b.threads[s.current]) && b.threads[s.current].pc != Dead
            && b.threads[s.current].numTicks == s.threads[s.current].numTicks && b.ticks == s.ticks
            && Next(s, a) == Block(b, id, pc)
  {
    hide Block, Q, IdlePc, ReapOnly, SleepTicks, Low32, Continue, TimerIrq, Wake, Spawn, Exit, Join, Lock, Unlock, Sleep, Drowsy;
  }

  lemma BlockingStepIs(s: State)
    requires s.current in s.threads && FlagsOk(s) && !s.halted && Enabled(s, Step) && Blocking(s, Step)
    ensures var (b, id, pc) := Blocker(s, Step);
            && Local(s, b) && !b.intr && !b.preemptOff && id != Graveyard && id != Doomed && pc != Dead
            && SameLife(s.threads[s.current], b.threads[s.current]) && b.threads[s.current].pc != Dead
            && b.threads[s.current].numTicks == s.threads[s.current].numTicks && b.ticks == s.ticks
            && Next(s, Step) == Block(b, id, pc)
  {
    hide Block, Q, IdlePc, ReapOnly;
  }

  /** Steps that make waiters runnable and go on. */
  predicate Waking(s: State, a: Action)
    requires s.current in s.threads && Enabled(s, a)
  {
    a.DoWake? || a.Key? || (a == Step && s.threads[s.current].pc.UnlockWake? && Q(s, MutexQueue(s.threads[s.current].pc.m)) != [])
  }

  /** `n` is `s` with waiters of one queue moved to the tail of the run queue. */
  ghost predicate Roused(s: State, n: State) {
    && n.current == s.current && n.threads == s.threads && n.ticks == s.ticks
    && n.freePages == s.freePages && n.main == s.main && n.idle == s.idle && n.reaper == s.reaper
    && Q(n, Graveyard) == Q(s, Graveyard) && Q(n, Doomed) == Q(s, Doomed) && Q(n, SleepQueue) == Q(s, SleepQueue)
    && Q(s, RunQueue) <= Q(n, RunQueue)
  }

  lemma WakeOneRouses(s: State, id: QueueId)
    requires id.MutexQueue? || id.WaitQueue?
    ensures Roused(s, WakeOne(s, id))
  {}

  lemma WakeAllRouses(s: State, id: QueueId)
    requires id.MutexQueue? || id.WaitQueue? || id.JoinQueue? || id == ReaperWait
    ensures Roused(s, WakeAll(s, id))
  {
    hide Appendable;
    var n := WakeAll(s, id);
    assert n == s.(queues := n.queues, halted := n.halted);
    assert n.queues == s.queues[RunQueue := Q(s, RunQueue) + Q(s, id)][id := []];
    hide WakeAll;
  }

  lemma RousedTwice(a: State, b: State, c: State)
    requires Roused(a, b) && Roused(b, c)
    ensures Roused(a, c)
  {}

  lemma FlagsRouse(s: State)
    ensures Roused(s, Cli(s)) && Roused(s, Sti(s))
  {}

  lemma WakeRouses(s: State, c: nat, all: bool)
    ensures Roused(s, Wake(s, c, all))
  {
    var n := Cli(s);
    var w := if all then WakeAll(n, WaitQueue(c)) else WakeOne(n, WaitQueue(c));
    assert Wake(s, c, all) == Sti(w);
    hide *;
    FlagsRouse(s);
    WakeOneRouses(n, WaitQueue(c));
    WakeAllRouses(n, WaitQueue(c));
    FlagsRouse(w);
    RousedTwice(s, n, w);
    RousedTwice(s, w, Sti(w));
  }

  lemma UnlockWakeRouses(s: State, m: nat)
    requires s.current in s.threads && Q(s, MutexQueue(m)) != []
    ensures Roused(SetPc(s, s.current, UnlockLeave), UnlockWakeStep(s, m))
  {
    var p := SetPc(s, s.current, UnlockLeave);
    var w := WakeOne(Cli(p), MutexQueue(m));
    assert UnlockWakeStep(s, m) == Sti(w);
    hide *;
    FlagsRouse(p);
    WakeOneRouses(Cli(p), MutexQueue(m));
    FlagsRouse(w);
    RousedTwice(p, Cli(p), w);
    RousedTwice(p, w, Sti(w));
  }

  lemma RousedEffects(s: State, p: State, n: State)
    requires Inv(s) && Local(s, p) && SameLife(s.threads[s.current], p.threads[s.current]) && Roused(p, n)
    requires p.ticks == s.ticks && p.threads[s.current].numTicks == s.threads[s.current].numTicks
    ensures SameLives(s, n) && Moves(s, n) && WentOn(s, n)
  {
    LocalEffects(s, p);
    assert forall id :: Q(p, id) == Q(s, id);
    hide Inv, Q;
  }

  lemma WakingFrom(s: State, a: Action)
    requires s.current in s.threads && Enabled(s, a) && Waking(s, a)
    ensures var p := if a.DoWake? || a.Key? then s else SetPc(s, s.current, UnlockLeave);
            && Local(s, p) && SameLife(s.threads[s.current], p.threads[s.current])
            && p.ticks == s.ticks && p.threads[s.current].numTicks == s.threads[s.current].numTicks
            && Roused(p, Next(s, a))
  {
    hide Q, Roused, Wake, UnlockWakeStep;
    if a.DoWake? {
      WakeRouses(s, a.c, a.all);
    } else if a.Key? {
      WakeRouses(s, a.c, true);
    } else {
      UnlockWakeRouses(s, s.threads[s.current].pc.m);
    }
  }

  lemma WakingEffects(s: State, a: Action)
    requires Inv(s) && Enabled(s, a) && Waking(s, a)
    ensures SameLives(s, Next(s, a)) && Moves(s, Next(s, a)) && WentOn(s, Next(s, a))
  {
    hide *;
    InvParts(s);
    WakingFrom(s, a);
    RousedEffects(s, if a.DoWake? || a.Key? then s else SetPc(s, s.current, UnlockLeave), Next(s, a));
  }

  /** The steps that begin or end a life, or move the dead. */
  predicate Vital(s: State, a: Action)
    requires s.current in s.threads && Enabled(s, a)
  {
    match a
    case Step => (match s.threads[s.current].pc
                  case JoinTest(t) => !s.threads[t].alive
                  case ReapTest => Q(s, Graveyard) != []
                  case ReapFree(next) => true
                  case _ => false)
    case DoSpawn(_, _) => true
    case DoExit(_) => true
    case _ => false
  }

  lemma InPlaceEffects(s: State, a: Action)
    requires Inv(s) && Enabled(s, a) && InPlace(s, a) && Inv(Next(s, a))
    ensures SameLives(s, Next(s, a)) && Moves(s, Next(s, a)) && WentOn(s, Next(s, a))
  {
    InvParts(s);
    InvParts(Next(s, a));
    hide *;
    InPlaceIs(s, a);
    LocalEffects(s, Next(s, a));
  }

  lemma BlockingEffects(s: State, a: Action)
    requires Inv(s) && Enabled(s, a) && Blocking(s, a) && Inv(Next(s, a))
    ensures SameLives(s, Next(s, a)) && Moves(s, Next(s, a)) && Dispatched(s, Next(s, a))
  {
    InvParts(s);
    hide *;
    BlockingIs(s, a);
    var (b, id, pc) := Blocker(s, a);
    BlockStep(s, b, id, pc);
  }

  /** Every step is of one of these kinds. */
  lemma Kinds(s: State, a: Action)
    requires s.current in s.threads && Enabled(s, a)
    ensures a == Tick || Vital(s, a) || Blocking(s, a) || Waking(s, a) || InPlace(s, a)
  {
    hide Q;
  }

  /** Every other step leaves lives and free pages alone. */
  lemma QuietEffects(s: State, a: Action)
    requires Inv(s) && Enabled(s, a) && !Vital(s, a) && Inv(Next(s, a))
    ensures SameLives(s, Next(s, a)) && (a != Tick ==> Moves(s, Next(s, a)))
    ensures a != Tick ==> if Blocking(s, a) then Dispatched(s, Next(s, a)) else WentOn(s, Next(s, a))
  {
    InvParts(s);
    hide *;
    Kinds(s, a);
    if a == Tick {
      TickIsNext(s);
      TickEffects(s);
    } else if Blocking(s, a) {
      BlockingEffects(s, a);
    } else if Waking(s, a) {
      WakingEffects(s, a);
    } else {
      InPlaceEffects(s, a);
    }
  }

  lemma TickIsNext(s: State)
    requires s.current in s.threads && Enabled(s, Tick)
    ensures Next(s, Tick) == TimerIrq(s)
  {}

  lemma SleepsOnItself(s: State)
    ensures SleepsOn(s, s)
  {}

  /** A tick either only counts, or is a dispatch that finds the current thread at the tail. */
  lemma TickEffects(s: State)
    requires Inv(s) && Enabled(s, Tick) && Inv(TimerIrq(s))
    ensures var n := TimerIrq(s);
            && SameLives(s, n) && SleepsOn(Counted(s), n) && n.ticks == Low32(s.ticks + 1)
            && (if s.threads[s.current].numTicks + 1 > THREAD_QUANTUM && !s.preemptOff then Dispatched(s, n) else n == Counted(s))
  {
    InvParts(s);
    OwnRefs(s);
    CountedIs(s);
    CountedRest(s);
    var c := Counted(s);
    assert s.intr;
    hide *;
    LocalEffects(s, c);
    TickIs(s);
    CountedKeeps(s);
    InvParts(c);
    SleepsOnItself(c);
    if s.threads[s.current].numTicks + 1 > THREAD_QUANTUM && !s.preemptOff {
      PreemptBlocks(c);
      BlockStep(c, c.(intr := false), RunQueue, Preempted(c.threads[s.current].pc));
      LivesTwice(s, c, TimerIrq(s));
      MovesMeans(c, TimerIrq(s));
      DispatchedLater(s, c, TimerIrq(s));
    }
  }

  lemma MovesMeans(s: State, n: State)
    requires Moves(s, n)
    ensures SleepsOn(s, n) && n.ticks == s.ticks
  {}

  lemma CountedRest(s: State)
    requires s.current in s.threads && s.threads[s.current].pc != Dead
    ensures var c := Counted(s);
            && SameLife(s.threads[s.current], c.threads[s.current]) && c.intr == s.intr && c.preemptOff == s.preemptOff
            && Q(s, RunQueue) == Q(c, RunQueue) && c.current == s.current && c.ticks == Low32(s.ticks + 1) && s.threads.Keys == c.threads.Keys
            && forall t :: t in s.threads && t != s.current ==> c.threads[t].numTicks == s.threads[t].numTicks
  {}

  lemma PreemptBlocks(c: State)
    requires c.current in c.threads && FlagsOk(c) && c.intr && !c.preemptOff
    ensures var b := c.(intr := false);
            && Local(c, b) && SameLife(c.threads[c.current], b.threads[c.current]) && b.threads[c.current].pc != Dead
            && b.threads[c.current].numTicks == c.threads[c.current].numTicks
  {}

  // ---------------------------------------------------------------- steps of life and death

  /** Records of threads present before and after: pages stay, and the dead stay dead. */
  ghost predicate Onward(s: State, n: State) {
    && (forall t :: t in s.threads && t in n.threads ==> OnwardThread(s.threads[t], n.threads[t]))
    && n.main == s.main && n.idle == s.idle && n.reaper == s.reaper
  }

  predicate OnwardThread(a: Thread, b: Thread) {
    b.stack == a.stack && b.userStack == a.userStack && (a.pc == Dead ==> b.pc == Dead && b.refCount <= a.refCount && b.exitCode == a.exitCode)
  }

  lemma LivesOnward(s: State, n: State)
    requires SameLives(s, n)
    ensures Onward(s, n)
  {
    forall t | t in s.threads && t in n.threads ensures OnwardThread(s.threads[t], n.threads[t]) {
      assert SameLife(s.threads[t], n.threads[t]);
    }
  }

  lemma BornEffects(s: State, detached: bool, usermode: bool)
    requires s.current in s.threads && PagesNeeded(usermode) <= |s.freePages| && s.freePages[0] !in s.threads
    ensures var n := Born(s, detached, usermode);
            && Moves(s, n) && WentOn(s, n) && Onward(s, n) && n.threads.Keys == s.threads.Keys + {s.freePages[0]}
            && Q(n, Graveyard) == Q(s, Graveyard) && Q(n, Doomed) == Q(s, Doomed)
            && n.threads[s.freePages[0]].pc == Start
  {
    var n := Born(s, detached, usermode);
    assert Q(n, RunQueue) == Q(s, RunQueue) + [s.freePages[0]];
    assert WentOn(s, n);
    hide Dispatched, WentOn;
  }

  lemma MaySpawn(s: State, detached: bool, usermode: bool)
    requires s.current in s.threads && FlagsOk(s) && Enabled(s, DoSpawn(detached, usermode))
    ensures s.intr && !s.preemptOff && PagesNeeded(usermode) <= |s.freePages| && s.freePages != []
    ensures s.threads[s.current].pc == Running && s.current != s.idle
  {}

  lemma SpawnEffects(s: State, detached: bool, usermode: bool)
    requires Inv(s) && Enabled(s, DoSpawn(detached, usermode))
    ensures var n := Spawn(s, detached, usermode);
            && n == Born(s, detached, usermode) && Moves(s, n) && WentOn(s, n) && Onward(s, n) && n.threads.Keys == s.threads.Keys + {s.freePages[0]}
            && s.freePages[0] !in s.threads && Q(n, Graveyard) == Q(s, Graveyard) && Q(n, Doomed) == Q(s, Doomed)
            && n.threads[s.freePages[0]].pc == Start
  {
    hide *;
    InvParts(s);
    CoreParts(s, s.current);
    MaySpawn(s, detached, usermode);
    FreshPage(s, s.freePages[0]);
    FreshPlace(s, s.current, s.freePages[0]);
    BornIs(s, detached, usermode);
    BornEffects(s, detached, usermode);
  }

  /** `e` comes from `w` by the current thread dying. */
  lemma DiedEffects(w: State, code: int)
    requires w.current in w.threads
    ensures var d := Died(w, code);
            && d.current == w.current && d.threads.Keys == w.threads.Keys && d.ticks == w.ticks && d.freePages == w.freePages
            && d.main == w.main && d.idle == w.idle && d.reaper == w.reaper
            && (forall id :: Q(d, id) == Q(w, id))
            && (forall t :: t in w.threads && t != w.current ==> d.threads[t] == w.threads[t])
            && var a := w.threads[w.current]; var b := d.threads[w.current];
               b.pc == Dead && b.stack == a.stack && b.userStack == a.userStack && b.refCount == a.refCount - 1
               && b.numTicks == a.numTicks && b.sleepUntil == a.sleepUntil
  {}

  lemma EnqueueRouses(s: State, t: Tid)
    ensures var e := Enqueue(s, Graveyard, t);
            && e.current == s.current && e.threads == s.threads && e.ticks == s.ticks && e.freePages == s.freePages
            && e.main == s.main && e.idle == s.idle && e.reaper == s.reaper
            && Q(e, Graveyard) == Q(s, Graveyard) + [t] && forall id :: id != Graveyard ==> Q(e, id) == Q(s, id)
  {}

  lemma GoneIf(d: State)
    requires d.current in d.threads
    ensures Gone(d) == if d.threads[d.current].refCount == 0 then Enqueue(WakeAll(d, ReaperWait), Graveyard, d.current) else d
  {}

  lemma RousedMeans(s: State, n: State)
    requires Roused(s, n)
    ensures n.current == s.current && n.threads == s.threads && n.ticks == s.ticks
    ensures n.freePages == s.freePages && n.main == s.main && n.idle == s.idle && n.reaper == s.reaper
    ensures Q(n, Graveyard) == Q(s, Graveyard) && Q(n, Doomed) == Q(s, Doomed) && Q(n, SleepQueue) == Q(s, SleepQueue)
    ensures Q(s, RunQueue) <= Q(n, RunQueue)
  {}

  /** How `e`, the state an exiting thread leaves behind, comes from `s`. */
  lemma GoneEffects(s: State, e: State, code: int)
    requires s.current in s.threads && WakeAll(Cli(s), JoinQueue(s.current)).current in WakeAll(Cli(s), JoinQueue(s.current)).threads
    requires var d := Died(WakeAll(Cli(s), JoinQueue(s.current)), code); d.current in d.threads && e == Gone(d)
    ensures e.current == s.current && e.threads.Keys == s.threads.Keys && e.ticks == s.ticks && e.freePages == s.freePages
    ensures e.main == s.main && e.idle == s.idle && e.reaper == s.reaper
    ensures forall t :: t in s.threads && t != s.current ==> e.threads[t] == s.threads[t]
    ensures var a := s.threads[s.current]; var b := e.threads[s.current];
            b.pc == Dead && b.stack == a.stack && b.userStack == a.userStack && b.refCount == a.refCount - 1
            && b.numTicks == a.numTicks && b.sleepUntil == a.sleepUntil
    ensures Q(e, Graveyard) == Q(s, Graveyard) + (if s.threads[s.current].refCount == 1 then [s.current] else [])
    ensures Q(e, Doomed) == Q(s, Doomed) && Q(s, RunQueue) <= Q(e, RunQueue) && Q(e, SleepQueue) == Q(s, SleepQueue)
  {
    var w := WakeAll(Cli(s), JoinQueue(s.current));
    hide *;
    FlagsRouse(s);
    WakeAllRouses(Cli(s), JoinQueue(s.current));
    RousedTwice(s, Cli(s), w);
    RousedMeans(s, w);
    var d := Died(w, code);
    DiedEffects(w, code);
    GoneIf(d);
    WakeAllRouses(d, ReaperWait);
    RousedMeans(d, WakeAll(d, ReaperWait));
    EnqueueRouses(WakeAll(d, ReaperWait), d.current);
  }

  lemma LeavingMeans(e: State)
    requires Leaving(e)
    ensures e.current in e.threads && !e.intr && !e.preemptOff
  {}

  lemma ExitEffects(s: State, code: int)
    requires Inv(s) && Enabled(s, DoExit(code)) && Inv(Exit(s, code))
    ensures var n := Exit(s, code);
            && Moves(s, n) && Dispatched(s, n) && Onward(s, n) && n.threads.Keys == s.threads.Keys && n.freePages == s.freePages
            && Q(n, Graveyard) == Q(s, Graveyard) + (if s.threads[s.current].refCount == 1 then [s.current] else [])
            && Q(n, Doomed) == Q(s, Doomed)
  {
    hide *;
    ExitFacts(s, code);
    var n := Exit(s, code);
    InvParts(n);
    ExitLeaves(s, code);
    var e := Gone(Died(WakeAll(Cli(s), JoinQueue(s.current)), code));
    LeavingMeans(e);
    GoneEffects(s, e, code);
    ScheduleLives(e);
    ScheduleSleeps(e);
    ScheduleKeysOf(e);
    ScheduleRuns(e);
    ExitEffectsFrom(s, e, n);
  }

  lemma ExitEffectsFrom(s: State, e: State, n: State)
    requires s.current in s.threads && s.threads[s.current].pc != Dead
    requires e.current == s.current && e.threads.Keys == s.threads.Keys && e.ticks == s.ticks && e.freePages == s.freePages
    requires e.main == s.main && e.idle == s.idle && e.reaper == s.reaper
    requires forall t :: t in s.threads && t != s.current ==> e.threads[t] == s.threads[t]
    requires var a := s.threads[s.current]; var b := e.threads[s.current];
             b.pc == Dead && b.stack == a.stack && b.userStack == a.userStack && b.refCount == a.refCount - 1
             && b.numTicks == a.numTicks && b.sleepUntil == a.sleepUntil
    requires Q(e, Doomed) == Q(s, Doomed) && Q(s, RunQueue) <= Q(e, RunQueue) && Q(e, SleepQueue) == Q(s, SleepQueue)
    requires SameLives(e, n) && SleepsOn(e, n) && n.ticks == e.ticks && Dispatched(e, n)
    ensures Moves(s, n) && Dispatched(s, n) && Onward(s, n) && Q(n, Graveyard) == Q(e, Graveyard) && Q(n, Doomed) == Q(s, Doomed)
  {
    DispatchedLater(s, e, n);
    forall t | t in s.threads && t in n.threads ensures OnwardThread(s.threads[t], n.threads[t]) {
      assert SameLife(e.threads[t], n.threads[t]);
    }
    assert SleepsOn(s, n);
    hide Q, Dispatched, SleepsOn;
  }

  lemma JoinedEffects(s: State)
    requires s.current in s.threads
    ensures var j := Joined(s);
            && j.current == s.current && j.current in j.threads && j.threads.Keys == s.threads.Keys && j.ticks == s.ticks
            && j.freePages == s.freePages && j.main == s.main && j.idle == s.idle && j.reaper == s.reaper
            && (forall id :: Q(j, id) == Q(s, id))
            && (forall t :: t in s.threads && t != s.current ==> j.threads[t] == s.threads[t])
            && j.threads[s.current] == s.threads[s.current].(pc := Running)
  {}

  lemma BuriedEffects(w: State, t: Tid)
    requires t in w.threads
    ensures var n := Sti(Buried(w, t));
            && n.current == w.current && n.threads.Keys == w.threads.Keys && n.ticks == w.ticks
            && n.freePages == w.freePages && n.main == w.main && n.idle == w.idle && n.reaper == w.reaper
            && (forall id :: id != Graveyard ==> Q(n, id) == Q(w, id)) && Q(n, Graveyard) == Q(w, Graveyard) + [t]
            && (forall u :: u in w.threads && u != t ==> n.threads[u] == w.threads[u])
            && n.threads[t] == w.threads[t].(ownerRef := false, refCount := 0)
  {}

  lemma JoinEndFrom(s: State, n: State, t: Tid)
    requires s.current in s.threads && t in s.threads && t != s.current && s.threads[s.current].pc != Dead
    requires s.threads[t].pc == Dead && s.threads[t].refCount == 1
    requires n.current == s.current && n.threads.Keys == s.threads.Keys && n.ticks == s.ticks
    requires n.main == s.main && n.idle == s.idle && n.reaper == s.reaper
    requires Q(n, SleepQueue) == Q(s, SleepQueue) && Q(s, RunQueue) <= Q(n, RunQueue)
    requires forall u :: u in s.threads && u != t && u != s.current ==> n.threads[u] == s.threads[u]
    requires n.threads[s.current] == s.threads[s.current].(pc := Running)
    requires n.threads[t] == s.threads[t].(ownerRef := false, refCount := 0)
    ensures Moves(s, n) && WentOn(s, n) && Onward(s, n)
  {
    hide Dispatched, Q;
  }

  lemma JoinEndFacts(s: State, t: Tid)
    requires Inv(s) && s.threads[s.current].pc == JoinTest(t) && t in s.threads && !s.threads[t].alive
    ensures s.current in s.threads && s.threads[s.current].pc != Dead && s.threads[t].pc == Dead && !s.intr
  {
    hide Core, Sleepers;
    InvParts(s);
    RoleOkAt(s, s.current, t);
  }

  lemma JoinEndEffects(s: State, t: Tid)
    requires Inv(s) && s.threads[s.current].pc == JoinTest(t) && t in s.threads && !s.threads[t].alive
    ensures var n := JoinStep(s, t);
            && Moves(s, n) && WentOn(s, n) && Onward(s, n) && n.threads.Keys == s.threads.Keys && n.freePages == s.freePages
            && Q(n, Graveyard) == Q(s, Graveyard) + [t] && Q(n, Doomed) == Q(s, Doomed)
            && s.threads[t].pc == Dead && s.threads[t].refCount == 1 && n.threads[t].refCount == 0
  {
    hide *;
    JoinEndFacts(s, t);
    JoinedForsaken(s, t);
    JoinEndPlace(s, t);
    JoinEndIs(s, t);
    var w := WakeAll(Joined(s), ReaperWait);
    JoinedEffects(s);
    WakeAllRouses(Joined(s), ReaperWait);
    RousedMeans(Joined(s), w);
    BuriedEffects(w, t);
    JoinEndFrom(s, JoinStep(s, t), t);
  }

  lemma ReapTakeFrom(s: State)
    requires s.current in s.threads && s.threads[s.current].pc == ReapTest && Q(s, Graveyard) != [] && Q(s, Doomed) == []
    ensures var n := ReapTestStep(s);
            && Moves(s, n) && WentOn(s, n) && Onward(s, n) && n.threads.Keys == s.threads.Keys && n.freePages == s.freePages
            && Q(n, Graveyard) == [] && Q(n, Doomed) == Q(s, Graveyard)
  {
    hide Dispatched;
  }

  lemma ReapTakeEffects(s: State)
    requires Inv(s) && s.threads[s.current].pc == ReapTest && Q(s, Graveyard) != []
    ensures var n := ReapTestStep(s);
            && Moves(s, n) && WentOn(s, n) && Onward(s, n) && n.threads.Keys == s.threads.Keys && n.freePages == s.freePages
            && Q(s, Doomed) == [] && Q(n, Graveyard) == [] && Q(n, Doomed) == Q(s, Graveyard)
  {
    hide *;
    InvParts(s);
    ChainUsedUp(s);
    ReapTakeFrom(s);
  }

  /** The reaper's chain is used up when it looks at the graveyard. */
  lemma ChainUsedUp(s: State)
    requires Inv(s) && s.threads[s.current].pc == ReapTest
    ensures Q(s, Doomed) == []
  {
    InvParts(s);
    CoreParts(s, s.current);
  }

  /** Setting the program point first makes no difference. */
  lemma FreeingEffects(s: State)
    requires s.current in s.threads
    ensures var p := Freeing(s);
            && p.current == s.current && p.current in p.threads && p.threads.Keys == s.threads.Keys && p.ticks == s.ticks
            && p.freePages == s.freePages && p.main == s.main && p.idle == s.idle && p.reaper == s.reaper
            && (forall id :: Q(p, id) == Q(s, id))
            && (forall t :: t in s.threads ==> p.threads[t] == s.threads[t].(pc := p.threads[t].pc) && PagesOf(p, t) == PagesOf(s, t))
            && (forall t :: t in s.threads && t != s.current ==> p.threads[t] == s.threads[t])
            && p.threads[s.current] == s.threads[s.current].(pc := ReapNext)
  {}

  lemma DestroyedIs(p: State)
    requires Q(p, Doomed) != [] && Doomable(p, Q(p, Doomed)[0]) && p.current in p.threads
    ensures var t := Q(p, Doomed)[0]; var n := Destroyed(p, t);
            && t != p.current && n.current == p.current && n.threads == p.threads - {t} && n.ticks == p.ticks
            && n.freePages == p.freePages + PagesOf(p, t) && n.main == p.main && n.idle == p.idle && n.reaper == p.reaper
            && (forall id :: id != Doomed ==> Q(n, id) == Q(p, id)) && Q(n, Doomed) == Q(p, Doomed)[1..]
  {}

  lemma DestroyFrom(s: State, p: State)
    requires s.current in s.threads && s.threads[s.current].pc != Dead && p == Freeing(s)
    requires Q(p, Doomed) != [] && Doomable(p, Q(p, Doomed)[0]) && Q(p, Doomed)[0] !in Q(p, SleepQueue)
    ensures var n := Destroyed(p, Q(p, Doomed)[0]);
            && Moves(s, n) && WentOn(s, n) && Onward(s, n) && n.threads.Keys == s.threads.Keys - {Q(s, Doomed)[0]}
            && Q(s, Doomed) == Q(p, Doomed) && Q(s, Doomed)[0] in s.threads
            && n.freePages == s.freePages + PagesOf(s, Q(s, Doomed)[0])
            && Q(n, Graveyard) == Q(s, Graveyard) && Q(n, Doomed) == Q(s, Doomed)[1..]
  {
    assert Q(p, Doomed)[0] in p.threads;
    hide *;
    FreeingEffects(s);
    DestroyedIs(p);
    DestroyGoesOn(s, p, Destroyed(p, Q(p, Doomed)[0]), Q(p, Doomed)[0]);
  }

  /** Only thread `t`, no sleeper, and the current thread's program point changed. */
  lemma DestroyGoesOn(s: State, p: State, n: State, t: Tid)
    requires s.current in s.threads && s.threads[s.current].pc != Dead && t != s.current && n.threads == p.threads - {t}
    requires p.threads.Keys == s.threads.Keys && n.ticks == s.ticks && n.current == s.current
    requires n.main == s.main && n.idle == s.idle && n.reaper == s.reaper
    requires forall u :: u in s.threads && u != s.current ==> p.threads[u] == s.threads[u]
    requires p.threads[s.current] == s.threads[s.current].(pc := ReapNext)
    requires Q(n, SleepQueue) == Q(s, SleepQueue) && Q(n, RunQueue) == Q(s, RunQueue) && t !in Q(s, SleepQueue)
    ensures Moves(s, n) && WentOn(s, n) && Onward(s, n) && n.threads.Keys == s.threads.Keys - {t}
  {
    hide Dispatched, Q, Awake;
    assert WentOn(s, n);
    hide WentOn;
  }

  lemma DoomedAwake(s: State)
    requires Core(s, s.current) && Q(s, Doomed) != []
    ensures Q(s, Doomed)[0] !in Q(s, SleepQueue)
  {
    assert Q(s, Doomed)[0] in Q(s, Doomed);
  }

  lemma DestroyEffects(s: State)
    requires Inv(s) && s.threads[s.current].pc.ReapFree?
    ensures Q(s, Doomed) != [] && Q(s, Doomed)[0] in s.threads
    ensures var n := ReapFreeStep(s, s.threads[s.current].pc.next);
            && Moves(s, n) && WentOn(s, n) && Onward(s, n) && n.threads.Keys == s.threads.Keys - {Q(s, Doomed)[0]}
            && n.freePages == s.freePages + PagesOf(s, Q(s, Doomed)[0])
            && Q(n, Graveyard) == Q(s, Graveyard) && Q(n, Doomed) == Q(s, Doomed)[1..]
  {
    InvParts(s);
    OwnRefs(s);
    LinkStill(s);
    FreeingKeeps(s);
    var p := Freeing(s);
    InvParts(p);
    assert s.threads[s.current].pc != Dead;
    hide *;
    FreeingIs(s);
    HeadDoomable(p);
    DestroyIs(s);
    DoomedAwake(p);
    DestroyFrom(s, p);
  }
}

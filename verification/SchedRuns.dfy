/** Runs of the scheduler from boot: no assertion of the kernel ever fails, the dispatcher always
    finds a thread, and the invariants hold of every state a run reaches. */
module SchedRuns {
  import opened Basics
  import opened SchedModel
  import opened SchedInv
  import opened SchedDispatch
  import opened SchedCalls
  import opened SchedLocks
  import opened SchedLives

  // ---------------------------------------------------------------- one step

  lemma LockStepsKeep(s: State)
    requires Inv(s) && Enabled(s, Step)
    requires var pc := s.threads[s.current].pc; pc.LockTest? || pc.LockOwn? || pc.LockLeave? || pc.LockWoken?
    ensures Inv(Continue(s))
  {
    hide *;
    InvParts(s);
    ContinueIs(s);
    var pc := s.threads[s.current].pc;
    var m := pc.m;
    if pc.LockTest? {
      if MutexOf(s, m).locked { LockWaitKeeps(s, m); } else { LockTakeKeeps(s, m); }
    } else if pc.LockOwn? {
      LockOwnKeeps(s, m);
    } else if pc.LockLeave? {
      LockLeaveKeeps(s, m);
    } else {
      LockWokenKeeps(s, m);
    }
  }

  lemma UnlockStepsKeep(s: State)
    requires Inv(s) && Enabled(s, Step)
    requires var pc := s.threads[s.current].pc; pc.UnlockClear? || pc.UnlockOwn? || pc.UnlockWake?
    ensures Inv(Continue(s))
  {
    hide *;
    InvParts(s);
    ContinueIs(s);
    var pc := s.threads[s.current].pc;
    if pc.UnlockClear? {
      UnlockClearKeeps(s, pc.m);
    } else if pc.UnlockOwn? {
      UnlockOwnKeeps(s, pc.m);
    } else {
      UnlockWakeKeeps(s, pc.m);
    }
  }

  lemma JoinStepsKeep(s: State)
    requires Inv(s) && Enabled(s, Step) && s.threads[s.current].pc.JoinTest?
    ensures Inv(Continue(s))
  {
    hide *;
    InvParts(s);
    ContinueIs(s);
    var t := s.threads[s.current].pc.t;
    if s.threads[t].alive { JoinWaitKeeps(s, t); } else { JoinEndKeeps(s, t); }
  }

  lemma ReaperStepsKeep(s: State)
    requires Inv(s) && Enabled(s, Step)
    requires var pc := s.threads[s.current].pc; pc.ReapTest? || pc.ReapYield? || pc.ReapNext? || pc.ReapFree?
    ensures Inv(Continue(s))
  {
    hide *;
    InvParts(s);
    ContinueIs(s);
    var pc := s.threads[s.current].pc;
    if pc.ReapTest? {
      if Q(s, Graveyard) == [] { ReapWaitKeeps(s); } else { ReapTakeKeeps(s); }
    } else if pc.ReapYield? {
      ReapYieldKeeps(s);
    } else if pc.ReapNext? {
      ReapNextKeeps(s);
    } else {
      DestroyKeeps(s);
    }
  }

  lemma StepKinds(s: State)
    requires s.current in s.threads && Enabled(s, Step)
    ensures var pc := s.threads[s.current].pc;
            || PlainStep(pc) || pc.JoinTest? || pc.ReapTest? || pc.ReapYield? || pc.ReapNext? || pc.ReapFree?
            || pc.LockTest? || pc.LockOwn? || pc.LockLeave? || pc.LockWoken? || pc.UnlockClear? || pc.UnlockOwn? || pc.UnlockWake?
  {}

  /** Every step inside a kernel call keeps the invariants. */
  lemma ContinueKeeps(s: State)
    requires Inv(s) && Enabled(s, Step)
    ensures Inv(Continue(s))
  {
    InvParts(s);
    hide *;
    StepKinds(s);
    var pc := s.threads[s.current].pc;
    if PlainStep(pc) {
      StepPlainKeeps(s);
    } else if pc.JoinTest? {
      JoinStepsKeep(s);
    } else if pc.ReapTest? || pc.ReapYield? || pc.ReapNext? || pc.ReapFree? {
      ReaperStepsKeep(s);
    } else if pc.LockTest? || pc.LockOwn? || pc.LockLeave? || pc.LockWoken? {
      LockStepsKeep(s);
    } else {
      UnlockStepsKeep(s);
    }
  }

  /** Which function a step of the machine is. */
  lemma NextIs(s: State, a: Action)
    requires s.current in s.threads && Enabled(s, a)
    ensures match a
            case Tick => Next(s, a) == TimerIrq(s)
            case Key(c) => s.intr && Next(s, a) == Wake(s, c, true)
            case Step => Next(s, a) == Continue(s)
            case DoYield => Next(s, a) == Yield(s, Yielded)
            case DoSleep(ms) => Next(s, a) == Sleep(s, ms)
            case DoWait(c) => Next(s, a) == Wait(s, c)
            case DoWake(c, all) => Next(s, a) == Wake(s, c, all)
            case DoSpawn(detached, usermode) => PagesNeeded(usermode) <= |s.freePages| && Next(s, a) == Spawn(s, detached, usermode)
            case DoExit(code) => Next(s, a) == Exit(s, code)
            case DoJoin(t) => Next(s, a) == Join(s, t)
            case DoLock(m) => Next(s, a) == Lock(s, m)
            case DoUnlock(m) => Next(s, a) == Unlock(s, m)
  {
    hide Continue, TimerIrq, Yield, Sleep, Wait, Wake, Spawn, Exit, Join, Lock, Unlock;
  }

  /** A thread at its own code runs with interrupts on. */
  lemma RunningOn(s: State)
    requires Inv(s) && s.current in s.threads && s.threads[s.current].pc == Running
    ensures s.intr
  {
    hide Core, Sleepers;
    InvParts(s);
  }

  /** Every step of the machine keeps the invariants; in particular no KASSERT fails in it. */
  lemma NextKeeps(s: State, a: Action)
    requires Inv(s) && Enabled(s, a)
    ensures Inv(Next(s, a))
  {
    hide Inv, Next, FlagsOk, RoleOk, Continue, TimerIrq, Yield, Sleep, Wait, Wake, Spawn, Exit, Join, Lock, Unlock, Core, Sleepers,
         PagesNeeded;
    InvParts(s);
    NextIs(s, a);
    match a
    case Tick => TickKeeps(s);
    case Key(c) => WakeKeeps(s, c, true);
    case Step => ContinueKeeps(s);
    case DoYield => YieldKeeps(s);
    case DoSleep(ms) => SleepKeeps(s, ms);
    case DoWait(c) => WaitKeeps(s, c);
    case DoWake(c, all) =>
      RunningOn(s);
      WakeKeeps(s, c, all);
    case DoSpawn(detached, usermode) => SpawnKeeps(s, detached, usermode);
    case DoExit(code) => ExitKeeps(s, code);
    case DoJoin(t) => JoinKeeps(s, t);
    case DoLock(m) => LockKeeps(s, m);
    case DoUnlock(m) => UnlockKeeps(s, m);
  }

  /** The machine is never stuck: some step is always possible. */
  lemma SomeStep(s: State)
    requires Inv(s)
    ensures exists a :: Enabled(s, a)
  {
    InvParts(s);
    var th := s.threads[s.current];
    if th.pc == Running {
      assert Enabled(s, DoYield);
    } else {
      if th.pc.JoinTest? {
        assert th.pc.t in RefsOf(th);
        assert RefOk(s, s.current, th.pc.t);
      }
      assert Enabled(s, Step);
    }
  }

  // ---------------------------------------------------------------- boot

  /** What `schedulerInit` is given: main's record and stack outside the free pages, pages for two threads. */
  ghost predicate Bootable(main: Tid, free: seq<nat>) {
    main != NULL && NoDup(free) && NULL !in free && main !in free && |free| >= 4
  }

  /** Main alone, about to spawn the idle thread and the reaper on the first free pages. */
  function Bare(main: Tid, stack: nat, free: seq<nat>): State
    requires |free| >= 4
  {
    State(map[main := Thread(Running, 0, 0, true, 1, 0, stack, None, false, {}, {})], map[], map[],
          main, true, false, 0, free, main, free[0], free[2], false)
  }

  function Boot(main: Tid, stack: nat, free: seq<nat>): State
    requires Bootable(main, free)
  {
    Born(Born(Bare(main, stack, free), true, false), true, false)
  }

  lemma BootSpawns(main: Tid, stack: nat, free: seq<nat>)
    requires Bootable(main, free)
    ensures var b := Bare(main, stack, free);
            && b.current in b.threads && PagesNeeded(false) <= |b.freePages|
            && var i := Spawn(b, true, false);
            && i.current in i.threads && PagesNeeded(false) <= |i.freePages|
            && Boot(main, stack, free) == Spawn(i, true, false)
  {
    var b := Bare(main, stack, free);
    BornIs(b, true, false);
    var i := Born(b, true, false);
    assert i.freePages[0] == free[2];
    assert Q(i, RunQueue) == [free[0]];
    BornIs(i, true, false);
  }

  /** The state after boot, spelled out. */
  lemma BootIs(main: Tid, stack: nat, free: seq<nat>)
    requires Bootable(main, free)
    ensures var s := Boot(main, stack, free);
            && s.threads.Keys == {main, free[0], free[2]}
            && s.threads[main] == Thread(Running, 0, 0, true, 1, 0, stack, None, false, {}, {})
            && s.threads[free[0]] == NewThread(free[1], None, true) && s.threads[free[2]] == NewThread(free[3], None, true)
            && Q(s, RunQueue) == [free[0], free[2]] && (forall id :: id != RunQueue ==> Q(s, id) == [])
            && s.freePages == free[4..] && s.mutexes == map[] && s.current == main && s.intr && !s.preemptOff && s.ticks == 0
            && s.main == main && s.idle == free[0] && s.reaper == free[2] && !s.halted
            && free[0] != main && free[2] != main && free[0] != free[2]
  {
    var b := Bare(main, stack, free);
    var i := Born(b, true, false);
    assert Q(b, RunQueue) == [] && i.freePages == free[2..];
    assert Q(i, RunQueue) == [free[0]];
  }

  lemma BootPlaces(main: Tid, stack: nat, free: seq<nat>)
    requires Bootable(main, free)
    ensures Places(Boot(main, stack, free), main)
  {
    BootIs(main, stack, free);
    var s := Boot(main, stack, free);
    hide Boot, Q, Bootable;
    forall id ensures QueueOk(s, main, id) {
      if id != RunQueue { assert Q(s, id) == []; }
    }
    forall t | t in s.threads && t != main ensures Located(s, t) {
      assert t == Q(s, RunQueue)[0] || t == Q(s, RunQueue)[1];
    }
  }

  lemma BootRefs(main: Tid, stack: nat, free: seq<nat>)
    requires Bootable(main, free)
    ensures var s := Boot(main, stack, free); Wakes(s, main) && Refs(s)
  {
    BootIs(main, stack, free);
    var s := Boot(main, stack, free);
    hide Boot, Q, Bootable;
    forall m ensures WakeOk(s, main, m) {
      assert Q(s, MutexQueue(m)) == [];
    }
    assert forall t :: t in s.threads ==> RefsOf(s.threads[t]) == {};
  }

  lemma BootRest(main: Tid, stack: nat, free: seq<nat>)
    requires Bootable(main, free)
    ensures var s := Boot(main, stack, free);
            Roles(s) && Locks(s, main) && Reaps(s) && Zeroes(s) && FlagsOk(s) && Sleepers(s) && !s.halted && s.current == main && main in s.threads
  {
    BootIs(main, stack, free);
    var s := Boot(main, stack, free);
    hide Boot;
    forall m ensures LockOk(s, main, m) {}
    forall t | t in s.threads ensures RoleOk(s, t) {}
  }

  /** Whose the first four pages are. */
  lemma BootOwners(main: Tid, stack: nat, free: seq<nat>)
    requires Bootable(main, free)
    ensures var s := Boot(main, stack, free);
            && s.freePages == free[4..] && s.main == main
            && (forall t :: t in s.threads <==> t == main || t == free[0] || t == free[2])
            && main in s.threads && free[0] in s.threads && free[2] in s.threads
            && PagesOf(s, main) == [] && PagesOf(s, free[0]) == [free[1], free[0]] && PagesOf(s, free[2]) == [free[3], free[2]]
  {
    BootIs(main, stack, free);
    hide Boot;
  }

  lemma BootPages(main: Tid, stack: nat, free: seq<nat>)
    requires Bootable(main, free)
    ensures Pages(Boot(main, stack, free))
  {
    hide Boot, NoDup, PagesOf;
    BootOwners(main, stack, free);
    BootFree(free);
  }

  /** The first four free pages are apart from the others and from each other. */
  lemma BootFree(free: seq<nat>)
    requires NoDup(free) && |free| >= 4
    ensures NoDup(free[4..]) && NoDup([free[1], free[0]]) && NoDup([free[3], free[2]]) && NoDup<nat>([])
    ensures free[0] != free[2] && free[0] != free[3] && free[1] != free[2] && free[1] != free[3]
    ensures free[0] !in free[4..] && free[1] !in free[4..] && free[2] !in free[4..] && free[3] !in free[4..]
    ensures forall p :: p in free[4..] ==> p in free
  {}

  /** The invariants hold after boot. */
  lemma BootKeeps(main: Tid, stack: nat, free: seq<nat>)
    requires Bootable(main, free)
    ensures Inv(Boot(main, stack, free))
  {
    hide *;
    BootPlaces(main, stack, free);
    BootRefs(main, stack, free);
    BootRest(main, stack, free);
    BootPages(main, stack, free);
    CoreWhole(Boot(main, stack, free), main);
    InvWhole(Boot(main, stack, free));
  }

  // ---------------------------------------------------------------- runs

  /** `acts` can be taken one after the other from `s`. */
  ghost predicate Runs(s: State, acts: seq<Action>)
    decreases |acts|
  {
    acts != [] ==> s.current in s.threads && Enabled(s, acts[0]) && Runs(Next(s, acts[0]), acts[1..])
  }

  ghost function After(s: State, acts: seq<Action>): State
    requires Runs(s, acts)
    decreases |acts|
  {
    if acts == [] then s else After(Next(s, acts[0]), acts[1..])
  }

  /** Whatever threads do, however ticks fall between, the invariants hold. */
  lemma {:induction false} RunsKeep(s: State, acts: seq<Action>)
    requires Inv(s) && Runs(s, acts)
    ensures Inv(After(s, acts))
    decreases |acts|
  {
    hide Inv, Next, Enabled;
    if acts != [] {
      NextKeeps(s, acts[0]);
      RunsKeep(Next(s, acts[0]), acts[1..]);
    }
  }

  /** The idle thread is on the processor or runnable. */
  lemma IdleReady(s: State)
    requires Inv(s)
    ensures s.current == s.idle || s.idle in Q(s, RunQueue)
  {
    hide Q, Core, FlagsOk, Sleepers, Interruptible, ReapOnly;
    InvParts(s);
    if s.current != s.idle {
      IdleLocated(s);
    }
  }

  lemma IdleLocated(s: State)
    requires Core(s, s.current) && s.current != s.idle
    ensures s.idle in Q(s, RunQueue)
  {
    hide Q, Interruptible, ReapOnly;
    assert Located(s, s.idle) && RoleOk(s, s.idle);
  }

  /** From boot, no KASSERT ever fails, the dispatcher always finds a runnable thread, the machine
      is never stuck, and the idle thread is on the processor or runnable. */
  lemma NeverHalts(main: Tid, stack: nat, free: seq<nat>, acts: seq<Action>)
    requires Bootable(main, free) && Runs(Boot(main, stack, free), acts)
    ensures var s := After(Boot(main, stack, free), acts);
            && !s.halted && (exists a :: s.current in s.threads && Enabled(s, a))
            && (s.current == s.idle || s.idle in Q(s, RunQueue))
  {
    hide *;
    var b := Boot(main, stack, free);
    BootKeeps(main, stack, free);
    RunsKeep(b, acts);
    var s := After(b, acts);
    InvParts(s);
    SomeStep(s);
    IdleReady(s);
  }
}

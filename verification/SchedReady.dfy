/** What the kernel's code may rely on at each call, drawn from the invariants. */
module SchedReady {
  import opened Basics
  import opened SchedModel
  import opened SchedInv
  import opened SchedDispatch
  import opened SchedLocal
  import opened SchedCalls
  import opened SchedLocks
  import opened SchedLives
  import opened SchedEffects
  import opened SchedRuns
  import opened SchedLinks
  import opened SchedWalks

  /** The thread on the processor is in no queue. */
  lemma CurrentFree(s: State)
    requires Inv(s)
    ensures Free(s.queues, s.current) && s.current in s.threads && s.current != NULL && !s.halted
  {
    InvParts(s);
    CoreParts(s, s.current);
    forall id ensures s.current !in QOf(s.queues, id) {
      assert QueueOk(s, s.current, id);
      assert Q(s, id) == QOf(s.queues, id);
    }
  }

  /** Before a dispatch every sleeper has a record, and the flags are off. */
  lemma DispatchReady(s: State)
    requires Leaving(s)
    ensures Recorded(s.threads, QOf(s.queues, SleepQueue)) && !s.intr && !s.preemptOff && s.current in s.threads && !s.halted
  {
    assert QueueOk(s, NULL, SleepQueue);
    assert Q(s, SleepQueue) == QOf(s.queues, SleepQueue);
  }

  /** After the wake-up there is a runnable thread. */
  lemma RunnableThere(s: State)
    requires Leaving(s)
    ensures var w := WakeSleepers(s);
            && w.current in w.threads && Q(w, RunQueue) != [] && s.current in s.threads
            && Schedule(s) == SwitchTo(SetQ(w, RunQueue, Q(w, RunQueue)[1..]), Q(w, RunQueue)[0])
  {
    hide WakeSleepers;
    DispatchReady(s);
    WakeSleepersKeeps(s);
    CoreParts(WakeSleepers(s), NULL);
    IdleRuns(WakeSleepers(s));
    ScheduleIs(s);
  }

  /** A blocking call has everything in place for the dispatch. */
  lemma BlockerReady(s: State, a: Action)
    requires Inv(s) && Enabled(s, a) && Blocking(s, a)
    ensures var (b, id, pc) := Blocker(s, a);
            && b.current in b.threads && !b.intr && b.current == s.current && b.queues == s.queues
            && Leaving(Entered(b, id, pc)) && Next(s, a) == Block(b, id, pc)
  {
    InvParts(s);
    hide *;
    BlockingIs(s, a);
    var (b, id, pc) := Blocker(s, a);
    LocalMeans(s, b);
    BlockerLeaves(s, a);
  }

  lemma LocalMeans(s: State, b: State)
    requires Local(s, b)
    ensures b.current == s.current && s.current in b.threads && b.queues == s.queues
  {}

  lemma BlockerLeaves(s: State, a: Action)
    requires Inv(s) && Enabled(s, a) && Blocking(s, a)
    ensures var (b, id, pc) := Blocker(s, a); b.current in b.threads && Leaving(Entered(b, id, pc))
  {
    InvParts(s);
    OwnRefs(s);
    hide Inv, Core, FlagsOk, RoleOk, RefsKept, Sleepers, Leaving, Entered, Cli, Drowsy, LockGiveUp, Blocks;
    if a == Step {
      StepBlockerLeaves(s);
    } else if a == DoYield {
      YieldIs(s);
      BlockFrom(s, Cli(s), RunQueue, Yielded);
    } else if a.DoSleep? {
      SleepIs(s, a.ms);
      BlockFrom(s, Drowsy(s, a.ms), SleepQueue, Slept);
    } else {
      WaitIs(s, a.c);
      BlockFrom(s, Cli(s), WaitQueue(a.c), Waited(a.c));
    }
  }

  lemma StepBlockerLeaves(s: State)
    requires Inv(s) && Enabled(s, Step) && Blocking(s, Step)
    ensures var (b, id, pc) := Blocker(s, Step); b.current in b.threads && Leaving(Entered(b, id, pc))
  {
    InvParts(s);
    OwnRefs(s);
    var at := s.threads[s.current].pc;
    if at.JoinTest? { JoinTarget(s, at.t); }
    hide Inv, Core, FlagsOk, RoleOk, RefsKept, Sleepers, Leaving, Entered, Cli, LockGiveUp, Blocks;
    if at.JoinTest? {
      JoinWaitIs(s, at.t);
      BlockFrom(s, s, JoinQueue(at.t), JoinTest(at.t));
    } else if at.LockTest? {
      LockWaitLeaves(s, at.m);
    } else if at.ReapTest? {
      ReapWaitIs(s);
      BlockFrom(s, s, ReaperWait, ReapTest);
    } else {
      ReapYieldIs(s);
      BlockFrom(s, Cli(s), RunQueue, ReapYielded);
    }
  }

  lemma JoinTarget(s: State, t: Tid)
    requires Inv(s) && s.threads[s.current].pc == JoinTest(t)
    ensures t in s.threads && t != s.current
  {
    InvParts(s);
    assert t in RefsOf(s.threads[s.current]);
    assert RefOk(s, s.current, t);
  }

  lemma LockWaitLeaves(s: State, m: nat)
    requires Inv(s) && s.threads[s.current].pc == LockTest(m) && MutexOf(s, m).locked
    ensures var b := LockGiveUp(s); b.current in b.threads && Leaving(Entered(b, MutexQueue(m), LockWoken(m)))
  {
    InvParts(s);
    CoreParts(s, s.current);
    MutexParts(s, m);
    hide *;
    LockWaitIs(s, m);
    var n := SetPc(LockGiveUp(s), s.current, LockWoken(m));
    OthersLocked(s, n, m);
    OthersWaited(s, n, m);
    LocalKeeps(s, n);
    BlockLeaves(LockGiveUp(s), MutexQueue(m), LockWoken(m));
  }

  /** A preempted thread has everything in place for the dispatch. */
  lemma PreemptReady(s: State)
    requires Inv(s) && s.intr && !s.preemptOff
    ensures var b := s.(intr := false);
            b.current in b.threads && Leaving(Entered(b, RunQueue, Preempted(s.threads[s.current].pc)))
  {
    InvParts(s);
    OwnRefs(s);
    hide *;
    PreemptIs(s);
    BlockFrom(s, s.(intr := false), RunQueue, Preempted(s.threads[s.current].pc));
  }

  /** A thread whose last reference is dropped is in no queue. */
  lemma JoinedFree(s: State, t: Tid)
    requires Inv(s) && s.threads[s.current].pc == JoinTest(t) && t in s.threads && !s.threads[t].alive
    ensures Free(s.queues, t) && t != NULL && t != s.current && s.threads[t].refCount == 1
  {
    CoreParts(s, s.current);
    JoinedForsaken(s, t);
    assert RoleOk(s, t);
    NotBuried(s, s.current, t);
    forall id ensures t !in QOf(s.queues, id) {
      assert Q(s, id) == QOf(s.queues, id);
    }
  }

  /** A new thread's page is in no queue and no record. */
  lemma SpawnFree(s: State, detached: bool, usermode: bool)
    requires Inv(s) && Enabled(s, DoSpawn(detached, usermode))
    ensures PagesNeeded(usermode) < |s.freePages| && s.intr
    ensures var t := s.freePages[0]; Free(s.queues, t) && t != NULL && t !in s.threads && QOf(s.queues, JoinQueue(t)) == []
  {
    InvParts(s);
    CoreParts(s, s.current);
    var t := s.freePages[0];
    FreshPage(s, t);
    FreshPlace(s, s.current, t);
    forall id ensures t !in QOf(s.queues, id) {
      assert Q(s, id) == QOf(s.queues, id);
    }
  }

  /** The head of the reaper's chain has a record. */
  lemma DoomedRecorded(s: State)
    requires Inv(s) && Q(s, Doomed) != []
    ensures Q(s, Doomed)[0] in s.threads && Q(s, Doomed)[0] != s.current && Q(s, Doomed)[0] != s.main
  {
    CoreParts(s, s.current);
    HeadDoomable(s);
  }

  lemma IntrIsOn(s: State)
    requires Inv(s) && s.current in s.threads && IntrOn(s.threads[s.current].pc)
    ensures s.intr
  {
    InvParts(s);
  }

  lemma IntrIsOff(s: State)
    requires Inv(s) && s.current in s.threads && !IntrOn(s.threads[s.current].pc)
    ensures !s.intr
  {
    InvParts(s);
  }

  lemma WakeAllFree(s: State, id: QueueId, t: Tid)
    requires Free(s.queues, t) && id != RunQueue
    ensures Free(WakeAll(s, id).queues, t)
  {
    forall j ensures t !in QOf(WakeAll(s, id).queues, j) {
      assert t !in QOf(s.queues, j) && t !in QOf(s.queues, id) && t !in QOf(s.queues, RunQueue);
    }
  }

  /** The exiting thread, its joiners roused, has everything in place for the dispatch. */
  lemma ExitReady(s: State, code: int)
    requires Inv(s) && Enabled(s, DoExit(code))
    ensures s.current in s.threads && s.intr && s.threads[s.current].refCount > 0
    ensures Leaving(Depart(Cli(s), code)) && Exit(s, code) == Schedule(Depart(Cli(s), code))
  {
    InvParts(s);
    assert s.intr && s.threads[s.current].refCount > 0;
    hide *;
    ExitLeaves(s, code);
  }

  /** The result of a step has no failed assertion. */
  lemma StepSound(s: State, a: Action)
    requires Inv(s) && Enabled(s, a)
    ensures !Next(s, a).halted && Inv(Next(s, a)) && s.current in s.threads && s.current != NULL
  {
    NextKeeps(s, a);
    InvParts(s);
    InvParts(Next(s, a));
  }

  lemma WakeSound(s: State, c: nat, all: bool)
    requires Inv(s) && s.intr
    ensures !Wake(s, c, all).halted
  {
    hide Core, FlagsOk, Sleepers, Wake;
    WakeKeeps(s, c, all);
    InvParts(Wake(s, c, all));
  }

  lemma WokenFlags(s: State, id: QueueId)
    ensures WakeAll(s, id).intr == s.intr && WakeOne(s, id).intr == s.intr
  {}

  lemma WakeAllThreads(s: State, id: QueueId)
    ensures WakeAll(s, id).threads == s.threads && WakeAll(s, id).current == s.current && WakeAll(s, id).intr == s.intr
  {}

  lemma DetachFlags(s: State, t: Tid)
    requires t in s.threads
    ensures Detach(s, t).intr == s.intr
  {}

  lemma PreemptIsOff(s: State)
    requires Inv(s) && s.current in s.threads && PreOff(s.threads[s.current].pc)
    ensures s.preemptOff
  {
    InvParts(s);
  }

  lemma FreeStill(queues: map<QueueId, seq<Tid>>, id: QueueId, t: Tid)
    requires Free(queues, t)
    ensures Free(queues[id := []], t)
  {
    var cleared := queues[id := []];
    forall j ensures t !in QOf(cleared, j) {
      assert t !in QOf(queues, j);
    }
  }

  /** What creating a thread writes. */
  lemma CreateIs(s: State, detached: bool, usermode: bool)
    requires s.current in s.threads && PagesNeeded(usermode) <= |s.freePages|
    ensures var t := s.freePages[0]; var th := s.threads[s.current];
            var record := NewThread(s.freePages[1], if usermode then Some(s.freePages[2]) else None, detached);
            Create(s, detached, usermode) ==
              s.(freePages := s.freePages[PagesNeeded(usermode)..],
                 threads := (if record.ownerRef then s.threads[s.current := th.(children := th.children + {t})] else s.threads)[t := record],
                 queues := s.queues[JoinQueue(t) := []])
  {}

  lemma CreateRest(s: State, detached: bool, usermode: bool)
    requires s.current in s.threads && PagesNeeded(usermode) <= |s.freePages|
    ensures var n := Create(s, detached, usermode);
            && n.intr == s.intr && n.current == s.current && n.halted == s.halted && n.queues == s.queues[JoinQueue(s.freePages[0]) := []]
            && s.freePages[0] in n.threads && n.threads[s.freePages[0]].pc == Start
  {}

  /** The interrupt flag at the program point the current thread is at. */
  lemma StepFlags(s: State)
    requires Inv(s)
    ensures s.current in s.threads && s.threads[s.current].pc != Dead && (s.intr <==> IntrOn(s.threads[s.current].pc))
  {
    InvParts(s);
  }

  /** At boot the first free pages are in no queue. */
  lemma FirstSpawns(main: Tid, stack: nat, free: seq<nat>)
    requires Bootable(main, free)
    ensures var b := Bare(main, stack, free);
            && b.intr && b.freePages[0] != NULL && Free(b.queues, b.freePages[0]) && QOf(b.queues, JoinQueue(b.freePages[0])) == []
            && b.current in b.threads && PagesNeeded(false) <= |b.freePages|
            && var i := Spawn(b, true, false);
            && i.intr && i.current in i.threads && PagesNeeded(false) <= |i.freePages|
            && i.freePages[0] != NULL && Free(i.queues, i.freePages[0]) && QOf(i.queues, JoinQueue(i.freePages[0])) == []
  {
    BootSpawns(main, stack, free);
    var b := Bare(main, stack, free);
    var i := Spawn(b, true, false);
    BornIs(b, true, false);
    assert i.freePages[0] == free[2] && free[0] != free[2];
    forall id ensures free[2] !in QOf(i.queues, id) {}
  }

  lemma NothingLinked()
    ensures Linked(map[], map[], map[])
  {
    assert forall id :: QOf(map[], id) == [];
  }
}

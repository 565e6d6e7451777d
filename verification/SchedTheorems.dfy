/** What the invariants mean for the users of the scheduler. */
module SchedTheorems {
  import opened SchedModel
  import opened SchedInv
  import opened SchedDispatch
  import opened SchedCalls
  import opened SchedLives
  import opened SchedEffects
  import opened SchedRuns

  // ---------------------------------------------------------------- one place for every thread

  /** Where a thread can be. */
  datatype Place = OnCpu | Queued(id: QueueId, pos: nat) | AwaitingJoin

  predicate IsAt(s: State, t: Tid, p: Place)
    requires t in s.threads
  {
    match p
    case OnCpu => t == s.current
    case Queued(id, pos) => pos < |Q(s, id)| && Q(s, id)[pos] == t
    case AwaitingJoin => s.threads[t].pc == Dead && s.threads[t].refCount == 1
  }

  /** Through the one link field, every thread is in exactly one place, at one position. */
  lemma ExactlyOnePlace(s: State, t: Tid)
    requires Inv(s) && t in s.threads
    ensures exists p :: IsAt(s, t, p)
    ensures forall p, q :: IsAt(s, t, p) && IsAt(s, t, q) ==> p == q
  {
    CoreParts(s, s.current);
    assert RoleOk(s, t) && RoleOk(s, s.current);
    if t == s.current {
      assert IsAt(s, t, OnCpu);
    } else {
      assert Located(s, t);
      if s.threads[t].pc == Dead && s.threads[t].refCount == 1 {
        assert IsAt(s, t, AwaitingJoin);
      } else {
        var id := if t in Q(s, RunQueue) then RunQueue else if t in Q(s, Graveyard) then Graveyard
                  else if t in Q(s, Doomed) then Doomed else Home(s.threads[t].pc);
        var pos :| 0 <= pos < |Q(s, id)| && Q(s, id)[pos] == t;
        assert IsAt(s, t, Queued(id, pos));
      }
    }
    forall p, q | IsAt(s, t, p) && IsAt(s, t, q) ensures p == q {
      PlacesDiffer(s, t, p, q);
    }
  }

  lemma PlacesDiffer(s: State, t: Tid, p: Place, q: Place)
    requires Inv(s) && t in s.threads && IsAt(s, t, p) && IsAt(s, t, q)
    ensures p == q
  {
    CoreParts(s, s.current);
    InvParts(s);
    if p.Queued? {
      assert QueueOk(s, s.current, p.id) && t in Q(s, p.id);
      assert Fits(s.threads[t], p.id);
    }
    if q.Queued? {
      assert QueueOk(s, s.current, q.id) && t in Q(s, q.id);
      assert Fits(s.threads[t], q.id);
    }
    assert p.Queued? && q.Queued? ==> p.id == q.id && p.pos == q.pos;
  }

  /** Queues hold threads only. */
  lemma QueuesHoldThreads(s: State, id: QueueId, t: Tid)
    requires Inv(s) && t in Q(s, id)
    ensures t in s.threads && t != s.current && t != NULL
  {
    CoreParts(s, s.current);
    assert QueueOk(s, s.current, id);
  }

  // ---------------------------------------------------------------- mutexes

  /** At most one thread is between locking and unlocking a mutex, and the mutex names it. */
  lemma MutualExclusion(s: State, m: nat)
    requires Inv(s)
    ensures forall t, u :: t in s.threads && u in s.threads && Inside(s.threads[t], m) && Inside(s.threads[u], m) ==> t == u
    ensures forall t :: t in s.threads && Inside(s.threads[t], m) ==> MutexOf(s, m) == Mutex(true, t)
  {
    CoreParts(s, s.current);
    assert LockOk(s, s.current, m);
  }

  /** `mutexHeld` tells a thread exactly whether it is inside. */
  lemma HeldMeansInside(s: State, m: nat)
    requires Inv(s)
    ensures s.current in s.threads && (MutexHeld(s, m) <==> Inside(s.threads[s.current], m))
  {
    InvParts(s);
    CoreParts(s, s.current);
    assert LockOk(s, s.current, m);
  }

  /** A locked mutex has somebody inside, or is just being taken by the current thread. */
  lemma LockedBySomebody(s: State, m: nat)
    requires Inv(s) && MutexOf(s, m).locked
    ensures s.current in s.threads
    ensures s.threads[s.current].pc == LockOwn(m) || exists t :: t in s.threads && Inside(s.threads[t], m)
  {
    InvParts(s);
    CoreParts(s, s.current);
    assert LockOk(s, s.current, m);
  }

  /** No lost wakeup: while a mutex is free, its waiters are covered by a woken one that is runnable
      and will test the mutex again, or the current thread itself is about to test it or to wake one. */
  lemma NoLostWakeup(s: State, m: nat)
    requires Inv(s) && Q(s, MutexQueue(m)) != [] && !MutexOf(s, m).locked
    ensures s.current in s.threads
    ensures var pc := s.threads[s.current].pc;
            || (exists t :: t in Q(s, RunQueue) && t in s.threads && s.threads[t].pc == LockWoken(m))
            || pc == LockTest(m) || pc == LockWoken(m) || pc == UnlockOwn(m) || pc == UnlockWake(m)
  {
    InvParts(s);
    CoreParts(s, s.current);
    assert WakeOk(s, s.current, m);
    if WokenIn(s, m) {
      var t :| t in Q(s, RunQueue) && At(s, t, LockWoken(m));
    }
  }

  lemma DepartLeaves(s: State, code: int)
    requires s.current in s.threads
    ensures var e := Depart(s, code); var t := s.current;
            && e.mutexes == s.mutexes && t in e.threads && e.current == t
            && e.threads[t].pc == Dead && e.threads[t].held == s.threads[t].held && e.threads[t].exitCode == code
  {
    hide WakeAll, Detach;
    var t := s.current;
    var d := SetThread(s, t, s.threads[t].(exitCode := code, alive := false, pc := Dead, children := {}));
    WakingLeaves(d, JoinQueue(t));
    DetachLeaves(WakeAll(d, JoinQueue(t)), t);
  }

  lemma WakingLeaves(s: State, id: QueueId)
    ensures var w := WakeAll(s, id); w.threads == s.threads && w.mutexes == s.mutexes && w.current == s.current
  {
    hide Appendable;
  }

  lemma DetachLeaves(s: State, t: Tid)
    requires t in s.threads
    ensures var e := Detach(s, t);
            && e.mutexes == s.mutexes && e.current == s.current && t in e.threads
            && e.threads[t].pc == s.threads[t].pc && e.threads[t].held == s.threads[t].held && e.threads[t].exitCode == s.threads[t].exitCode
  {
    hide WakeAll, Q;
    var n := SetThread(Check(Check(s, !s.intr), s.threads[t].refCount > 0), t, s.threads[t].(refCount := s.threads[t].refCount - 1));
    WakingLeaves(Enqueue(n, Graveyard, t), ReaperWait);
  }

  lemma ScheduleLeaves(e: State, t: Tid)
    requires e.current in e.threads && t in e.threads
    ensures var n := Schedule(e);
            && n.mutexes == e.mutexes && t in n.threads && n.threads[t].pc == e.threads[t].pc && n.threads[t].held == e.threads[t].held
            && n.threads[t].exitCode == e.threads[t].exitCode
  {
    hide Append, Due, NotDue, Q;
    var c := Check(Check(e, !e.intr), !e.preemptOff);
    var w := WakeSleepers(c);
    WakingSpares(c, t);
    hide WakeSleepers;
    if Q(w, RunQueue) != [] { assert Schedule(e) == SwitchTo(SetQ(w, RunQueue, Q(w, RunQueue)[1..]), Q(w, RunQueue)[0]); }
  }

  lemma WakingSpares(e: State, t: Tid)
    requires t in e.threads
    ensures var w := WakeSleepers(e);
            && w.mutexes == e.mutexes && w.current == e.current && w.threads.Keys == e.threads.Keys
            && w.threads[t].pc == e.threads[t].pc && w.threads[t].held == e.threads[t].held && w.threads[t].exitCode == e.threads[t].exitCode
  {
    hide Appendable, Due, NotDue, Q;
  }

  /** A thread that exits inside a mutex leaves it locked and owned by the dead. */
  lemma ExitInside(s: State, code: int, m: nat)
    requires Inv(s) && s.current in s.threads && m in s.threads[s.current].held
    ensures var n := Exit(s, code);
            && MutexOf(n, m) == Mutex(true, s.current)
            && s.current in n.threads && n.threads[s.current].pc == Dead && n.threads[s.current].held == s.threads[s.current].held
  {
    MutualExclusion(s, m);
    var c := if s.intr then Cli(s) else s;
    assert c.mutexes == s.mutexes && c.threads == s.threads && c.current == s.current;
    hide Depart, Schedule, Inv;
    DepartLeaves(c, code);
    ScheduleLeaves(Depart(c, code), s.current);
  }

  /** An exit keeps the invariant exactly if the thread is inside no mutex. */
  lemma ExitExact(s: State, code: int)
    requires Inv(s) && s.current in s.threads && s.threads[s.current].pc == Running && s.current != s.idle && s.current != s.main
    ensures Inv(Exit(s, code)) <==> s.threads[s.current].held == {}
  {
    if s.threads[s.current].held == {} {
      ExitKeeps(s, code);
    } else {
      var m :| m in s.threads[s.current].held;
      hide Exit, Core, FlagsOk, Sleepers;
      ExitInside(s, code, m);
      var n := Exit(s, code);
      if Inv(n) {
        hide Inv;
        InvParts(n);
        RoleOkAt(n, n.current, s.current);
      }
    }
  }

  // ---------------------------------------------------------------- the reaper

  /** The reaper never waits while a thread lies in the graveyard. */
  lemma ReaperAwake(s: State)
    requires Inv(s) && Q(s, Graveyard) != []
    ensures s.reaper !in Q(s, ReaperWait)
    ensures s.current == s.reaper || s.reaper in Q(s, RunQueue)
  {
    hide Q, Interruptible, IdlePc, Core, FlagsOk, Sleepers;
    InvParts(s);
    ReaperIdle(s);
    if s.current != s.reaper {
      LocatedAt(s, s.reaper);
      RoleOkAt(s, s.current, s.reaper);
    }
  }

  lemma ReaperIdle(s: State)
    requires Core(s, s.current)
    ensures s.reaper in s.threads && (Q(s, Graveyard) != [] ==> s.reaper !in Q(s, ReaperWait))
  {
    hide Q;
  }

  lemma LocatedAt(s: State, t: Tid)
    requires Core(s, s.current) && t in s.threads && t != s.current
    ensures Located(s, t)
  {}

  // ---------------------------------------------------------------- life and death, step by step

  /** A thread was created on the first free pages. */
  ghost predicate Spawned(s: State, n: State) {
    && s.current in s.threads && s.freePages != [] && s.freePages[0] !in s.threads
    && (exists detached, usermode :: PagesNeeded(usermode) <= |s.freePages| && n == Born(s, detached, usermode))
    && n.threads.Keys == s.threads.Keys + {s.freePages[0]}
    && Q(n, Graveyard) == Q(s, Graveyard) && Q(n, Doomed) == Q(s, Doomed)
  }

  /** Nothing but the lists of the dead changed. */
  ghost predicate NobodyLost(s: State, n: State) {
    n.threads.Keys == s.threads.Keys && n.freePages == s.freePages
  }

  /** The current thread exited; if nobody may join it, it is in the graveyard now. */
  ghost predicate Exited(s: State, n: State) {
    && NobodyLost(s, n) && Q(n, Doomed) == Q(s, Doomed) && s.current in s.threads && s.threads[s.current].pc != Dead
    && Q(n, Graveyard) == Q(s, Graveyard) + (if s.threads[s.current].refCount == 1 then [s.current] else [])
  }

  /** The dead thread `t` was joined and is in the graveyard now. */
  ghost predicate JoinEnded(s: State, n: State, t: Tid) {
    && NobodyLost(s, n) && Q(n, Doomed) == Q(s, Doomed) && Q(n, Graveyard) == Q(s, Graveyard) + [t]
    && t in s.threads && s.threads[t].pc == Dead && s.threads[t].refCount == 1
  }

  /** The reaper took the graveyard over as its private chain. */
  ghost predicate Taken(s: State, n: State) {
    && NobodyLost(s, n) && Q(s, Doomed) == [] && Q(n, Graveyard) == [] && Q(n, Doomed) == Q(s, Graveyard)
  }

  /** The reaper destroyed the head of its chain. */
  ghost predicate HeadDestroyed(s: State, n: State) {
    && Q(s, Doomed) != [] && Q(s, Doomed)[0] in s.threads
    && n.threads.Keys == s.threads.Keys - {Q(s, Doomed)[0]} && n.freePages == s.freePages + PagesOf(s, Q(s, Doomed)[0])
    && Q(n, Graveyard) == Q(s, Graveyard) && Q(n, Doomed) == Q(s, Doomed)[1..]
  }

  /** All that a step can do to the dead and to the free pages, and which steps do it. */
  ghost predicate Lives(s: State, a: Action, n: State) {
    && Onward(s, n) && s.current in s.threads
    && var pc := s.threads[s.current].pc;
       || SameLives(s, n)
       || (a.DoSpawn? && Spawned(s, n))
       || (a.DoExit? && Exited(s, n))
       || (a.Step? && pc.JoinTest? && JoinEnded(s, n, pc.t))
       || (a.Step? && pc.ReapTest? && Taken(s, n))
       || (a.Step? && pc.ReapFree? && HeadDestroyed(s, n))
  }

  lemma SpawnLives(s: State, a: Action)
    requires Inv(s) && Enabled(s, a) && a.DoSpawn?
    ensures Lives(s, a, Next(s, a)) && Moves(s, Next(s, a)) && WentOn(s, Next(s, a))
  {
    hide Inv, Q, Moves, WentOn, Onward, SameLives, Born, Spawn;
    InvParts(s);
    hide Core, FlagsOk, Sleepers, RoleOk;
    SpawnEffects(s, a.detached, a.usermode);
    assert PagesNeeded(a.usermode) <= |s.freePages| && Next(s, a) == Born(s, a.detached, a.usermode);
  }

  lemma ExitLives(s: State, a: Action)
    requires Inv(s) && Enabled(s, a) && a.DoExit? && Inv(Next(s, a))
    ensures Lives(s, a, Next(s, a)) && Moves(s, Next(s, a)) && Dispatched(s, Next(s, a))
  {
    hide Inv, Q, Moves, Dispatched, Onward, SameLives, Exit;
    ExitFacts(s, a.code);
    hide RoleOk;
    ExitEffects(s, a.code);
  }

  lemma StepLives(s: State)
    requires Inv(s) && Enabled(s, Step) && Vital(s, Step) && Inv(Next(s, Step))
    ensures Lives(s, Step, Next(s, Step)) && Moves(s, Next(s, Step)) && WentOn(s, Next(s, Step))
  {
    InvParts(s);
    hide Inv, Core, FlagsOk, Sleepers, RoleOk, Q, Moves, WentOn, Onward, SameLives, JoinStep, ReapTestStep, ReapFreeStep, PagesOf;
    var pc := s.threads[s.current].pc;
    if pc.JoinTest? {
      JoinEndEffects(s, pc.t);
    } else if pc.ReapTest? {
      ReapTakeEffects(s);
    } else {
      DestroyEffects(s);
    }
  }

  /** Every step is accounted for. */
  lemma EveryStepLives(s: State, a: Action)
    requires Inv(s) && Enabled(s, a)
    ensures Lives(s, a, Next(s, a)) && (a != Tick ==> Moves(s, Next(s, a)))
  {
    NextKeeps(s, a);
    InvParts(s);
    assert Vital(s, a) ==> a == Step || a.DoExit? || a.DoSpawn?;
    if !Vital(s, a) {
      QuietEffects(s, a);
      LivesOnward(s, Next(s, a));
      hide Inv, Core, FlagsOk, Sleepers, RoleOk, Q, Moves, Onward, SameLives, Next;
    } else {
      hide *;
      if a == Step { StepLives(s); } else if a.DoExit? { ExitLives(s, a); } else { SpawnLives(s, a); }
    }
  }

  /** The steps that dispatch. */
  predicate Switches(s: State, a: Action)
    requires s.current in s.threads && Enabled(s, a)
  {
    Blocking(s, a) || a.DoExit? || (a == Tick && s.threads[s.current].numTicks + 1 > THREAD_QUANTUM && !s.preemptOff)
  }

  /** A step other than a tick dispatches, or the current thread goes on and nobody wakes up. */
  lemma EveryStepGoes(s: State, a: Action)
    requires Inv(s) && Enabled(s, a) && a != Tick
    ensures s.current in s.threads && if Switches(s, a) then Dispatched(s, Next(s, a)) else WentOn(s, Next(s, a))
  {
    NextKeeps(s, a);
    InvParts(s);
    VitalIs(s, a);
    hide *;
    if !Vital(s, a) {
      QuietEffects(s, a);
    } else if a == Step {
      StepLives(s);
    } else if a.DoExit? {
      ExitLives(s, a);
    } else {
      SpawnLives(s, a);
    }
  }

  lemma VitalIs(s: State, a: Action)
    requires s.current in s.threads && Enabled(s, a) && a != Tick
    ensures Vital(s, a) ==> a == Step || a.DoExit? || a.DoSpawn?
    ensures Switches(s, a) <==> if Vital(s, a) then a.DoExit? else Blocking(s, a)
  {
    hide Q, MutexOf;
  }

  /** The chain the reaper detached is cut only by the reaper itself, at its head, and grows only
      when the reaper, its chain used up, takes the whole graveyard. */
  lemma ChainIntact(s: State, a: Action)
    requires Inv(s) && Enabled(s, a)
    ensures var n := Next(s, a);
            || Q(n, Doomed) == Q(s, Doomed)
            || (s.current == s.reaper && Q(s, Doomed) == [] && Q(n, Doomed) == Q(s, Graveyard) && Q(n, Graveyard) == [])
            || (s.current == s.reaper && Q(s, Doomed) != [] && Q(n, Doomed) == Q(s, Doomed)[1..])
  {
    EveryStepLives(s, a);
    InvParts(s);
    assert ReapOnly(s.threads[s.current].pc) ==> s.current == s.reaper;
    hide Inv, Core, FlagsOk, Sleepers, RoleOk, Q, Next, Onward, Moves;
  }

  /** How far a thread has come: alive, dead and awaiting its join, in the graveyard, in the reaper's hands. */
  function Stage(s: State, t: Tid): nat
    requires t in s.threads
  {
    if s.threads[t].pc != Dead then 0
    else if s.threads[t].refCount == 1 then 1
    else if t in Q(s, Graveyard) then 2 else 3
  }

  /** What the invariants say of one dead thread. */
  lemma DeadPlace(s: State, t: Tid)
    requires Inv(s) && t in s.threads
    ensures t in Q(s, Graveyard) || t in Q(s, Doomed) ==> s.threads[t].pc == Dead && s.threads[t].refCount == 0
    ensures t in Q(s, Graveyard) ==> t !in Q(s, Doomed)
    ensures Stage(s, t) == 3 ==> t in Q(s, Doomed)
    ensures s.threads[t].pc == Dead ==> t != s.current && 0 <= s.threads[t].refCount <= 1
  {
    InvParts(s);
    DeadQueues(s, t);
    RoleOkAt(s, s.current, t);
    if t != s.current { LocatedAt(s, t); }
    hide Inv, Core, Q, Sleepers, IdlePc, ReapOnly, Interruptible;
  }

  /** Of the queues the dead lie in. */
  lemma DeadQueues(s: State, t: Tid)
    requires Core(s, s.current) && t in s.threads
    ensures t in Q(s, Graveyard) || t in Q(s, Doomed) ==> s.threads[t].pc == Dead && s.threads[t].refCount == 0
    ensures t in Q(s, Graveyard) ==> t !in Q(s, Doomed)
  {
    hide Core, Q, Fits;
    QueueOkAt(s, s.current, Graveyard);
    QueueOkAt(s, s.current, Doomed);
    if t in Q(s, Graveyard) { OneQueue(s, Graveyard, Doomed, t); }
    DeadFits(s.threads[t]);
  }

  lemma OneQueue(s: State, i: QueueId, j: QueueId, t: Tid)
    requires Core(s, s.current) && t in Q(s, i) && i != j
    ensures t !in Q(s, j)
  {
    hide Q;
  }

  lemma DeadFits(th: Thread)
    ensures Fits(th, Graveyard) || Fits(th, Doomed) ==> th.pc == Dead && th.refCount == 0
  {
    hide OffCpu;
  }

  /** A life only moves on: never back from death, from the graveyard or from the reaper's hands;
      so a thread enters the graveyard once. */
  lemma StageOnward(s: State, a: Action, t: Tid)
    requires Inv(s) && Enabled(s, a) && t in s.threads
    ensures var n := Next(s, a); t in n.threads ==> Stage(s, t) <= Stage(n, t) && PagesOf(n, t) == PagesOf(s, t)
  {
    EveryStepLives(s, a);
    NextKeeps(s, a);
    var n := Next(s, a);
    if t in n.threads {
      DeadPlace(s, t);
      DeadPlace(n, t);
      LivesStage(s, a, n, t);
    }
  }

  lemma LivesStage(s: State, a: Action, n: State, t: Tid)
    requires Lives(s, a, n) && t in s.threads && t in n.threads
    requires t in Q(n, Graveyard) ==> t !in Q(n, Doomed)
    requires Stage(s, t) == 3 ==> t in Q(s, Doomed)
    requires n.threads[t].pc == Dead ==> 0 <= n.threads[t].refCount <= 1
    requires s.threads[t].pc == Dead ==> 0 <= s.threads[t].refCount <= 1
    ensures Stage(s, t) <= Stage(n, t) && PagesOf(n, t) == PagesOf(s, t)
  {
    assert OnwardThread(s.threads[t], n.threads[t]);
    if SameLives(s, n) {
      assert SameLife(s.threads[t], n.threads[t]);
    } else if a.Step? && s.threads[s.current].pc.ReapFree? && HeadDestroyed(s, n) {
      assert Q(s, Doomed) == [Q(s, Doomed)[0]] + Q(n, Doomed);
    }
    hide Q, Onward, SameLives, Spawned, Exited, NobodyLost;
  }

  /** A thread enters the graveyard only by its own exit, if nobody holds a reference to it any
      more, or else, dead already, when its owner's join finds it so. */
  lemma EntersGraveyard(s: State, a: Action, t: Tid)
    requires Inv(s) && Enabled(s, a) && t in s.threads && Stage(s, t) < 2
    ensures var n := Next(s, a);
            t in n.threads && Stage(n, t) >= 2 ==>
              || (a.DoExit? && t == s.current && !s.threads[t].ownerRef)
              || (a == Step && s.threads[s.current].pc == JoinTest(t) && Stage(s, t) == 1 && s.threads[t].ownerRef)
  {
    EveryStepLives(s, a);
    NextKeeps(s, a);
    var n := Next(s, a);
    if t in n.threads && Stage(n, t) >= 2 {
      CoreParts(s, s.current);
      InvParts(s);
      assert RoleOk(s, t);
      DeadPlace(s, t);
      DeadPlace(n, t);
      hide Inv, Core, Places, Roles, Refs, Locks, Wakes, Pages, Reaps, Zeroes, Sleepers, FlagsOk;
      EnteringIs(s, a, n, t);
    }
  }

  lemma EnteringIs(s: State, a: Action, n: State, t: Tid)
    requires Lives(s, a, n) && t in s.threads && t in n.threads && Stage(s, t) < 2 && Stage(n, t) >= 2
    requires RoleOk(s, t)
    requires t in Q(s, Graveyard) || t in Q(s, Doomed) ==> s.threads[t].pc == Dead && s.threads[t].refCount == 0
    requires Stage(n, t) == 3 ==> t in Q(n, Doomed)
    ensures || (a.DoExit? && t == s.current && !s.threads[t].ownerRef)
            || (a == Step && s.threads[s.current].pc == JoinTest(t) && Stage(s, t) == 1 && s.threads[t].ownerRef)
  {
    if SameLives(s, n) {
      SameStage(s, n, t);
    } else {
      assert t in Q(n, Graveyard) || t in Q(n, Doomed);
      hide Q, Onward, Spawned, NobodyLost;
    }
  }

  lemma SameStage(s: State, n: State, t: Tid)
    requires SameLives(s, n) && t in s.threads
    ensures t in n.threads && Stage(n, t) == Stage(s, t)
  {
    assert SameLife(s.threads[t], n.threads[t]);
  }

  /** A thread disappears only from the head of the reaper's chain, and its pages are then freed. */
  lemma FreedByReaper(s: State, a: Action, t: Tid)
    requires Inv(s) && Enabled(s, a) && t in s.threads && t !in Next(s, a).threads
    ensures s.current == s.reaper && Q(s, Doomed) != [] && Q(s, Doomed)[0] == t && Stage(s, t) == 3
    ensures Next(s, a).freePages == s.freePages + PagesOf(s, t)
  {
    EveryStepLives(s, a);
    InvParts(s);
    DeadPlace(s, t);
    hide Inv, Core, FlagsOk, Sleepers, Onward, Next;
    assert Q(s, Doomed) != [] ==> Q(s, Doomed)[0] in Q(s, Doomed);
  }

  // ---------------------------------------------------------------- whole lives

  /** 0: there is no such thread; 1: it lives or awaits its join; 2: it is buried. */
  function Phase(s: State, t: Tid): nat {
    if t !in s.threads then 0 else if Stage(s, t) < 2 then 1 else 2
  }

  /** A life goes through its phases in turn: created, buried, freed. */
  lemma PhaseStep(s: State, a: Action, t: Tid)
    requires Inv(s) && Enabled(s, a)
    ensures var p, q := Phase(s, t), Phase(Next(s, a), t); p == q || (p == 0 && q == 1) || (p == 1 && q == 2) || (p == 2 && q == 0)
  {
    hide Inv, Next, Enabled, Stage, Core, FlagsOk, Sleepers, RoleOk;
    InvParts(s);
    if t in s.threads {
      if t in Next(s, a).threads { StageOnward(s, a, t); } else { FreedByReaper(s, a, t); }
    } else if t in Next(s, a).threads {
      NewAlive(s, a, t);
    }
  }

  /** Whoever is new is alive. */
  lemma NewAlive(s: State, a: Action, t: Tid)
    requires Inv(s) && Enabled(s, a) && t !in s.threads && t in Next(s, a).threads
    ensures Stage(Next(s, a), t) == 0
  {
    InvParts(s);
    hide *;
    EveryStepLives(s, a);
    NewAliveFrom(s, a, Next(s, a), t);
  }

  lemma NewAliveFrom(s: State, a: Action, n: State, t: Tid)
    requires Lives(s, a, n) && t !in s.threads && t in n.threads
    ensures Stage(n, t) == 0
  {
    assert Spawned(s, n) by { hide Onward, Q, Born, PagesOf; }
    hide Lives, Onward, Q;
  }

  /** How often along the run thread `t` goes from phase `p` to phase `q`. */
  ghost function Changes(s: State, acts: seq<Action>, t: Tid, p: nat, q: nat): nat
    requires Runs(s, acts)
    decreases |acts|
  {
    if acts == [] then 0
    else (if Phase(s, t) == p && Phase(Next(s, acts[0]), t) == q then 1 else 0) + Changes(Next(s, acts[0]), acts[1..], t, p, q)
  }

  function One(b: bool): nat { if b then 1 else 0 }

  /** Over any run, creations, burials and frees of the record at `t` alternate: their numbers differ
      only by where the run begins and ends. */
  lemma {:induction false} LivesBalance(s: State, acts: seq<Action>, t: Tid)
    requires Inv(s) && Runs(s, acts)
    ensures var n := After(s, acts);
            && Changes(s, acts, t, 0, 1) + One(Phase(s, t) == 1) == Changes(s, acts, t, 1, 2) + One(Phase(n, t) == 1)
            && Changes(s, acts, t, 1, 2) + One(Phase(s, t) == 2) == Changes(s, acts, t, 2, 0) + One(Phase(n, t) == 2)
    decreases |acts|
  {
    hide Inv, Next, Enabled, Phase;
    if acts != [] {
      NextKeeps(s, acts[0]);
      PhaseStep(s, acts[0], t);
      LivesBalance(Next(s, acts[0]), acts[1..], t);
    }
  }

  /** So while no new thread is created on its page, a thread is buried at most once and freed at most once. */
  lemma BuriedOnce(s: State, acts: seq<Action>, t: Tid)
    requires Inv(s) && Runs(s, acts) && Changes(s, acts, t, 0, 1) == 0
    ensures Changes(s, acts, t, 1, 2) <= 1 && Changes(s, acts, t, 2, 0) <= 1
  {
    hide *;
    LivesBalance(s, acts, t);
    OneIs(Phase(s, t) == 1);
    OneIs(Phase(s, t) == 2);
  }

  lemma OneIs(b: bool)
    ensures One(b) == if b then 1 else 0
  {}

  // ---------------------------------------------------------------- exit codes

  lemma ExitNotes(s: State, code: int)
    requires s.current in s.threads
    ensures var n := Exit(s, code); s.current in n.threads && n.threads[s.current].pc == Dead && n.threads[s.current].exitCode == code
  {
    var c := if s.intr then Cli(s) else s;
    assert c.threads == s.threads && c.current == s.current;
    hide Depart, Schedule;
    DepartLeaves(c, code);
    ScheduleLeaves(Depart(c, code), s.current);
  }

  /** The dead keep their exit code. */
  lemma CodeStep(s: State, a: Action, t: Tid)
    requires Inv(s) && Enabled(s, a) && t in s.threads && s.threads[t].pc == Dead && t in Next(s, a).threads
    ensures Next(s, a).threads[t].pc == Dead && Next(s, a).threads[t].exitCode == s.threads[t].exitCode
  {
    hide Inv, Next, Enabled, Moves;
    EveryStepLives(s, a);
    assert OnwardThread(s.threads[t], Next(s, a).threads[t]);
  }

  lemma {:induction false} CodeKept(s: State, acts: seq<Action>, t: Tid)
    requires Inv(s) && Runs(s, acts) && t in s.threads && s.threads[t].pc == Dead
    requires Changes(s, acts, t, 0, 1) == 0 && t in After(s, acts).threads
    ensures After(s, acts).threads[t].pc == Dead && After(s, acts).threads[t].exitCode == s.threads[t].exitCode
    decreases |acts|
  {
    hide Inv, Next, Enabled, Stage;
    if acts != [] {
      var n := Next(s, acts[0]);
      NextKeeps(s, acts[0]);
      if t in n.threads {
        CodeStep(s, acts[0], t);
        CodeKept(n, acts[1..], t);
      } else {
        LivesBalance(n, acts[1..], t);
      }
    }
  }

  /** The code given to `exit` is what a join of that thread finds, over any run in between, as long as
      no new thread is created on its page. */
  lemma JoinFindsCode(s: State, code: int, acts: seq<Action>)
    requires Inv(s) && Enabled(s, DoExit(code)) && Runs(Exit(s, code), acts) && Changes(Exit(s, code), acts, s.current, 0, 1) == 0
    requires var n := After(Exit(s, code), acts); n.current in n.threads && n.threads[n.current].pc == JoinTest(s.current)
    ensures var n := After(Exit(s, code), acts);
            s.current in n.threads && !n.threads[s.current].alive && n.threads[s.current].exitCode == code
  {
    hide *;
    ExitFacts(s, code);
    ExitNotes(s, code);
    ExitKeeps(s, code);
    var e := Exit(s, code);
    RunsKeep(e, acts);
    var n := After(e, acts);
    OwnJoin(n);
    CodeKept(e, acts, s.current);
    DeadNotAlive(n, s.current);
  }

  lemma DeadNotAlive(s: State, t: Tid)
    requires Inv(s) && t in s.threads && s.threads[t].pc == Dead
    ensures !s.threads[t].alive
  {
    RoleOkAt(s, s.current, t);
  }

  /** Whom the current thread joins has a record. */
  lemma OwnJoin(s: State)
    requires Inv(s) && s.current in s.threads && s.threads[s.current].pc.JoinTest?
    ensures s.threads[s.current].pc.t in s.threads
  {
    CoreParts(s, s.current);
    var th := s.threads[s.current];
    assert th.pc.t in RefsOf(th);
    assert RefOk(s, s.current, th.pc.t);
  }

  // ---------------------------------------------------------------- pages

  /** Page `p` is free or in some thread's hands. */
  ghost predicate Managed(s: State, p: nat) {
    p in s.freePages || exists t :: t in s.threads && p in PagesOf(s, t)
  }

  /** A page is free once, or belongs to exactly one thread. */
  lemma OneOwner(s: State, p: nat)
    requires Inv(s) && Managed(s, p)
    ensures p in s.freePages ==> forall t :: t in s.threads ==> p !in PagesOf(s, t)
    ensures forall i, j :: 0 <= i < |s.freePages| && 0 <= j < |s.freePages| && s.freePages[i] == p && s.freePages[j] == p ==> i == j
    ensures forall t, u :: t in s.threads && u in s.threads && p in PagesOf(s, t) && p in PagesOf(s, u) ==> t == u
  {
    CoreParts(s, s.current);
  }

  lemma OnwardPages(s: State, n: State, t: Tid)
    requires Onward(s, n) && t in s.threads && t in n.threads
    ensures PagesOf(n, t) == PagesOf(s, t)
  {
    assert OnwardThread(s.threads[t], n.threads[t]);
  }

  /** No step loses a page or makes one up. */
  lemma PagesConserved(s: State, a: Action, p: nat)
    requires Inv(s) && Enabled(s, a)
    ensures Managed(Next(s, a), p) <==> Managed(s, p)
  {
    CoreParts(s, s.current);
    hide *;
    EveryStepLives(s, a);
    var n := Next(s, a);
    LivesPages(s, a, n);
    if Spawned(s, n) {
      SpawnedPages(s, n, p);
    } else if HeadDestroyed(s, n) {
      DestroyedPages(s, n, p);
    } else {
      SamePagesManaged(s, n, p);
    }
  }

  /** Either the free pages and the threads stay, or a thread was created or destroyed; the others keep their pages. */
  lemma LivesPages(s: State, a: Action, n: State)
    requires Lives(s, a, n)
    ensures (n.freePages == s.freePages && n.threads.Keys == s.threads.Keys) || Spawned(s, n) || HeadDestroyed(s, n)
    ensures forall t :: t in s.threads && t in n.threads ==> PagesOf(n, t) == PagesOf(s, t)
  {
    hide Q, PagesOf, Born, Onward;
    forall t | t in s.threads && t in n.threads ensures PagesOf(n, t) == PagesOf(s, t) {
      OnwardPages(s, n, t);
    }
  }

  lemma SamePagesManaged(s: State, n: State, p: nat)
    requires n.freePages == s.freePages && n.threads.Keys == s.threads.Keys
    requires forall t :: t in s.threads && t in n.threads ==> PagesOf(n, t) == PagesOf(s, t)
    ensures Managed(n, p) <==> Managed(s, p)
  {
    hide PagesOf;
  }

  lemma DestroyedPages(s: State, n: State, p: nat)
    requires HeadDestroyed(s, n)
    requires forall t :: t in s.threads && t in n.threads ==> PagesOf(n, t) == PagesOf(s, t)
    ensures Managed(n, p) <==> Managed(s, p)
  {
    hide PagesOf, Q;
    assert forall t :: t in s.threads <==> t in n.threads || t == Q(s, Doomed)[0];
  }

  lemma SpawnedPages(s: State, n: State, p: nat)
    requires Spawned(s, n) && Pages(s)
    requires forall t :: t in s.threads && t in n.threads ==> PagesOf(n, t) == PagesOf(s, t)
    ensures Managed(n, p) <==> Managed(s, p)
  {
    var detached, usermode :| PagesNeeded(usermode) <= |s.freePages| && n == Born(s, detached, usermode);
    assert n.threads.Keys == s.threads.Keys + {s.freePages[0]};
    hide PagesOf, Pages, Q, Spawned, Born;
    var t := s.freePages[0];
    var k := PagesNeeded(usermode);
    FreshPage(s, t);
    BornFree(s, detached, usermode);
    NewPages(s, detached, usermode, p);
    assert s.freePages == s.freePages[..k] + s.freePages[k..];
    assert forall u :: u in n.threads <==> u in s.threads || u == t;
    hide PagesNeeded;
    if p in s.freePages[..k] { assert t in n.threads && p in PagesOf(n, t); }
  }

  /** A new thread's pages are those it took. */
  lemma NewPages(s: State, detached: bool, usermode: bool, p: nat)
    requires s.current in s.threads && PagesNeeded(usermode) <= |s.freePages| && s.freePages[0] !in s.threads && s.freePages[0] != s.main
    ensures var n := Born(s, detached, usermode);
            s.freePages[0] in n.threads && (p in PagesOf(n, s.freePages[0]) <==> p in s.freePages[..PagesNeeded(usermode)])
  {
    var n, t := Born(s, detached, usermode), s.freePages[0];
    assert PagesOf(n, t) == [s.freePages[1]] + (if usermode then [s.freePages[2]] else []) + [t];
    assert s.freePages[..PagesNeeded(usermode)] == [t, s.freePages[1]] + (if usermode then [s.freePages[2]] else []);
  }

  /** Over any run the managed pages stay the same. */
  lemma {:induction false} RunsConserve(s: State, acts: seq<Action>, p: nat)
    requires Inv(s) && Runs(s, acts)
    ensures Managed(After(s, acts), p) <==> Managed(s, p)
    decreases |acts|
  {
    hide Inv, Next, Enabled, Managed;
    if acts != [] {
      NextKeeps(s, acts[0]);
      PagesConserved(s, acts[0], p);
      RunsConserve(Next(s, acts[0]), acts[1..], p);
    }
  }
}

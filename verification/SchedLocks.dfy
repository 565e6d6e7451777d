/** Locking and unlocking keep the scheduler's invariants: nobody but the owner is inside a mutex,
    and no waiter is forgotten while the mutex is free. */
module SchedLocks {
  import opened SchedModel
  import opened SchedInv
  import opened SchedDispatch
  import opened SchedLocal
  import opened SchedCalls

  /** `n` follows `s` by a step of a mutex call that changes only the caller's record and a mutex. */
  ghost predicate MutexStep(s: State, n: State) {
    && Local(s, n) && n.ticks == s.ticks && n.threads[s.current].numTicks == s.threads[s.current].numTicks
    && RoleOk(n, s.current) && RefsKept(s.threads[s.current], n.threads[s.current])
    && n.threads[s.current].alive && s.current != s.reaper && FlagsOk(n)
  }

  lemma MutexStepKeeps(s: State, n: State)
    requires Inv(s) && MutexStep(s, n) && Locks(n, s.current) && Wakes(n, s.current)
    ensures Inv(n)
  {
    assert Local(s, n) && n.ticks == s.ticks && n.threads[s.current].numTicks == s.threads[s.current].numTicks
      && RoleOk(n, s.current) && RefsKept(s.threads[s.current], n.threads[s.current])
      && n.threads[s.current].alive && s.current != s.reaper && FlagsOk(n) && n.current == s.current;
    hide *;
    GoOnMutex(s, n);
  }

  /** Mutexes other than `m` are as before, and the caller was and is at points that concern only `m`. */
  ghost predicate Concerns(s: State, n: State, m: nat) {
    && Local(s, n) && (forall k :: k != m ==> MutexOf(n, k) == MutexOf(s, k))
    && (forall k :: k != m ==> (k in n.threads[s.current].held <==> k in s.threads[s.current].held))
    && OnlyAbout(s.threads[s.current].pc, m) && OnlyAbout(n.threads[s.current].pc, m)
  }

  predicate OnlyAbout(pc: Pc, m: nat) {
    Plain(pc) || pc == LockTest(m) || pc == LockOwn(m) || pc == LockLeave(m) || pc == LockWoken(m)
    || pc == UnlockClear(m) || pc == UnlockOwn(m) || pc == UnlockWake(m)
  }

  /** Nothing about mutex `k` changed. */
  lemma OtherLocked(s: State, n: State, m: nat, k: nat)
    requires LockOk(s, s.current, k) && Concerns(s, n, m) && k != m
    ensures LockOk(n, s.current, k)
  {
    assert MutexOf(n, k) == MutexOf(s, k);
    forall t | t in n.threads ensures Inside(n.threads[t], k) <==> Inside(s.threads[t], k) {}
  }

  lemma OthersLocked(s: State, n: State, m: nat)
    requires Locks(s, s.current) && Concerns(s, n, m) && LockOk(n, s.current, m)
    ensures Locks(n, s.current)
  {
    hide LockOk, Concerns;
    forall k ensures LockOk(n, s.current, k) {
      assert LockOk(s, s.current, k);
      if k != m { OtherLocked(s, n, m, k); }
    }
  }

  lemma OthersWaited(s: State, n: State, m: nat)
    requires Wakes(s, s.current) && Concerns(s, n, m) && WakeOk(n, s.current, m)
    ensures Wakes(n, s.current)
  {
    forall k ensures WakeOk(n, s.current, k) {
      assert WakeOk(s, s.current, k);
      if k != m {
        assert MutexOf(n, k) == MutexOf(s, k);
        if WokenIn(s, k) {
          var t :| t in Q(s, RunQueue) && At(s, t, LockWoken(k));
          assert t in Q(n, RunQueue) && At(n, t, LockWoken(k));
        }
      }
    }
  }

  lemma ConcernsKeeps(s: State, n: State, m: nat)
    requires Inv(s) && MutexStep(s, n) && Concerns(s, n, m) && LockOk(n, s.current, m) && WakeOk(n, s.current, m)
    ensures Inv(n)
  {
    InvParts(s);
    CoreParts(s, s.current);
    hide *;
    OthersLocked(s, n, m);
    OthersWaited(s, n, m);
    MutexStepKeeps(s, n);
  }

  lemma MutexParts(s: State, m: nat)
    requires Inv(s)
    ensures s.current in s.threads && s.current != NULL && !s.halted && FlagsOk(s) && RoleOk(s, s.current) && NULL !in s.threads
    ensures RefsKept(s.threads[s.current], s.threads[s.current])
    ensures LockOk(s, s.current, m) && WakeOk(s, s.current, m)
  {
    InvParts(s);
    OwnRefs(s);
  }

  /** The lock condition of `m` when the caller's part in it does not change. */
  lemma SameLock(s: State, n: State, m: nat)
    requires Local(s, n) && LockOk(s, s.current, m) && MutexOf(n, m) == MutexOf(s, m)
    requires Inside(n.threads[s.current], m) <==> Inside(s.threads[s.current], m)
    requires s.threads[s.current].pc != LockOwn(m) && s.threads[s.current].pc != UnlockOwn(m)
    requires n.threads[s.current].pc != LockOwn(m) && n.threads[s.current].pc != UnlockOwn(m)
    ensures LockOk(n, s.current, m)
  {
    forall t | t in n.threads ensures Inside(n.threads[t], m) <==> Inside(s.threads[t], m) {}
  }

  // ---------------------------------------------------------------- locking

  lemma LockIs(s: State, m: nat)
    requires s.current in s.threads && s.current != NULL && !s.halted && FlagsOk(s) && RoleOk(s, s.current)
    requires Enabled(s, DoLock(m)) && LockOk(s, s.current, m) && RefsKept(s.threads[s.current], s.threads[s.current])
    ensures var n := Lock(s, m);
            && MutexStep(s, n) && Concerns(s, n, m) && LockOk(n, s.current, m) && WakeOk(n, s.current, m)
  {
    hide LockOk, MutexOf, SetPc;
    NotHeld(s, m);
    LockSelf(s, m);
    hide Lock;
    SameLock(s, Lock(s, m), m);
  }

  lemma NotHeld(s: State, m: nat)
    requires s.current in s.threads && s.current != NULL && LockOk(s, s.current, m)
    requires m !in s.threads[s.current].held && s.threads[s.current].pc == Running
    ensures !MutexHeld(s, m)
  {}

  lemma LockSelf(s: State, m: nat)
    requires s.current in s.threads && !s.halted && FlagsOk(s) && RoleOk(s, s.current) && !MutexHeld(s, m)
    requires Enabled(s, DoLock(m)) && RefsKept(s.threads[s.current], s.threads[s.current])
    ensures var n := Lock(s, m);
            && MutexStep(s, n) && Concerns(s, n, m) && Local(s, n) && MutexOf(n, m) == MutexOf(s, m)
            && n.threads[s.current].pc == LockTest(m) && (Inside(n.threads[s.current], m) <==> Inside(s.threads[s.current], m))
  {
    hide MutexHeld, Q;
  }

  lemma LockKeeps(s: State, m: nat)
    requires Inv(s) && Enabled(s, DoLock(m))
    ensures Inv(Lock(s, m))
  {
    MutexParts(s, m);
    hide *;
    LockIs(s, m);
    ConcernsKeeps(s, Lock(s, m), m);
  }

  lemma LockTakeIs(s: State, m: nat)
    requires s.current in s.threads && !s.halted && FlagsOk(s) && RoleOk(s, s.current)
    requires s.threads[s.current].pc == LockTest(m) && !MutexOf(s, m).locked
    requires LockOk(s, s.current, m) && RefsKept(s.threads[s.current], s.threads[s.current])
    ensures var n := LockTestStep(s, m);
            && MutexStep(s, n) && Concerns(s, n, m) && LockOk(n, s.current, m) && WakeOk(n, s.current, m)
  {
    var n := LockTestStep(s, m);
    assert forall t :: t in s.threads ==> !Inside(s.threads[t], m);
    assert Local(s, n);
    assert MutexOf(n, m) == Mutex(true, NULL);
  }

  lemma LockTakeKeeps(s: State, m: nat)
    requires Inv(s) && s.threads[s.current].pc == LockTest(m) && !MutexOf(s, m).locked
    ensures Inv(LockTestStep(s, m))
  {
    MutexParts(s, m);
    hide *;
    LockTakeIs(s, m);
    ConcernsKeeps(s, LockTestStep(s, m), m);
  }

  lemma LockOwnIs(s: State, m: nat)
    requires NULL !in s.threads
    requires s.current in s.threads && s.current != NULL && !s.halted && FlagsOk(s) && RoleOk(s, s.current)
    requires s.threads[s.current].pc == LockOwn(m)
    requires LockOk(s, s.current, m) && RefsKept(s.threads[s.current], s.threads[s.current])
    ensures var n := LockOwnStep(s, m);
            && MutexStep(s, n) && Concerns(s, n, m) && LockOk(n, s.current, m) && WakeOk(n, s.current, m)
  {
    var n := LockOwnStep(s, m);
    assert forall t :: t in s.threads && Inside(s.threads[t], m) ==> t == NULL;
    assert Local(s, n);
    assert MutexOf(n, m) == Mutex(true, s.current);
  }

  lemma LockOwnKeeps(s: State, m: nat)
    requires Inv(s) && s.threads[s.current].pc == LockOwn(m)
    ensures Inv(LockOwnStep(s, m))
  {
    MutexParts(s, m);
    hide *;
    LockOwnIs(s, m);
    ConcernsKeeps(s, LockOwnStep(s, m), m);
  }

  lemma LockLeaveIs(s: State, m: nat)
    requires s.current in s.threads && !s.halted && FlagsOk(s) && RoleOk(s, s.current)
    requires s.threads[s.current].pc == LockLeave(m)
    requires LockOk(s, s.current, m) && RefsKept(s.threads[s.current], s.threads[s.current])
    ensures var n := LockLeaveStep(s, m);
            && MutexStep(s, n) && Concerns(s, n, m) && LockOk(n, s.current, m) && WakeOk(n, s.current, m)
  {
    var n := LockLeaveStep(s, m);
    assert Local(s, n);
    SameLock(s, n, m);
    assert Inside(s.threads[s.current], m);
  }

  lemma LockLeaveKeeps(s: State, m: nat)
    requires Inv(s) && s.threads[s.current].pc == LockLeave(m)
    ensures Inv(LockLeaveStep(s, m))
  {
    MutexParts(s, m);
    hide *;
    LockLeaveIs(s, m);
    ConcernsKeeps(s, LockLeaveStep(s, m), m);
  }

  lemma LockWokenIs(s: State, m: nat)
    requires s.current in s.threads && !s.halted && FlagsOk(s) && RoleOk(s, s.current)
    requires s.threads[s.current].pc == LockWoken(m)
    requires LockOk(s, s.current, m) && RefsKept(s.threads[s.current], s.threads[s.current])
    ensures var n := LockWokenStep(s, m);
            && MutexStep(s, n) && Concerns(s, n, m) && LockOk(n, s.current, m) && WakeOk(n, s.current, m)
  {
    hide Q, LockOk, SetPc, Sti;
    LockWokenSelf(s, m);
    var n := LockWokenStep(s, m);
    hide LockWokenStep;
    SameLock(s, n, m);
  }

  lemma LockWokenSelf(s: State, m: nat)
    requires s.current in s.threads && !s.halted && FlagsOk(s) && RoleOk(s, s.current)
    requires s.threads[s.current].pc == LockWoken(m) && RefsKept(s.threads[s.current], s.threads[s.current])
    ensures var n := LockWokenStep(s, m);
            && MutexStep(s, n) && Concerns(s, n, m) && Local(s, n) && MutexOf(n, m) == MutexOf(s, m)
            && n.threads[s.current].pc == LockTest(m) && (Inside(n.threads[s.current], m) <==> Inside(s.threads[s.current], m))
  {
    hide Q;
  }

  lemma LockWokenKeeps(s: State, m: nat)
    requires Inv(s) && s.threads[s.current].pc == LockWoken(m)
    ensures Inv(LockWokenStep(s, m))
  {
    MutexParts(s, m);
    hide *;
    LockWokenIs(s, m);
    ConcernsKeeps(s, LockWokenStep(s, m), m);
  }

  /** The caller of `mutexLock` on its way into the wait queue: interrupts off, preemption on. */
  function LockGiveUp(s: State): State {
    Cli(s).(preemptOff := false)
  }

  lemma LockWaitIs(s: State, m: nat)
    requires s.current in s.threads && !s.halted && FlagsOk(s) && RoleOk(s, s.current)
    requires s.threads[s.current].pc == LockTest(m) && MutexOf(s, m).locked
    requires LockOk(s, s.current, m) && RefsKept(s.threads[s.current], s.threads[s.current])
    ensures var b := LockGiveUp(s);
            && LockTestStep(s, m) == Block(b, MutexQueue(m), LockWoken(m))
            && b.current in b.threads && !b.intr && !b.preemptOff && b.current == s.current
            && var n := SetPc(b, b.current, LockWoken(m));
            && n.current == s.current && Local(s, n) && Concerns(s, n, m) && LockOk(n, s.current, m) && WakeOk(n, s.current, m)
            && MayEnter(n, MutexQueue(m), s.current)
            && RoleOk(n, s.current) && RefsKept(s.threads[s.current], n.threads[s.current])
            && n.threads[s.current].alive && s.current != s.reaper
  {
    hide Block, LockOk;
    LockWaitSelf(s, m);
    hide LockGiveUp, LockTestStep, SetPc, MutexOf, Q;
    SameLock(s, SetPc(LockGiveUp(s), s.current, LockWoken(m)), m);
  }

  lemma LockWaitSelf(s: State, m: nat)
    requires s.current in s.threads && !s.halted && FlagsOk(s) && RoleOk(s, s.current)
    requires s.threads[s.current].pc == LockTest(m) && MutexOf(s, m).locked && RefsKept(s.threads[s.current], s.threads[s.current])
    ensures var b := LockGiveUp(s);
            && LockTestStep(s, m) == Block(b, MutexQueue(m), LockWoken(m))
            && b.current in b.threads && !b.intr && !b.preemptOff && b.current == s.current
            && var n := SetPc(b, b.current, LockWoken(m));
            && n.current == s.current && Local(s, n) && Concerns(s, n, m) && MutexOf(n, m) == MutexOf(s, m)
            && WakeOk(n, s.current, m) && MayEnter(n, MutexQueue(m), s.current)
            && RoleOk(n, s.current) && RefsKept(s.threads[s.current], n.threads[s.current])
            && n.threads[s.current].alive && s.current != s.reaper && n.threads[s.current].pc == LockWoken(m)
            && (Inside(n.threads[s.current], m) <==> Inside(s.threads[s.current], m))
  {
    hide Block;
  }

  lemma LockWaitKeeps(s: State, m: nat)
    requires Inv(s) && s.threads[s.current].pc == LockTest(m) && MutexOf(s, m).locked
    ensures Inv(LockTestStep(s, m))
  {
    InvParts(s);
    CoreParts(s, s.current);
    MutexParts(s, m);
    hide *;
    LockWaitIs(s, m);
    var n := SetPc(LockGiveUp(s), s.current, LockWoken(m));
    OthersLocked(s, n, m);
    OthersWaited(s, n, m);
    LocalKeeps(s, n);
    BlockKeeps(LockGiveUp(s), MutexQueue(m), LockWoken(m));
  }

  // ---------------------------------------------------------------- unlocking

  lemma UnlockIs(s: State, m: nat)
    requires s.current in s.threads && !s.halted && FlagsOk(s) && RoleOk(s, s.current)
    requires Enabled(s, DoUnlock(m)) && LockOk(s, s.current, m) && RefsKept(s.threads[s.current], s.threads[s.current])
    ensures var n := Unlock(s, m);
            && MutexStep(s, n) && Concerns(s, n, m) && LockOk(n, s.current, m) && WakeOk(n, s.current, m)
  {
    var n := Unlock(s, m);
    assert Inside(s.threads[s.current], m);
    assert MutexHeld(s, m);
    assert Local(s, n);
    SameLock(s, n, m);
  }

  lemma UnlockKeeps(s: State, m: nat)
    requires Inv(s) && Enabled(s, DoUnlock(m))
    ensures Inv(Unlock(s, m))
  {
    MutexParts(s, m);
    hide *;
    UnlockIs(s, m);
    ConcernsKeeps(s, Unlock(s, m), m);
  }

  lemma UnlockClearIs(s: State, m: nat)
    requires s.current in s.threads && !s.halted && FlagsOk(s) && RoleOk(s, s.current)
    requires s.threads[s.current].pc == UnlockClear(m)
    requires LockOk(s, s.current, m) && RefsKept(s.threads[s.current], s.threads[s.current])
    ensures var n := UnlockClearStep(s, m);
            && MutexStep(s, n) && Concerns(s, n, m) && LockOk(n, s.current, m) && WakeOk(n, s.current, m)
  {
    var n := UnlockClearStep(s, m);
    assert Inside(s.threads[s.current], m);
    assert Local(s, n);
    assert forall t :: t in s.threads && Inside(s.threads[t], m) ==> t == s.current;
    assert MutexOf(n, m) == Mutex(false, s.current);
  }

  lemma UnlockClearKeeps(s: State, m: nat)
    requires Inv(s) && s.threads[s.current].pc == UnlockClear(m)
    ensures Inv(UnlockClearStep(s, m))
  {
    MutexParts(s, m);
    hide *;
    UnlockClearIs(s, m);
    ConcernsKeeps(s, UnlockClearStep(s, m), m);
  }

  lemma UnlockOwnIs(s: State, m: nat)
    requires s.current in s.threads && s.current != NULL && !s.halted && FlagsOk(s) && RoleOk(s, s.current)
    requires s.threads[s.current].pc == UnlockOwn(m)
    requires LockOk(s, s.current, m) && RefsKept(s.threads[s.current], s.threads[s.current])
    ensures var n := UnlockOwnStep(s, m);
            && MutexStep(s, n) && Concerns(s, n, m) && LockOk(n, s.current, m) && WakeOk(n, s.current, m)
  {
    var n := UnlockOwnStep(s, m);
    assert Local(s, n);
    assert !MutexOf(s, m).locked;
    assert MutexOf(n, m) == Mutex(false, NULL);
  }

  lemma UnlockOwnKeeps(s: State, m: nat)
    requires Inv(s) && s.threads[s.current].pc == UnlockOwn(m)
    ensures Inv(UnlockOwnStep(s, m))
  {
    MutexParts(s, m);
    hide *;
    UnlockOwnIs(s, m);
    ConcernsKeeps(s, UnlockOwnStep(s, m), m);
  }

  /** The sleep queue and its members are as before. */
  lemma SleepersApart(s: State, n: State)
    requires Core(s, s.current) && Sleepers(s)
    requires n.current == s.current && n.current in n.threads && n.ticks == s.ticks && Q(n, SleepQueue) == Q(s, SleepQueue)
    requires forall t :: t in s.threads && t != s.current ==> t in n.threads && n.threads[t].sleepUntil == s.threads[t].sleepUntil
    requires n.threads[n.current].numTicks == s.threads[s.current].numTicks
    ensures Sleepers(n)
  {
    assert QueueOk(s, s.current, SleepQueue);
  }

  /** `w` is `s` with interrupts off and the members `moved` of queue `from` in the run queue. */
  ghost predicate Woken(s: State, w: State, from: QueueId, kept: seq<Tid>, moved: seq<Tid>) {
    && w.current == s.current && !w.intr && w.preemptOff == s.preemptOff && w.halted == s.halted
    && w.ticks == s.ticks && w.threads == s.threads && w.mutexes == s.mutexes
    && w.main == s.main && w.idle == s.idle && w.reaper == s.reaper && w.freePages == s.freePages
    && (forall j :: j != RunQueue && j != from ==> Q(w, j) == Q(s, j))
    && Q(w, RunQueue) == Q(s, RunQueue) + moved && Q(w, from) == kept
  }

  lemma WokenMeans(s: State, w: State, from: QueueId, kept: seq<Tid>, moved: seq<Tid>)
    requires Woken(s, w, from, kept, moved)
    ensures w.current == s.current && !w.intr && w.preemptOff == s.preemptOff && w.threads == s.threads && w.mutexes == s.mutexes
    ensures w.ticks == s.ticks && w.main == s.main && w.idle == s.idle && w.reaper == s.reaper && w.freePages == s.freePages
    ensures Q(w, RunQueue) == Q(s, RunQueue) + moved && Q(w, from) == kept
    ensures from != SleepQueue ==> Q(w, SleepQueue) == Q(s, SleepQueue)
  {}

  lemma WokenIs(s: State, w: State, from: QueueId, kept: seq<Tid>, moved: seq<Tid>)
    requires from != RunQueue && s.intr
    requires w == SetQ(SetQ(Cli(s), from, kept), RunQueue, Q(Cli(s), RunQueue) + moved)
    ensures Woken(s, w, from, kept, moved)
  {
    assert forall j :: Q(Cli(s), j) == Q(s, j);
  }

  lemma CliIs(s: State)
    requires s.intr
    ensures Cli(s) == s.(intr := false, preemptOff := s.preemptOff, ticks := s.ticks) && !Cli(s).intr
    ensures forall id :: Q(Cli(s), id) == Q(s, id)
  {}

  lemma FirstOf(q: seq<Tid>)
    ensures q != [] ==> q[..1] == [q[0]]
  {}

  /** Waiters of `from` are made runnable with interrupts off. */
  lemma CliWakesOne(s: State, from: QueueId)
    requires Inv(s) && s.intr && from != RunQueue && from != Graveyard && from != Doomed
    ensures var w := WakeOne(Cli(s), from);
            && Core(w, s.current)
            && (Q(s, from) == [] ==> w == Cli(s))
            && (Q(s, from) != [] ==> Woken(s, w, from, Q(s, from)[1..], [Q(s, from)[0]]))
  {
    InvParts(s);
    hide *;
    CliIs(s);
    FlagsApart(s, s.current, false, s.preemptOff, s.ticks);
    WakeOneKeeps(Cli(s), s.current, from);
    FirstOf(Q(s, from));
    if Q(s, from) != [] {
      WokenIs(s, WakeOne(Cli(s), from), from, Q(s, from)[1..], [Q(s, from)[0]]);
    }
  }

  lemma CliWakesAll(s: State, from: QueueId)
    requires Inv(s) && s.intr && from != RunQueue && from != Graveyard && from != Doomed
    ensures var w := WakeAll(Cli(s), from); Core(w, s.current) && Woken(s, w, from, [], Q(s, from))
  {
    InvParts(s);
    hide *;
    CliIs(s);
    FlagsApart(s, s.current, false, s.preemptOff, s.ticks);
    WakeAllKeeps(Cli(s), s.current, from);
    WokenIs(s, WakeAll(Cli(s), from), from, [], Q(s, from));
  }

  lemma StiIs(w: State)
    requires !w.intr
    ensures Sti(w) == w.(intr := true, preemptOff := w.preemptOff, ticks := w.ticks)
  {}

  lemma WakeFlags(s: State, n: State)
    requires FlagsOk(s) && s.intr && n.current == s.current && n.threads == s.threads && n.preemptOff == s.preemptOff && n.intr
    ensures FlagsOk(n)
  {}

  lemma SameQueue(w: State, n: State, id: QueueId)
    requires n.queues == w.queues
    ensures Q(n, id) == Q(w, id)
  {}

  lemma WakeIs(s: State, c: nat, all: bool)
    ensures Wake(s, c, all) == Sti(if all then WakeAll(Cli(s), WaitQueue(c)) else WakeOne(Cli(s), WaitQueue(c)))
    ensures Cli(s).preemptOff == s.preemptOff && Cli(s).ticks == s.ticks && Cli(s).threads == s.threads && Cli(s).current == s.current
    ensures Q(Cli(s), SleepQueue) == Q(s, SleepQueue) && !Cli(s).intr
  {}

  /** Waking one or all waiters of a wait queue. */
  lemma WakeKeeps(s: State, c: nat, all: bool)
    requires Inv(s) && s.intr
    ensures Inv(Wake(s, c, all))
  {
    hide *;
    InvParts(s);
    WakeIs(s, c, all);
    var id := WaitQueue(c);
    CliWakesOne(s, id);
    CliWakesAll(s, id);
    var w := if all then WakeAll(Cli(s), id) else WakeOne(Cli(s), id);
    if all {
      WokenMeans(s, w, id, [], Q(s, id));
    } else if Q(s, id) != [] {
      WokenMeans(s, w, id, Q(s, id)[1..], [Q(s, id)[0]]);
    }
    var n := Sti(w);
    StiIs(w);
    FlagsApart(w, s.current, true, w.preemptOff, w.ticks);
    WakeFlags(s, n);
    SameQueue(w, n, SleepQueue);
    SleepersApart(s, n);
    InvWhole(n);
  }

  // ---------------------------------------------------------------- waking a waiter at unlock

  lemma WaiterWoken(s: State, m: nat)
    requires QueueOk(s, s.current, MutexQueue(m)) && Q(s, MutexQueue(m)) != []
    ensures At(s, Q(s, MutexQueue(m))[0], LockWoken(m)) && Q(s, MutexQueue(m))[0] != s.current
  {
    assert Q(s, MutexQueue(m))[0] in Q(s, MutexQueue(m));
  }

  lemma UnlockWakeLocal(w: State, n: State, m: nat)
    requires w.current in w.threads && w.threads[w.current].pc == UnlockWake(m)
    requires n == SetPc(w.(intr := true, preemptOff := true), w.current, UnlockLeave)
    ensures Local(w, n) && Concerns(w, n, m) && MutexOf(n, m) == MutexOf(w, m) && n.ticks == w.ticks && n.queues == w.queues
    ensures n.threads[w.current].pc == UnlockLeave && (Inside(n.threads[w.current], m) <==> Inside(w.threads[w.current], m))
    ensures forall t :: t in w.threads && t != w.current ==> t in n.threads && n.threads[t] == w.threads[t]
  {}

  /** State `w` in which the waiter, if any, is runnable, and `n` in which the caller goes on. */
  lemma UnlockWakeIs(s: State, w: State, n: State, m: nat)
    requires s.current in s.threads && s.threads[s.current].pc == UnlockWake(m)
    requires w.current == s.current && w.threads == s.threads && w.reaper == s.reaper && w.idle == s.idle && w.main == s.main
    requires n == SetPc(w.(intr := true, preemptOff := true), s.current, UnlockLeave) && LockOk(w, s.current, m)
    requires Q(w, MutexQueue(m)) == [] || (exists t :: t in Q(w, RunQueue) && t != s.current && At(w, t, LockWoken(m)))
    ensures Local(w, n) && Concerns(w, n, m) && LockOk(n, s.current, m) && WakeOk(n, s.current, m)
    ensures n.ticks == w.ticks && forall t :: t in s.threads && t != s.current ==> t in n.threads && n.threads[t].sleepUntil == s.threads[t].sleepUntil
  {
    UnlockWakeLocal(w, n, m);
    hide LockOk, Local, MutexOf, Concerns, SetPc;
    SameLock(w, n, m);
    if Q(w, MutexQueue(m)) != [] {
      var t :| t in Q(w, RunQueue) && t != s.current && At(w, t, LockWoken(m));
      assert t in Q(n, RunQueue) && At(n, t, LockWoken(m));
    }
  }

  /** The caller itself goes on alive, with its role, its references and its ticks. */
  lemma UnlockWakeSelf(s: State, w: State, n: State, m: nat)
    requires s.current in s.threads && FlagsOk(s) && RoleOk(s, s.current) && s.threads[s.current].pc == UnlockWake(m)
    requires RefsKept(s.threads[s.current], s.threads[s.current])
    requires w.current == s.current && w.threads == s.threads && w.reaper == s.reaper && w.idle == s.idle && w.main == s.main
    requires n == SetPc(w.(intr := true, preemptOff := true), s.current, UnlockLeave)
    ensures RoleOk(n, s.current) && RefsKept(w.threads[s.current], n.threads[s.current])
    ensures n.threads[s.current].alive && s.current != s.reaper && FlagsOk(n)
    ensures n.current == s.current && n.threads[n.current].numTicks == s.threads[s.current].numTicks && n.queues == w.queues
  {}

  lemma UnlockWakeStepIs(s: State, m: nat)
    requires s.current in s.threads && s.intr && s.preemptOff
    ensures Q(s, MutexQueue(m)) == [] ==>
              UnlockWakeStep(s, m) == SetPc(s.(intr := true, preemptOff := true), s.current, UnlockLeave)
    ensures Q(s, MutexQueue(m)) != [] ==>
              var w := WakeOne(Cli(s), MutexQueue(m));
              w.current == s.current && w.current in w.threads && !w.intr
              && UnlockWakeStep(s, m) == SetPc(w.(intr := true, preemptOff := true), s.current, UnlockLeave)
  {
    var n := SetPc(s, s.current, UnlockLeave);
    assert Q(n, MutexQueue(m)) == Q(s, MutexQueue(m)) && Q(n, RunQueue) == Q(s, RunQueue);
  }

  /** The state in which the waiter, if any, has been made runnable. */
  lemma UnlockWoken(s: State, m: nat)
    requires Inv(s) && s.intr
    ensures var id := MutexQueue(m); var w := if Q(s, id) == [] then s else WakeOne(Cli(s), id);
            && Core(w, s.current) && w.current == s.current && w.threads == s.threads && w.ticks == s.ticks
            && w.main == s.main && w.idle == s.idle && w.reaper == s.reaper && Q(w, SleepQueue) == Q(s, SleepQueue)
            && (Q(w, id) == [] || exists t :: t in Q(w, RunQueue) && t != s.current && At(w, t, LockWoken(m)))
  {
    hide *;
    InvParts(s);
    var id := MutexQueue(m);
    CliWakesOne(s, id);
    if Q(s, id) != [] {
      WokenMeans(s, WakeOne(Cli(s), id), id, Q(s, id)[1..], [Q(s, id)[0]]);
      QueueOkAt(s, s.current, MutexQueue(m));
      WaiterWoken(s, m);
      SameAt(s, WakeOne(Cli(s), id), Q(s, id)[0], LockWoken(m));
      assert Q(s, id)[0] in Q(WakeOne(Cli(s), id), RunQueue);
    }
  }

  lemma SameAt(s: State, w: State, t: Tid, pc: Pc)
    requires At(s, t, pc) && w.threads == s.threads
    ensures At(w, t, pc)
  {}

  lemma LockOkAt(s: State, f: Tid, m: nat)
    requires Core(s, f)
    ensures LockOk(s, f, m)
  {}

  lemma UnlockWakeFlags(s: State, m: nat)
    requires Inv(s) && s.threads[s.current].pc == UnlockWake(m)
    ensures s.intr && s.preemptOff
  {
    InvParts(s);
  }

  lemma UnlockWakeKeeps(s: State, m: nat)
    requires Inv(s) && s.threads[s.current].pc == UnlockWake(m)
    ensures Inv(UnlockWakeStep(s, m))
  {
    hide *;
    MutexParts(s, m);
    InvParts(s);
    UnlockWakeFlags(s, m);
    UnlockWoken(s, m);
    var id := MutexQueue(m);
    var w := if Q(s, id) == [] then s else WakeOne(Cli(s), id);
    var n := SetPc(w.(intr := true, preemptOff := true), s.current, UnlockLeave);
    LockOkAt(w, s.current, m);
    CoreParts(w, s.current);
    UnlockWakeStepIs(s, m);
    UnlockWakeIs(s, w, n, m);
    UnlockWakeSelf(s, w, n, m);
    OthersLocked(w, n, m);
    OthersWaited(w, n, m);
    LocalKeeps(w, n);
    SameQueue(w, n, SleepQueue);
    SleepersApart(s, n);
    InvWhole(n);
  }

  // ---------------------------------------------------------------- join

  lemma JoinIs(s: State, t: Tid)
    requires s.current in s.threads && !s.halted && FlagsOk(s) && RoleOk(s, s.current)
    requires Enabled(s, DoJoin(t)) && t != NULL
    ensures var n := Join(s, t);
            && Local(s, n) && n.mutexes == s.mutexes && n.ticks == s.ticks
            && n.threads[n.current].numTicks == s.threads[s.current].numTicks
            && Neutral(s.threads[s.current], n.threads[s.current])
            && RoleOk(n, s.current) && RefsKept(s.threads[s.current], n.threads[s.current])
            && n.threads[s.current].alive && s.current != s.reaper && FlagsOk(n)
  {}

  lemma JoinKeeps(s: State, t: Tid)
    requires Inv(s) && Enabled(s, DoJoin(t))
    ensures Inv(Join(s, t))
  {
    InvParts(s);
    CoreParts(s, s.current);
    assert t in RefsOf(s.threads[s.current]);
    assert RefOk(s, s.current, t);
    hide *;
    JoinIs(s, t);
    GoOn(s, Join(s, t));
  }
}

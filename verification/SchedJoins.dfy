/** What becomes of threads over whole runs: who is joined and with which code, who is preempted and goes
    on, what the reaper frees, and who waits until woken. */
module SchedJoins {
  import opened Basics
  import opened SchedModel
  import opened SchedInv
  import opened SchedDispatch
  import opened SchedLocal
  import opened SchedCalls
  import opened SchedLocks
  import opened SchedLives
  import opened SchedEffects
  import opened SchedRuns
  import opened SchedTheorems
  import opened SchedOutcomes

  // ---------------------------------------------------------------- one join

  /** `join` begins: interrupts are off and the caller is about to test whether `t` is alive. */
  lemma JoinBegins(s: State, t: Tid)
    requires Inv(s) && Enabled(s, DoJoin(t))
    ensures s.current in s.threads
    ensures var th := s.threads[s.current];
            Next(s, DoJoin(t)) == s.(intr := false, threads := s.threads[s.current := th.(pc := JoinTest(t), children := th.children - {t})])
  {
    hide Places, Locks, Wakes, Reaps, Pages, Zeroes, Sleepers;
    InvParts(s);
    assert t in RefsOf(s.threads[s.current]);
    assert RefOk(s, s.current, t);
  }

  /** The step ends the join of `t`: the current thread is about to test it and finds it dead. */
  predicate EndsJoin(s: State, a: Action, t: Tid) {
    && s.current in s.threads && t in s.threads
    && a == Step && s.threads[s.current].pc == JoinTest(t) && !s.threads[t].alive
  }

  /** The joiner is back at its own code, interrupts on; the last reference to `t` is gone, it is last in
      the graveyard and the reaper's waiters are runnable. */
  ghost predicate JoinDone(s: State, n: State, t: Tid) {
    && s.current in s.threads && t in s.threads && t != s.current && n.current == s.current && n.intr && !n.preemptOff
    && n.threads == s.threads[s.current := s.threads[s.current].(pc := Running)][t := s.threads[t].(ownerRef := false, refCount := 0)]
    && Q(n, Graveyard) == Q(s, Graveyard) + [t]
    && Q(n, RunQueue) == Q(s, RunQueue) + Q(s, ReaperWait) && Q(n, ReaperWait) == []
    && (forall j :: j != Graveyard && j != RunQueue && j != ReaperWait ==> Q(n, j) == Q(s, j))
    && n.mutexes == s.mutexes && Aside(s, n)
  }

  lemma NextSound(s: State, a: Action)
    requires Inv(s) && s.current in s.threads && Enabled(s, a)
    ensures !Next(s, a).halted
  {
    hide *;
    NextKeeps(s, a);
    InvParts(Next(s, a));
  }

  lemma JoinEnds(s: State, a: Action, t: Tid)
    requires Inv(s) && Enabled(s, a) && EndsJoin(s, a, t)
    ensures JoinDone(s, Next(s, a), t)
  {
    hide *;
    JoinEndsIs(s, a, t);
    NextSound(s, a);
    JoinedEffects(s);
    WakeAllMoves(Joined(s), ReaperWait);
    BuriedEffects(WakeAll(Joined(s), ReaperWait), t);
    DoneFrom(s, Joined(s), WakeAll(Joined(s), ReaperWait), Next(s, a), t);
  }

  lemma JoinEndsIs(s: State, a: Action, t: Tid)
    requires Inv(s) && Enabled(s, a) && EndsJoin(s, a, t)
    ensures s.current in s.threads && t in s.threads && t != s.current && !s.preemptOff && !s.intr
    ensures var w := WakeAll(Joined(s), ReaperWait); t in w.threads && Next(s, a) == Sti(Buried(w, t))
    ensures Joined(s) == s.(threads := s.threads[s.current := s.threads[s.current].(pc := Running)])
  {
    hide *;
    EndsAt(s, a, t);
    InvParts(s);
    NextIs(s, a);
    ContinueIs(s);
    JoinEndFacts(s, t);
    JoinedForsaken(s, t);
    JoinEndPlace(s, t);
    JoinEndIs(s, t);
    JoinFlags(s);
    JoinedEffects(s);
  }

  lemma EndsAt(s: State, a: Action, t: Tid)
    requires EndsJoin(s, a, t)
    ensures a == Step && s.current in s.threads && s.threads[s.current].pc == JoinTest(t) && t in s.threads && !s.threads[t].alive
  {}

  lemma JoinFlags(s: State)
    requires s.current in s.threads && FlagsOk(s) && s.threads[s.current].pc.JoinTest?
    ensures !s.intr && !s.preemptOff
    ensures Joined(s) == s.(threads := s.threads[s.current := s.threads[s.current].(pc := Running)])
  {}

  lemma DoneFrom(s: State, j: State, w: State, n: State, t: Tid)
    requires s.current in s.threads && t in s.threads && t != s.current && !s.preemptOff
    requires j == s.(threads := s.threads[s.current := s.threads[s.current].(pc := Running)])
    requires AllMoved(j, w, ReaperWait) && w == j.(queues := w.queues, halted := w.halted)
    requires t in w.threads && n == Sti(Buried(w, t)) && !n.halted
    requires (forall id :: id != Graveyard ==> Q(n, id) == Q(w, id)) && Q(n, Graveyard) == Q(w, Graveyard) + [t]
    ensures JoinDone(s, n, t)
  {
    assert forall id :: Q(j, id) == Q(s, id);
    assert n == w.(queues := n.queues, intr := true, halted := n.halted, threads := n.threads);
    assert n.threads == w.threads[t := w.threads[t].(ownerRef := false, refCount := 0)];
    hide Q, Sti, Buried;
  }

  /** While the thread is alive the joiner waits with its other joiners, to test again. */
  lemma JoinWaits(s: State, t: Tid)
    requires Inv(s) && s.current in s.threads && s.threads[s.current].pc == JoinTest(t) && t in s.threads && s.threads[t].alive
    ensures Enabled(s, Step) && Parked(s, Next(s, Step), JoinQueue(t), JoinTest(t))
  {
    JoinBlocks(s, t);
    BlockingParks(s, Step);
    hide *;
  }

  lemma JoinBlocks(s: State, t: Tid)
    requires s.current in s.threads && s.threads[s.current].pc == JoinTest(t) && t in s.threads && s.threads[t].alive
    ensures Enabled(s, Step) && Blocking(s, Step)
    ensures var (b, id, pc) := Blocker(s, Step); id == JoinQueue(t) && pc == JoinTest(t)
  {}

  // ---------------------------------------------------------------- everyone's record

  /** Only the sleep time and the owner's reference may differ. */
  predicate SameSelf(a: Thread, b: Thread) {
    b == a.(sleepUntil := b.sleepUntil, ownerRef := b.ownerRef, refCount := b.refCount)
  }

  /** Thread `t` keeps its record but for the sleep time, and loses its owner's
      reference only if the step ends a join of it. */
  predicate KeptBy(s: State, a: Action, n: State, t: Tid)
    requires t in s.threads && t in n.threads
  {
    && SameSelf(s.threads[t], n.threads[t])
    && (!EndsJoin(s, a, t) ==> n.threads[t].ownerRef == s.threads[t].ownerRef && n.threads[t].refCount == s.threads[t].refCount)
  }

  lemma SameKept(s: State, a: Action, n: State, t: Tid)
    requires t in s.threads && t in n.threads
    requires n.threads[t] == s.threads[t].(sleepUntil := n.threads[t].sleepUntil)
    ensures KeptBy(s, a, n, t)
  {}

  /** The records of others are kept by a step of these kinds. */
  lemma TickKept(s: State, t: Tid)
    requires Inv(s) && Enabled(s, Tick) && t in s.threads && t != s.current
    ensures t in Next(s, Tick).threads && KeptBy(s, Tick, Next(s, Tick), t)
  {
    hide *;
    TickOutcome(s);
    var clock := s.(ticks := (s.ticks + 1) % 0x1_0000_0000);
    var n, pc := Next(s, Tick), s.threads[s.current].pc;
    if Parked(clock, n, RunQueue, Preempted(pc)) {
      ParkedKept(clock, Tick, n, RunQueue, Preempted(pc), t);
      SameEnds(s, clock, n, t);
    } else {
      SameKept(s, Tick, n, t);
    }
  }

  lemma SameEnds(s: State, i: State, n: State, t: Tid)
    requires i == s.(ticks := i.ticks) && t in s.threads && t in n.threads && KeptBy(i, Tick, n, t)
    ensures KeptBy(s, Tick, n, t)
  {}

  lemma ParkedKept(s: State, a: Action, n: State, id: QueueId, pc: Pc, t: Tid)
    requires Parked(s, n, id, pc) && t in s.threads && t != s.current
    ensures t in n.threads && KeptBy(s, a, n, t)
  {
    hide Woke, Q, NotDue, KeptBy, Aside;
    assert Rested(s, t) == n.threads[t];
    SameKept(s, a, n, t);
  }

  lemma SlumbersKept(s: State, a: Action, n: State, until: nat, t: Tid)
    requires Slumbers(s, n, until) && t in s.threads && t != s.current
    ensures t in n.threads && KeptBy(s, a, n, t)
  {
    hide Woke, Q, NotDue, KeptBy, Aside;
    assert Rested(s, t) == n.threads[t];
    SameKept(s, a, n, t);
  }

  lemma LeftKept(s: State, a: Action, n: State, code: int, t: Tid)
    requires Left(s, n, code) && t in s.threads && t != s.current
    ensures t in n.threads && KeptBy(s, a, n, t)
  {
    hide Woke, Q, NotDue, KeptBy, Aside;
    assert Rested(s, t) == n.threads[t];
    SameKept(s, a, n, t);
  }

  lemma LocalKept(s: State, a: Action, n: State, t: Tid)
    requires s.current in s.threads && s.current in n.threads && t in s.threads && t != s.current
    requires n.threads == s.threads[s.current := n.threads[s.current]]
    ensures t in n.threads && KeptBy(s, a, n, t)
  {}

  lemma BlockingKept(s: State, a: Action, t: Tid)
    requires Inv(s) && Enabled(s, a) && Blocking(s, a) && t in s.threads && t != s.current
    ensures t in Next(s, a).threads && KeptBy(s, a, Next(s, a), t)
  {
    hide *;
    InvParts(s);
    if a.DoSleep? {
      SleepOutcome(s, a.ms);
      SlumbersKept(s, a, Next(s, a), (s.ticks + SleepTicks(a.ms)) % 0x1_0000_0000, t);
    } else {
      BlockingParks(s, a);
      var (b, id, pc) := Blocker(s, a);
      ParkedKept(s, a, Next(s, a), id, pc, t);
    }
  }

  lemma WakingKept(s: State, a: Action, t: Tid)
    requires Inv(s) && Enabled(s, a) && Waking(s, a) && t in s.threads && t != s.current
    ensures t in Next(s, a).threads && KeptBy(s, a, Next(s, a), t)
  {
    InvParts(s);
    WakingFrom(s, a);
    hide Inv, Enabled, Waking, Q, KeptBy, SameLife, Next;
    LocalKept(s, a, Next(s, a), t);
  }

  lemma InPlaceKept(s: State, a: Action, t: Tid)
    requires Inv(s) && Enabled(s, a) && InPlace(s, a) && t in s.threads && t != s.current
    ensures t in Next(s, a).threads && KeptBy(s, a, Next(s, a), t)
  {
    InvParts(s);
    NextSound(s, a);
    hide Inv, Enabled, InPlace, Next, KeptBy, SameLife, FlagsOk, RoleOk;
    InPlaceIs(s, a);
    LocalKept(s, a, Next(s, a), t);
  }

  /** The reaper took the graveyard over. */
  lemma TakingThreads(s: State)
    requires Inv(s) && s.current in s.threads && s.threads[s.current].pc == ReapTest && Q(s, Graveyard) != []
    ensures var n := Next(s, Step);
            && s.current == s.reaper && n.current == s.current && n.threads == s.threads[s.current := s.threads[s.current].(pc := ReapYield)]
            && Q(n, Doomed) == Q(s, Graveyard) && Q(n, Graveyard) == [] && n.freePages == s.freePages
            && (forall j :: j != Doomed && j != Graveyard ==> Q(n, j) == Q(s, j)) && n.intr && !n.preemptOff
  {
    hide *;
    InvParts(s);
    ReapTestQuiet(s);
    NextIs(s, Step);
    ContinueIs(s);
    TakingIs(s);
  }

  lemma ReapTestQuiet(s: State)
    requires FlagsOk(s) && RoleOk(s, s.current) && s.threads[s.current].pc == ReapTest
    ensures s.current in s.threads && Enabled(s, Step) && !s.intr && !s.preemptOff && s.current == s.reaper
  {}

  lemma TakingIs(s: State)
    requires s.current in s.threads && Q(s, Graveyard) != [] && !s.intr && !s.preemptOff
    ensures var n := ReapTestStep(s);
            && n.current == s.current && n.threads == s.threads[s.current := s.threads[s.current].(pc := ReapYield)]
            && Q(n, Doomed) == Q(s, Graveyard) && Q(n, Graveyard) == [] && n.freePages == s.freePages
            && (forall j :: j != Doomed && j != Graveyard ==> Q(n, j) == Q(s, j)) && n.intr && !n.preemptOff
  {}

  /** The reaper destroyed the head of its chain. */
  lemma FreeingThreads(s: State)
    requires Inv(s) && s.current in s.threads && s.threads[s.current].pc.ReapFree?
    ensures Q(s, Doomed) != []
    ensures var n := Next(s, Step); var t := Q(s, Doomed)[0];
            && t in s.threads && t != s.current && s.current == s.reaper && n.current == s.current
            && n.threads == s.threads[s.current := s.threads[s.current].(pc := ReapNext)] - {t}
            && Q(n, Doomed) == Q(s, Doomed)[1..] && n.freePages == s.freePages + PagesOf(s, t)
            && (forall j :: j != Doomed ==> Q(n, j) == Q(s, j)) && n.intr && !n.preemptOff && n.reaper == s.reaper && n.main == s.main
  {
    hide *;
    InvParts(s);
    FreesIs(s);
    var p := Freeing(s);
    FreeingEffects(s);
    DestroyedIs(p);
    FreedRest(s, p);
  }

  lemma FreeQuiet(s: State)
    requires FlagsOk(s) && RoleOk(s, s.current) && s.threads[s.current].pc.ReapFree?
    ensures Enabled(s, Step) && s.intr && !s.preemptOff
  {}

  lemma FreesIs(s: State)
    requires Inv(s) && s.current in s.threads && s.threads[s.current].pc.ReapFree?
    ensures var p := Freeing(s);
            && Q(s, Doomed) != [] && Q(p, Doomed) == Q(s, Doomed) && p.current in p.threads && Doomable(p, Q(p, Doomed)[0])
            && Enabled(s, Step) && s.current == s.reaper && s.intr && !s.preemptOff && Q(p, Doomed)[0] in s.threads
            && Next(s, Step) == Destroyed(p, Q(s, Doomed)[0])
  {
    hide *;
    InvParts(s);
    FreeQuiet(s);
    OwnRefs(s);
    LinkStill(s);
    FreeingKeeps(s);
    InvParts(Freeing(s));
    FreeingIs(s);
    HeadDoomable(Freeing(s));
    FreeingEffects(s);
    DoomableIn(Freeing(s), Q(s, Doomed)[0]);
    DestroyIs(s);
    NextIs(s, Step);
    ContinueIs(s);
  }

  lemma DoomableIn(s: State, t: Tid)
    requires Doomable(s, t)
    ensures t in s.threads && t != s.current
  {}

  lemma FreedRest(s: State, p: State)
    requires s.current in s.threads && p == Freeing(s) && Q(p, Doomed) != [] && Q(p, Doomed)[0] in p.threads
    ensures var n := Destroyed(p, Q(p, Doomed)[0]);
            p.threads == s.threads[s.current := s.threads[s.current].(pc := ReapNext)] && n.intr == s.intr && n.preemptOff == s.preemptOff
  {}

  /** What a step does to the record of a thread off the processor: kept, or destroyed by the reaper. */
  lemma OthersKept(s: State, a: Action, t: Tid)
    requires Inv(s) && Enabled(s, a) && t in s.threads && t != s.current
    ensures var n := Next(s, a); t in n.threads ==> KeptBy(s, a, n, t)
    ensures t !in Next(s, a).threads ==> Q(s, Doomed) != [] && Q(s, Doomed)[0] == t
  {
    hide *;
    InvParts(s);
    Kinds(s, a);
    VitalKinds(s, a);
    if a == Tick {
      TickKept(s, t);
    } else if Blocking(s, a) {
      BlockingKept(s, a, t);
    } else if Waking(s, a) {
      WakingKept(s, a, t);
    } else if InPlace(s, a) {
      InPlaceKept(s, a, t);
    } else if a.DoExit? {
      ExitOutcome(s, a.code);
      LeftKept(s, a, Next(s, a), a.code, t);
    } else {
      VitalKept(s, a, t);
    }
  }

  lemma VitalKinds(s: State, a: Action)
    requires s.current in s.threads && Enabled(s, a)
    ensures Vital(s, a) ==> a.DoExit? || a.DoSpawn? || a == Step
    ensures Vital(s, a) && a == Step ==> var pc := s.threads[s.current].pc;
                          || (pc.JoinTest? && EndsJoin(s, a, pc.t)) || (pc == ReapTest && Q(s, Graveyard) != []) || pc.ReapFree?
  {
    hide Q;
  }

  lemma VitalKept(s: State, a: Action, t: Tid)
    requires Inv(s) && Enabled(s, a) && Vital(s, a) && !a.DoExit? && t in s.threads && t != s.current
    ensures var n := Next(s, a); t in n.threads ==> KeptBy(s, a, n, t)
    ensures t !in Next(s, a).threads ==> Q(s, Doomed) != [] && Q(s, Doomed)[0] == t
  {
    hide *;
    InvParts(s);
    VitalKinds(s, a);
    if a.DoSpawn? {
      SpawnOutcome(s, a.detached, a.usermode);
      CreatedKept(s, a, Next(s, a), t);
    } else {
      var pc := s.threads[s.current].pc;
      if pc.JoinTest? {
        JoinEnds(s, a, pc.t);
        DoneKept(s, a, Next(s, a), pc.t, t);
      } else if pc == ReapTest {
        TakingThreads(s);
        LocalKept(s, a, Next(s, a), t);
      } else {
        FreeingThreads(s);
        FreedKept(s, a, Next(s, a), t);
      }
    }
  }

  lemma CreatedKept(s: State, a: Action, n: State, t: Tid)
    requires a.DoSpawn? && Created(s, n, a.detached, a.usermode) && t in s.threads && t != s.current
    ensures t in n.threads && KeptBy(s, a, n, t)
  {
    hide Q, Newborn;
  }

  lemma DoneKept(s: State, a: Action, n: State, u: Tid, t: Tid)
    requires JoinDone(s, n, u) && EndsJoin(s, a, u) && t in s.threads && t != s.current
    ensures t in n.threads && KeptBy(s, a, n, t)
  {
    hide Q, Aside;
  }

  lemma FreedKept(s: State, a: Action, n: State, t: Tid)
    requires s.current in s.threads && t in s.threads && t != s.current && Q(s, Doomed) != []
    requires n.threads == s.threads[s.current := s.threads[s.current].(pc := ReapNext)] - {Q(s, Doomed)[0]}
    ensures t in n.threads ==> KeptBy(s, a, n, t)
    ensures t !in n.threads ==> Q(s, Doomed)[0] == t
  {
    hide Q;
  }

  /** The current thread lives on, refers to whom it did, and if it joins somebody it still does. */
  predicate OwnKept(s: State, n: State) {
    && s.current in s.threads && s.current in n.threads
    && var a := s.threads[s.current]; var b := n.threads[s.current];
       && b.pc != Dead && b.refCount == a.refCount && RefsOf(b) == RefsOf(a) && (a.pc.JoinTest? ==> b.pc == a.pc)
  }

  lemma PcKept(s: State, n: State, th: Thread)
    requires s.current in s.threads && s.current in n.threads && th == s.threads[s.current] && n.threads[s.current].pc != Dead
    requires n.threads[s.current] == th.(pc := n.threads[s.current].pc, numTicks := n.threads[s.current].numTicks,
                                         sleepUntil := n.threads[s.current].sleepUntil)
    requires if th.pc.JoinTest? then n.threads[s.current].pc == th.pc else !n.threads[s.current].pc.JoinTest?
    ensures OwnKept(s, n)
  {}

  lemma OnNotJoining(s: State)
    requires FlagsOk(s) && s.intr
    ensures s.current in s.threads && !s.threads[s.current].pc.JoinTest?
  {}

  lemma TickOwn(s: State)
    requires Inv(s) && Enabled(s, Tick)
    ensures OwnKept(s, Next(s, Tick))
  {
    TickOutcome(s);
    InvParts(s);
    assert s.intr;
    OnNotJoining(s);
    hide Inv, Next, Enabled, Woke, Q, NotDue, OwnKept, Aside, Core, FlagsOk, RoleOk, Sleepers;
    CurrentAlive(s);
    PcKept(s, Next(s, Tick), s.threads[s.current]);
  }

  lemma CurrentAlive(s: State)
    requires Inv(s)
    ensures s.current in s.threads && s.threads[s.current].pc != Dead
  {
    hide Core, Sleepers;
    InvParts(s);
  }

  lemma BlockerPc(s: State, a: Action)
    requires s.current in s.threads && Enabled(s, a) && Blocking(s, a)
    ensures var (b, id, pc) := Blocker(s, a); var at := s.threads[s.current].pc;
            pc != Dead && if at.JoinTest? then pc == at else !pc.JoinTest?
    ensures a.DoSleep? ==> !s.threads[s.current].pc.JoinTest?
  {
    hide Q, MutexOf;
  }

  lemma BlockingOwn(s: State, a: Action)
    requires Inv(s) && Enabled(s, a) && Blocking(s, a)
    ensures OwnKept(s, Next(s, a))
  {
    hide *;
    InvParts(s);
    BlockerPc(s, a);
    if a.DoSleep? {
      SleepOutcome(s, a.ms);
      SlumbersOwn(s, Next(s, a), (s.ticks + SleepTicks(a.ms)) % 0x1_0000_0000);
    } else {
      BlockingParks(s, a);
      var (b, id, pc) := Blocker(s, a);
      ParkedOwn(s, Next(s, a), id, pc);
    }
  }

  lemma SlumbersOwn(s: State, n: State, until: nat)
    requires Slumbers(s, n, until) && !s.threads[s.current].pc.JoinTest?
    ensures OwnKept(s, n)
  {
    hide Woke, Q, NotDue, Aside, OwnKept;
    PcKept(s, n, s.threads[s.current]);
  }

  lemma ParkedOwn(s: State, n: State, id: QueueId, pc: Pc)
    requires Parked(s, n, id, pc) && pc != Dead
    requires var at := s.threads[s.current].pc; if at.JoinTest? then pc == at else !pc.JoinTest?
    ensures OwnKept(s, n)
  {
    hide Woke, Q, NotDue, Aside, OwnKept;
    PcKept(s, n, s.threads[s.current]);
  }

  lemma WakingOwn(s: State, a: Action)
    requires Inv(s) && Enabled(s, a) && Waking(s, a)
    ensures OwnKept(s, Next(s, a))
  {
    InvParts(s);
    WakingFrom(s, a);
    CurrentAlive(s);
    hide Inv, Core, FlagsOk, RoleOk, Sleepers, Q, Next, Local, SameLife;
  }

  lemma InPlaceOwn(s: State, a: Action)
    requires Inv(s) && Enabled(s, a) && InPlace(s, a)
    ensures OwnKept(s, Next(s, a))
  {
    InvParts(s);
    NextSound(s, a);
    CurrentAlive(s);
    hide Inv, Core, FlagsOk, RoleOk, Sleepers, Q, Next, MutexOf, RefsOf;
    InPlaceIs(s, a);
  }

  /** What the current thread's record is after a step: kept, or one child more, or one reference less, or dead. */
  predicate OwnAfter(s: State, a: Action, n: State) {
    && s.current in s.threads && s.current in n.threads
    && var o := s.threads[s.current]; var e := n.threads[s.current];
    if a.DoSpawn? then
      && o.pc == e.pc == Running && e.refCount == o.refCount && s.freePages != []
      && RefsOf(e) == RefsOf(o) + (if a.detached then {} else {s.freePages[0]})
    else if a.DoExit? then
      o.pc == Running && e.pc == Dead && e.exitCode == a.code && RefsOf(e) == {} && e.refCount == o.refCount - 1
    else if o.pc.JoinTest? && EndsJoin(s, a, o.pc.t) then
      e.pc == Running && e.refCount == o.refCount && RefsOf(e) == o.children
    else OwnKept(s, n)
  }

  lemma OwnStep(s: State, a: Action)
    requires Inv(s) && Enabled(s, a)
    ensures OwnAfter(s, a, Next(s, a))
  {
    hide *;
    InvParts(s);
    CurrentAlive(s);
    Kinds(s, a);
    VitalKinds(s, a);
    if a == Tick {
      TickOwn(s);
      NotVital(s, a);
    } else if Blocking(s, a) {
      BlockingOwn(s, a);
      NotVital(s, a);
    } else if Waking(s, a) {
      WakingOwn(s, a);
      NotVital(s, a);
    } else if InPlace(s, a) {
      InPlaceOwn(s, a);
      NotVital(s, a);
    } else {
      VitalOwn(s, a);
    }
    OwnIs(s, a, Next(s, a));
  }

  lemma OwnIs(s: State, a: Action, n: State)
    requires (OwnKept(s, n) && s.current in s.threads && Enabled(s, a) && !Vital(s, a)) || OwnAfter(s, a, n)
    ensures OwnAfter(s, a, n)
  {
    hide Q, RefsOf;
  }

  lemma NotVital(s: State, a: Action)
    requires s.current in s.threads && Enabled(s, a)
    ensures a == Tick || Blocking(s, a) || Waking(s, a) || InPlace(s, a) ==> !Vital(s, a)
  {
    hide Q, MutexOf;
  }

  lemma VitalOwn(s: State, a: Action)
    requires Inv(s) && Enabled(s, a) && Vital(s, a)
    ensures OwnAfter(s, a, Next(s, a))
  {
    hide *;
    InvParts(s);
    VitalKinds(s, a);
    CallsRun(s, a);
    if a.DoSpawn? {
      SpawnOutcome(s, a.detached, a.usermode);
      CreatedOwn(s, a, Next(s, a));
    } else if a.DoExit? {
      ExitOutcome(s, a.code);
      LeftOwn(s, a, Next(s, a));
    } else {
      var pc := s.threads[s.current].pc;
      if pc.JoinTest? {
        JoinEnds(s, a, pc.t);
        DoneOwn(s, a, Next(s, a));
      } else if pc == ReapTest {
        TakingThreads(s);
        PcKept(s, Next(s, a), s.threads[s.current]);
        KeptOwn(s, a, Next(s, a));
      } else {
        FreeingThreads(s);
        PcKept(s, Next(s, a), s.threads[s.current]);
        KeptOwn(s, a, Next(s, a));
      }
    }
  }

  lemma CallsRun(s: State, a: Action)
    requires s.current in s.threads && Enabled(s, a)
    ensures a.DoSpawn? || a.DoExit? ==> s.threads[s.current].pc == Running
  {}

  lemma KeptOwn(s: State, a: Action, n: State)
    requires OwnKept(s, n) && a == Step && !s.threads[s.current].pc.JoinTest?
    ensures OwnAfter(s, a, n)
  {}

  lemma CreatedOwn(s: State, a: Action, n: State)
    requires a.DoSpawn? && Created(s, n, a.detached, a.usermode) && s.threads[s.current].pc == Running
    ensures OwnAfter(s, a, n)
  {
    hide Q, Newborn;
  }

  lemma LeftOwn(s: State, a: Action, n: State)
    requires a.DoExit? && Left(s, n, a.code) && s.threads[s.current].pc == Running && RoleOk(s, s.current)
    ensures OwnAfter(s, a, n)
  {
    hide Q, Aside, Woke, NotDue, Rested;
  }

  lemma DoneOwn(s: State, a: Action, n: State)
    requires s.current in s.threads && s.threads[s.current].pc.JoinTest?
    requires EndsJoin(s, a, s.threads[s.current].pc.t) && JoinDone(s, n, s.threads[s.current].pc.t)
    ensures OwnAfter(s, a, n)
  {
    hide Q, Aside;
  }

  // ---------------------------------------------------------------- owners

  /** Thread `t` is dead or alive, and that with the exit code it had, unless it exits in this step. */
  predicate FateKept(s: State, a: Action, n: State, t: Tid)
    requires t in s.threads && t in n.threads
  {
    if t == s.current && a.DoExit? then s.threads[t].alive && !n.threads[t].alive && n.threads[t].exitCode == a.code
    else n.threads[t].alive == s.threads[t].alive && (!s.threads[t].alive ==> n.threads[t].exitCode == s.threads[t].exitCode)
  }

  lemma NotDoomed(s: State, t: Tid)
    requires Inv(s) && t in s.threads && s.threads[t].ownerRef
    ensures t !in Q(s, Graveyard) && t !in Q(s, Doomed)
  {
    hide *;
    InvParts(s);
    QueueOkAt(s, s.current, Graveyard);
    QueueOkAt(s, s.current, Doomed);
    RoleOkAt(s, s.current, t);
    if t in Q(s, Graveyard) { NoOwner(s, Graveyard, t); }
    if t in Q(s, Doomed) { NoOwner(s, Doomed, t); }
  }

  /** Whoever is buried is dead and nobody refers to it. */
  lemma NoOwner(s: State, id: QueueId, t: Tid)
    requires QueueOk(s, s.current, id) && t in Q(s, id) && t in s.threads && RoleOk(s, t) && (id == Graveyard || id == Doomed)
    ensures s.threads[t].pc == Dead && !s.threads[t].ownerRef
  {
    hide Q, OffCpu, Interruptible, NoDup, IdlePc, ReapOnly;
    assert Fits(s.threads[t], id);
  }

  lemma RoleMeans(s: State, t: Tid)
    requires Inv(s) && t in s.threads
    ensures var th := s.threads[t];
            (th.alive <==> th.pc != Dead) && th.refCount == (if th.alive then 1 else 0) + (if th.ownerRef then 1 else 0)
  {
    InvParts(s);
    RoleOkAt(s, s.current, t);
    hide Core, Sleepers, FlagsOk;
  }

  /** Whom somebody may still join stays, unburied, until a join of it ends. */
  lemma OwnedLives(s: State, a: Action, t: Tid)
    requires Inv(s) && Enabled(s, a) && t in s.threads && s.threads[t].ownerRef && !EndsJoin(s, a, t)
    ensures var n := Next(s, a); t in n.threads && n.threads[t].ownerRef && FateKept(s, a, n, t)
  {
    hide *;
    NotDoomed(s, t);
    RoleMeans(s, t);
    NextKeeps(s, a);
    OwnStep(s, a);
    InvParts(s);
    if t == s.current {
      OwnFate(s, a, Next(s, a));
      RoleMeans(Next(s, a), t);
      OwnerStays(s, a, Next(s, a));
    } else {
      HeadIn(Q(s, Doomed));
      OthersKept(s, a, t);
      KeptFate(s, a, Next(s, a), t);
    }
  }

  lemma HeadIn(q: seq<Tid>)
    ensures q != [] ==> q[0] in q
  {}

  lemma KeptFate(s: State, a: Action, n: State, t: Tid)
    requires t in s.threads && t in n.threads && t != s.current && KeptBy(s, a, n, t) && !EndsJoin(s, a, t)
    ensures n.threads[t].ownerRef == s.threads[t].ownerRef && FateKept(s, a, n, t)
  {}

  lemma OwnFate(s: State, a: Action, n: State)
    requires OwnAfter(s, a, n)
    ensures s.current in s.threads && s.current in n.threads
    ensures var o := s.threads[s.current]; var e := n.threads[s.current];
            if a.DoExit? then o.pc == Running && e.pc == Dead && e.exitCode == a.code && e.refCount == o.refCount - 1
            else e.pc != Dead && e.refCount == o.refCount
  {
    hide RefsOf, EndsJoin;
  }

  lemma OwnerStays(s: State, a: Action, n: State)
    requires s.current in s.threads && s.current in n.threads
    requires var o := s.threads[s.current]; var e := n.threads[s.current];
             && (if a.DoExit? then o.pc == Running && e.pc == Dead && e.exitCode == a.code && e.refCount == o.refCount - 1
                 else e.pc != Dead && e.refCount == o.refCount)
             && (o.alive <==> o.pc != Dead) && o.refCount == (if o.alive then 1 else 0) + (if o.ownerRef then 1 else 0)
             && (e.alive <==> e.pc != Dead) && e.refCount == (if e.alive then 1 else 0) + (if e.ownerRef then 1 else 0)
    requires s.threads[s.current].pc != Dead
    ensures n.threads[s.current].ownerRef == s.threads[s.current].ownerRef && FateKept(s, a, n, s.current)
  {}

  /** Nobody comes to refer to a thread that is there already. */
  lemma RefersBefore(s: State, a: Action, u: Tid, t: Tid)
    requires Inv(s) && Enabled(s, a) && t in s.threads && u in Next(s, a).threads && t in RefsOf(Next(s, a).threads[u])
    ensures u in s.threads && t in RefsOf(s.threads[u])
  {
    hide *;
    InvParts(s);
    CoreParts(s, s.current);
    OwnStep(s, a);
    if u == s.current {
      OwnRefers(s, a, Next(s, a), t);
    } else if u in s.threads {
      OthersKept(s, a, u);
      KeptRefers(s, a, Next(s, a), u);
    } else {
      NewRefers(s, a, u);
    }
  }

  lemma OwnRefers(s: State, a: Action, n: State, t: Tid)
    requires OwnAfter(s, a, n) && t in s.threads && Pages(s) && s.current in n.threads && t in RefsOf(n.threads[s.current])
    ensures s.current in s.threads && t in RefsOf(s.threads[s.current])
  {
    if a.DoSpawn? {
      hide Pages;
      FreshPage(s, s.freePages[0]);
    }
    hide Pages;
  }

  lemma KeptRefers(s: State, a: Action, n: State, u: Tid)
    requires u in s.threads && u in n.threads && KeptBy(s, a, n, u)
    ensures RefsOf(n.threads[u]) == RefsOf(s.threads[u])
  {}

  /** A new thread refers to nobody. */
  lemma NewRefers(s: State, a: Action, u: Tid)
    requires Inv(s) && Enabled(s, a) && u !in s.threads && u in Next(s, a).threads
    ensures RefsOf(Next(s, a).threads[u]) == {}
  {
    hide *;
    InvParts(s);
    EveryStepLives(s, a);
    OnlySpawnAdds(s, a, Next(s, a), u);
    SpawnOutcome(s, a.detached, a.usermode);
    NewbornRefers(s, a, Next(s, a), u);
  }

  lemma OnlySpawnAdds(s: State, a: Action, n: State, u: Tid)
    requires Lives(s, a, n) && u !in s.threads && u in n.threads
    ensures a.DoSpawn?
  {
    hide Onward, Q, Born, PagesOf;
  }

  lemma NewbornRefers(s: State, a: Action, n: State, u: Tid)
    requires a.DoSpawn? && Created(s, n, a.detached, a.usermode) && u !in s.threads && u in n.threads
    ensures RefsOf(n.threads[u]) == {}
  {
    hide Q;
  }

  // ---------------------------------------------------------------- joins over whole runs

  /** Thread `c`, and nobody else, may join `t` or is joining it. */
  ghost predicate Owes(s: State, c: Tid, t: Tid) {
    && c in s.threads && t in s.threads && s.threads[t].ownerRef && t in RefsOf(s.threads[c])
    && forall u :: u in s.threads && t in RefsOf(s.threads[u]) ==> u == c
  }

  /** Whoever may join a thread is the only one who may. */
  lemma OwesAlone(s: State, c: Tid, t: Tid)
    requires Inv(s) && c in s.threads && t in RefsOf(s.threads[c])
    ensures Owes(s, c, t)
  {
    InvParts(s);
    CoreParts(s, s.current);
    hide RefsOf, Core, Inv, Places, Roles, Locks, Wakes, Reaps, Pages, Zeroes, Sleepers, FlagsOk;
    assert RefOk(s, c, t);
  }

  /** One step: the join ends, or the owner exits and nobody may join any more, or everything stays. */
  lemma OwesStep(s: State, a: Action, c: Tid, t: Tid)
    requires Inv(s) && Enabled(s, a) && Owes(s, c, t)
    ensures var n := Next(s, a);
            if EndsJoin(s, a, t) then s.current == c
            else
              && t in n.threads && n.threads[t].ownerRef && FateKept(s, a, n, t)
              && (c in n.threads && t in RefsOf(n.threads[c]) ==> Owes(n, c, t))
              && (!(c == s.current && a.DoExit?) ==> c in n.threads && t in RefsOf(n.threads[c]))
              && (s.threads[c].pc == JoinTest(t) ==> c in n.threads && n.threads[c].pc == JoinTest(t))
  {
    hide *;
    OwesMeans(s, c, t);
    if EndsJoin(s, a, t) {
      JoinerOwes(s, a, c, t);
    } else {
      OwnedLives(s, a, t);
      NextKeeps(s, a);
      OwnStep(s, a);
      if c in Next(s, a).threads && t in RefsOf(Next(s, a).threads[c]) { OwesAlone(Next(s, a), c, t); }
      if c == s.current {
        OwnOwes(s, a, Next(s, a), t);
      } else {
        OwnerStaysOn(s, a, c, t);
      }
    }
  }

  lemma OwesMeans(s: State, c: Tid, t: Tid)
    requires Owes(s, c, t) && Inv(s)
    ensures c in s.threads && t in s.threads && s.threads[t].ownerRef && t in RefsOf(s.threads[c]) && s.current in s.threads
  {
    InvParts(s);
    hide Inv, Core, Sleepers, FlagsOk;
  }

  lemma JoinerOwes(s: State, a: Action, c: Tid, t: Tid)
    requires Owes(s, c, t) && EndsJoin(s, a, t)
    ensures s.current == c
  {
    assert t in RefsOf(s.threads[s.current]);
  }

  lemma OwnOwes(s: State, a: Action, n: State, t: Tid)
    requires OwnAfter(s, a, n) && !EndsJoin(s, a, t) && t in RefsOf(s.threads[s.current])
    ensures s.current in n.threads && (!a.DoExit? ==> t in RefsOf(n.threads[s.current]))
    ensures s.threads[s.current].pc == JoinTest(t) ==> n.threads[s.current].pc == JoinTest(t)
  {}

  /** An owner that is off the processor is alive and stays so. */
  lemma OwnerStaysOn(s: State, a: Action, c: Tid, t: Tid)
    requires Inv(s) && s.current in s.threads && Enabled(s, a) && c in s.threads && c != s.current && t in RefsOf(s.threads[c])
    ensures var n := Next(s, a); c in n.threads && t in RefsOf(n.threads[c]) && n.threads[c].pc == s.threads[c].pc
  {
    hide *;
    OwnerAlive(s, c, t);
    HeadIn(Q(s, Doomed));
    OthersKept(s, a, c);
    KeptRefers(s, a, Next(s, a), c);
    KeptPc(s, a, Next(s, a), c);
  }

  lemma KeptPc(s: State, a: Action, n: State, u: Tid)
    requires u in s.threads && u in n.threads && KeptBy(s, a, n, u)
    ensures n.threads[u].pc == s.threads[u].pc && n.threads[u].held == s.threads[u].held && n.threads[u].numTicks == s.threads[u].numTicks
  {}

  lemma OwnerAlive(s: State, c: Tid, t: Tid)
    requires Inv(s) && c in s.threads && t in RefsOf(s.threads[c])
    ensures c !in Q(s, Doomed)
  {
    hide *;
    InvParts(s);
    QueueOkAt(s, s.current, Doomed);
    RoleOkAt(s, s.current, c);
    if c in Q(s, Doomed) {
      NoOwner(s, Doomed, c);
      DeadRefers(s, c);
    }
  }

  lemma DeadRefers(s: State, c: Tid)
    requires c in s.threads && RoleOk(s, c) && s.threads[c].pc == Dead
    ensures RefsOf(s.threads[c]) == {}
  {}

  /** The code that the join of `t` by `c` returns, if it ends in the run and `c` has not exited before. */
  ghost function Joins(s: State, acts: seq<Action>, c: Tid, t: Tid): Option<int>
    requires Runs(s, acts)
    decreases |acts|
  {
    if acts == [] || c !in s.threads || t !in s.threads || t !in RefsOf(s.threads[c]) then None
    else if s.current == c && EndsJoin(s, acts[0], t) then Some(s.threads[t].exitCode)
    else Joins(Next(s, acts[0]), acts[1..], c, t)
  }

  /** The code that thread `t` first gives to `exit` in the run. */
  ghost function ExitCode(s: State, acts: seq<Action>, t: Tid): Option<int>
    requires Runs(s, acts)
    decreases |acts|
  {
    if acts == [] then None
    else if s.current == t && acts[0].DoExit? then Some(acts[0].code)
    else ExitCode(Next(s, acts[0]), acts[1..], t)
  }

  /** Over any run: a join returns the code that the thread it joins gave to `exit`, in the run or before it. */
  lemma {:induction false} JoinsCode(s: State, acts: seq<Action>, c: Tid, t: Tid)
    requires Inv(s) && Runs(s, acts) && c in s.threads && t in s.threads && t in RefsOf(s.threads[c])
    ensures Joins(s, acts, c, t).Some? ==>
              Joins(s, acts, c, t) == if s.threads[t].alive then ExitCode(s, acts, t) else Some(s.threads[t].exitCode)
    decreases |acts|
  {
    hide Inv, Next, Enabled, Owes, RefsOf;
    if acts != [] {
      var a, n := acts[0], Next(s, acts[0]);
      OwesAlone(s, c, t);
      OwesStep(s, a, c, t);
      if !EndsJoin(s, a, t) {
        NextKeeps(s, a);
        if c in n.threads && t in RefsOf(n.threads[c]) {
          JoinsCode(n, acts[1..], c, t);
        }
      }
    }
  }

  /** Over any run: until its join ends, the caller of `join` is still in it, and the thread is not buried. */
  lemma {:induction false} JoinsOn(s: State, acts: seq<Action>, c: Tid, t: Tid)
    requires Inv(s) && Runs(s, acts) && c in s.threads && t in s.threads && s.threads[c].pc == JoinTest(t)
    ensures Joins(s, acts, c, t).None? ==>
              var n := After(s, acts);
              c in n.threads && n.threads[c].pc == JoinTest(t) && t in n.threads && t !in Q(n, Graveyard) && t !in Q(n, Doomed)
    decreases |acts|
  {
    hide Inv, Next, Enabled, Owes, RefsOf, Q, EndsJoin;
    JoinerRefers(s, c, t);
    OwesAlone(s, c, t);
    OwesMeans(s, c, t);
    if acts == [] {
      NotDoomed(s, t);
    } else {
      var a := acts[0];
      OwesStep(s, a, c, t);
      if !EndsJoin(s, a, t) {
        NextKeeps(s, a);
        JoinsOn(Next(s, a), acts[1..], c, t);
      }
    }
  }

  lemma JoinerRefers(s: State, c: Tid, t: Tid)
    requires c in s.threads && s.threads[c].pc == JoinTest(t)
    ensures t in RefsOf(s.threads[c])
  {}

  /** `join`, over any run from the call. It returns only by a step that finds the thread dead (`JoinEnds`
      says what that step does), with the code of the thread's exit; until then the caller is in it
      and the thread is not buried. */
  lemma JoinOutcome(s: State, t: Tid, acts: seq<Action>)
    requires Inv(s) && Enabled(s, DoJoin(t)) && Runs(Next(s, DoJoin(t)), acts)
    ensures s.current in s.threads && t in s.threads
    ensures var c, b := s.current, Next(s, DoJoin(t));
            match Joins(b, acts, c, t)
            case None =>
              var n := After(b, acts);
              c in n.threads && n.threads[c].pc == JoinTest(t) && t in n.threads && t !in Q(n, Graveyard) && t !in Q(n, Doomed)
            case Some(code) =>
              Some(code) == if s.threads[t].alive then ExitCode(b, acts, t) else Some(s.threads[t].exitCode)
  {
    hide *;
    JoinBegins(s, t);
    MayJoin(s, t);
    var c, b := s.current, Next(s, DoJoin(t));
    NextKeeps(s, DoJoin(t));
    JoinerRefers(b, c, t);
    JoinsCode(b, acts, c, t);
    JoinsOn(b, acts, c, t);
  }

  lemma MayJoin(s: State, t: Tid)
    requires Inv(s) && s.current in s.threads && Enabled(s, DoJoin(t))
    ensures t in s.threads && t != s.current
  {
    InvParts(s);
    CoreParts(s, s.current);
    assert t in RefsOf(s.threads[s.current]);
    assert RefOk(s, s.current, t);
  }

  /** Thread `t` has an owner's reference, and nobody but `c` may use it. */
  ghost predicate OwnedBy(s: State, c: Tid, t: Tid) {
    && t in s.threads && s.threads[t].ownerRef
    && forall u :: u in s.threads && t in RefsOf(s.threads[u]) ==> u == c
  }

  lemma OwnedStep(s: State, a: Action, c: Tid, t: Tid)
    requires Inv(s) && Enabled(s, a) && OwnedBy(s, c, t)
    ensures EndsJoin(s, a, t) ==> s.current == c && c in s.threads && t in RefsOf(s.threads[c])
    ensures !EndsJoin(s, a, t) ==> OwnedBy(Next(s, a), c, t)
  {
    if !EndsJoin(s, a, t) {
      var n := Next(s, a);
      hide Inv, Next, Enabled, RefsOf, EndsJoin, FateKept;
      OwnedLives(s, a, t);
      forall u | u in n.threads && t in RefsOf(n.threads[u]) ensures u == c {
        RefersBefore(s, a, u, t);
      }
    }
  }

  /** Over any run: a thread with an owner is not buried before its owner's join of it ends. */
  lemma {:induction false} UntilJoined(s: State, acts: seq<Action>, c: Tid, t: Tid)
    requires Inv(s) && Runs(s, acts) && OwnedBy(s, c, t)
    ensures Joins(s, acts, c, t).None? ==>
              var n := After(s, acts); t in n.threads && t !in Q(n, Graveyard) && t !in Q(n, Doomed) && OwnedBy(n, c, t)
    decreases |acts|
  {
    hide Inv, Next, Enabled, RefsOf, Q, EndsJoin;
    if acts == [] {
      NotDoomed(s, t);
    } else {
      var a, n := acts[0], Next(s, acts[0]);
      OwnedStep(s, a, c, t);
      if !EndsJoin(s, a, t) {
        NextKeeps(s, a);
        UntilJoined(n, acts[1..], c, t);
        if c !in s.threads || t !in RefsOf(s.threads[c]) { NoJoinLater(n, acts[1..], c, t, s, a); }
      }
    }
  }

  /** Who may not join a thread that is there never will. */
  lemma NoJoinLater(n: State, acts: seq<Action>, c: Tid, t: Tid, s: State, a: Action)
    requires Inv(s) && Enabled(s, a) && n == Next(s, a) && Runs(n, acts) && t in s.threads
    requires c !in s.threads || t !in RefsOf(s.threads[c])
    ensures Joins(n, acts, c, t).None?
  {
    if c in n.threads && t in RefsOf(n.threads[c]) {
      hide *;
      RefersBefore(s, a, c, t);
    }
  }

  /** So over any run from its creation a thread that is not detached is not buried before its creator's
      join of it ends. */
  lemma SpawnedFate(s: State, usermode: bool, acts: seq<Action>)
    requires Inv(s) && Enabled(s, DoSpawn(false, usermode)) && Runs(Next(s, DoSpawn(false, usermode)), acts) && s.freePages != []
    ensures var b := Next(s, DoSpawn(false, usermode)); var t := s.freePages[0];
            Joins(b, acts, s.current, t).None? ==>
              var n := After(b, acts); t in n.threads && t !in Q(n, Graveyard) && t !in Q(n, Doomed)
  {
    hide *;
    InvParts(s);
    var b, t := Next(s, DoSpawn(false, usermode)), s.freePages[0];
    NextKeeps(s, DoSpawn(false, usermode));
    SpawnOutcome(s, false, usermode);
    ChildOwned(s, b, usermode);
    OwesAlone(b, s.current, t);
    OwesOwned(b, s.current, t);
    UntilJoined(b, acts, s.current, t);
  }

  lemma ChildOwned(s: State, b: State, usermode: bool)
    requires Created(s, b, false, usermode)
    ensures s.current in b.threads && s.freePages[0] in RefsOf(b.threads[s.current])
  {
    hide Q;
  }

  lemma OwesOwned(s: State, c: Tid, t: Tid)
    requires Owes(s, c, t)
    ensures OwnedBy(s, c, t)
  {}

  // ---------------------------------------------------------------- off the processor

  /** All along the run, its end left out, thread `t` has a record and is not on the processor. */
  ghost predicate Off(s: State, acts: seq<Action>, t: Tid)
    requires Runs(s, acts)
    decreases |acts|
  {
    acts != [] ==> t in s.threads && t != s.current && Off(Next(s, acts[0]), acts[1..], t)
  }

  /** Off the processor a thread stays at its program point, with the mutexes it holds. */
  lemma {:induction false} OffStays(s: State, acts: seq<Action>, t: Tid)
    requires Inv(s) && Runs(s, acts) && Off(s, acts, t) && t in s.threads && t in After(s, acts).threads
    ensures var e, o := After(s, acts).threads[t], s.threads[t]; e.pc == o.pc && e.held == o.held && e.numTicks == o.numTicks
    decreases |acts|
  {
    hide Inv, Next, Enabled, KeptBy;
    if acts != [] {
      var a, n := acts[0], Next(s, acts[0]);
      NextKeeps(s, a);
      OthersKept(s, a, t);
      if acts[1..] == [] {
        assert After(n, acts[1..]) == n;
      }
      KeptPc(s, a, n, t);
      OffStays(n, acts[1..], t);
    }
  }

  /** A preempted thread, when it next has the processor, goes on exactly where it was, interrupts on, with the
      mutexes it held and a fresh quantum. */
  lemma PreemptedGoesOn(s: State, acts: seq<Action>)
    requires Inv(s) && Enabled(s, Tick) && s.current in s.threads && Next(s, Tick).current != s.current
    requires Runs(Next(s, Tick), acts) && Off(Next(s, Tick), acts, s.current)
    requires var n := After(Next(s, Tick), acts); n.current == s.current && s.current in n.threads
    ensures var n := After(Next(s, Tick), acts); var c := s.current;
            && Enabled(n, Step)
            && var r := Next(n, Step);
               && r.current == c && c in r.threads && r.threads[c].pc == s.threads[c].pc && r.threads[c].held == s.threads[c].held
               && r.threads[c].numTicks == 0 && r.intr
  {
    hide *;
    var b, c := Next(s, Tick), s.current;
    NextKeeps(s, Tick);
    RunsKeep(b, acts);
    PreemptedAt(s);
    OffStays(b, acts, c);
    InvParts(After(b, acts));
    ResumeOutcome(After(b, acts));
  }

  lemma PreemptedAt(s: State)
    requires Inv(s) && Enabled(s, Tick) && s.current in s.threads && Next(s, Tick).current != s.current
    ensures var b := Next(s, Tick); var c := s.current;
            && c in b.threads && b.threads[c].pc == Preempted(s.threads[c].pc)
            && b.threads[c].held == s.threads[c].held && b.threads[c].numTicks == 0
  {
    TickOutcome(s);
    hide Inv, Enabled, Next, Q, Woke, NotDue, Aside;
  }

  // ---------------------------------------------------------------- the reaper

  /** The reaper's loop between its rounds: it turns interrupts off, waits while the graveyard is empty (else
      `TakingThreads`), yields once it has taken the graveyard, and looks at its chain when it is back. */
  lemma ReaperLoop(s: State)
    requires Inv(s) && s.current in s.threads && s.current == s.reaper
    ensures var c := s.current; var th := s.threads[c];
            match th.pc
            case Start => Enabled(s, Step) && Next(s, Step) == s.(intr := true, threads := s.threads[c := th.(pc := ReapCli)])
            case ReapCli => Enabled(s, Step) && Next(s, Step) == s.(intr := false, threads := s.threads[c := th.(pc := ReapTest)])
            case ReapTest => Q(s, Graveyard) == [] ==> Enabled(s, Step) && Parked(s, Next(s, Step), ReaperWait, ReapTest)
            case ReapYield => Enabled(s, Step) && Parked(s, Next(s, Step), RunQueue, ReapYielded)
            case ReapYielded => Enabled(s, Step) && Next(s, Step) == s.(intr := true, threads := s.threads[c := th.(pc := ReapNext)])
            case _ => true
  {
    var pc := s.threads[s.current].pc;
    hide *;
    InvParts(s);
    if pc == Start || pc == ReapCli || pc == ReapYielded {
      ReaperPlain(s);
    } else if pc == ReapYield || (pc == ReapTest && Q(s, Graveyard) == []) {
      ReaperBlocks(s);
      BlockingParks(s, Step);
    }
  }

  lemma ReaperPlain(s: State)
    requires s.current in s.threads && FlagsOk(s) && !s.halted && s.current == s.reaper
    requires var pc := s.threads[s.current].pc; pc == Start || pc == ReapCli || pc == ReapYielded
    ensures var th := s.threads[s.current]; var on := th.pc != ReapCli;
            && Enabled(s, Step)
            && Next(s, Step) == s.(intr := on, threads := s.threads[s.current :=
                 th.(pc := if th.pc == Start then ReapCli else if on then ReapNext else ReapTest)])
  {}

  lemma ReaperBlocks(s: State)
    requires s.current in s.threads
    requires var pc := s.threads[s.current].pc; pc == ReapYield || (pc == ReapTest && Q(s, Graveyard) == [])
    ensures Enabled(s, Step) && Blocking(s, Step)
    ensures var (b, id, pc) := Blocker(s, Step);
            if s.threads[s.current].pc == ReapYield then id == RunQueue && pc == ReapYielded else id == ReaperWait && pc == ReapTest
  {
    hide Q;
  }

  /** The pages of the threads of a chain, in the order they are freed. */
  ghost function AllPages(s: State, q: seq<Tid>): seq<nat>
    requires forall t :: t in q ==> t in s.threads
  {
    if q == [] then [] else PagesOf(s, q[0]) + AllPages(s, q[1..])
  }

  lemma {:induction false} SamePages(s: State, n: State, q: seq<Tid>)
    requires forall t :: t in q ==> t in s.threads && t in n.threads && PagesOf(n, t) == PagesOf(s, t)
    ensures AllPages(n, q) == AllPages(s, q)
  {
    hide PagesOf;
    if q != [] { SamePages(s, n, q[1..]); }
  }

  /** The reaper's chain `q` is used up: its threads are gone and all their pages are free, in order. */
  ghost predicate Reaped(s: State, n: State, q: seq<Tid>) {
    && (forall t :: t in q ==> t in s.threads)
    && (forall t :: t in n.threads <==> t in s.threads && t !in q)
    && Q(n, Doomed) == [] && n.freePages == s.freePages + AllPages(s, q)
    && (forall j :: j != Doomed ==> Q(n, j) == Q(s, j))
    && n.current == s.current && n.current in n.threads && n.threads[n.current].pc == ReapCli && n.intr && !n.preemptOff
  }

  lemma ChainThreads(s: State)
    requires Inv(s)
    ensures NoDup(Q(s, Doomed)) && forall t :: t in Q(s, Doomed) ==> t in s.threads && t != s.current
  {
    InvParts(s);
    QueueOkAt(s, s.current, Doomed);
    hide Inv, Core, Sleepers, FlagsOk;
  }

  /** The reaper looks at its chain. */
  lemma ReaperLooks(s: State)
    requires Inv(s) && s.current in s.threads && s.threads[s.current].pc == ReapNext
    ensures Enabled(s, Step) && s.intr && !s.preemptOff && Next(s, Step) == Continue(s)
    ensures var q := Q(s, Doomed);
            Continue(s) == s.(threads := s.threads[s.current :=
              s.threads[s.current].(pc := if q == [] then ReapCli else ReapFree(if |q| > 1 then q[1] else 0))])
  {
    hide Core, Sleepers, Q;
    InvParts(s);
  }

  /** From the moment it looks at its chain the reaper destroys the threads of the chain one by one. */
  lemma {:induction false} ReaperRound(s: State) returns (n: State)
    requires Inv(s) && s.current in s.threads && s.threads[s.current].pc == ReapNext
    ensures StepsTo(s, 2 * |Q(s, Doomed)| + 1, n) && Reaped(s, n, Q(s, Doomed))
    decreases |Q(s, Doomed)|
  {
    hide *;
    var q := Q(s, Doomed);
    ReaperLooks(s);
    NextKeeps(s, Step);
    var f := Continue(s);
    LooksSame(s, f);
    if q == [] {
      n := f;
      NoSteps(n);
      OneStep(s, 0, n);
      ReapedNone(s, n);
    } else {
      FreeingThreads(f);
      FreeEnabled(f);
      NextIs(f, Step);
      NextKeeps(f, Step);
      var m := Continue(f);
      ChainThreads(s);
      n := ReaperRound(m);
      OneStep(f, 2 * |q| - 1, n);
      OneStep(s, 2 * |q|, n);
      FirstIs(s, f, m, q[0]);
      ReapedMore(s, m, n, q);
    }
  }

  lemma FreeEnabled(f: State)
    requires f.current in f.threads && f.threads[f.current].pc.ReapFree?
    ensures Enabled(f, Step)
  {}

  lemma LooksSame(s: State, f: State)
    requires s.current in s.threads && f == s.(threads := f.threads) && s.current in f.threads
    requires f.threads == s.threads[s.current := s.threads[s.current].(pc := f.threads[s.current].pc)]
    ensures (forall j :: Q(f, j) == Q(s, j)) && f.threads.Keys == s.threads.Keys
    ensures forall t :: t in s.threads ==> PagesOf(f, t) == PagesOf(s, t)
  {}

  lemma ReapedNone(s: State, n: State)
    requires Q(s, Doomed) == [] && s.current in s.threads && n == s.(threads := n.threads) && s.intr && !s.preemptOff
    requires n.threads == s.threads[s.current := s.threads[s.current].(pc := ReapCli)]
    ensures Reaped(s, n, [])
  {}

  /** The head `t` of the chain was destroyed on the way from `s` to `m`. */
  ghost predicate FirstReaped(s: State, m: State, t: Tid) {
    && t in s.threads && (forall u :: u in m.threads <==> u in s.threads && u != t)
    && (forall u :: u in s.threads && u in m.threads ==> PagesOf(m, u) == PagesOf(s, u))
    && m.freePages == s.freePages + PagesOf(s, t) && (forall j :: j != Doomed ==> Q(m, j) == Q(s, j)) && m.current == s.current
  }

  lemma FirstIs(s: State, f: State, m: State, t: Tid)
    requires s.current in s.threads && t in s.threads && t != s.current && f.current == s.current && m.current == s.current
    requires (forall j :: Q(f, j) == Q(s, j)) && f.threads.Keys == s.threads.Keys && f.freePages == s.freePages
    requires forall t :: t in s.threads ==> PagesOf(f, t) == PagesOf(s, t)
    requires s.current in f.threads && m.threads == f.threads[f.current := f.threads[f.current].(pc := ReapNext)] - {t}
    requires m.freePages == f.freePages + PagesOf(f, t) && (forall j :: j != Doomed ==> Q(m, j) == Q(f, j)) && m.main == f.main
    ensures FirstReaped(s, m, t)
  {
    assert forall u :: u in m.threads <==> u in f.threads && u != t;
    assert forall u :: u in f.threads && u in m.threads ==> PagesOf(m, u) == PagesOf(f, u);
    hide Q, PagesOf;
  }

  lemma HeadRest(q: seq<Tid>)
    requires NoDup(q) && q != []
    ensures q[0] !in q[1..] && forall t :: t in q <==> t == q[0] || t in q[1..]
  {}

  lemma RestPages(s: State, m: State, q: seq<Tid>)
    requires q != [] && q[0] !in q[1..] && FirstReaped(s, m, q[0]) && (forall t :: t in q ==> t in s.threads)
    ensures (forall t :: t in q[1..] ==> t in m.threads && t in s.threads)
    ensures AllPages(s, q) == PagesOf(s, q[0]) + AllPages(m, q[1..])
  {
    forall t | t in q[1..] ensures t in s.threads && t in m.threads && PagesOf(m, t) == PagesOf(s, t) {
      assert t != q[0];
    }
    hide PagesOf, FirstReaped;
    SamePages(s, m, q[1..]);
  }

  lemma ReapedMore(s: State, m: State, n: State, q: seq<Tid>)
    requires q != [] && NoDup(q) && q == Q(s, Doomed) && FirstReaped(s, m, q[0]) && Q(m, Doomed) == q[1..]
    requires (forall t :: t in q ==> t in s.threads) && Reaped(m, n, q[1..])
    ensures Reaped(s, n, q)
  {
    hide Q, PagesOf, NoDup, AllPages;
    HeadRest(q);
    RestPages(s, m, q);
    assert n.freePages == s.freePages + AllPages(s, q);
    forall t ensures t in n.threads <==> t in s.threads && t !in q {}
  }

  // ---------------------------------------------------------------- wait queues

  /** A wait queue after a step: first come, first served. */
  function Served(q: seq<Tid>, current: Tid, a: Action, c: nat): seq<Tid> {
    if a == DoWait(c) then q + [current]
    else if a == DoWake(c, true) || a == Key(c) then []
    else if a == DoWake(c, false) && q != [] then q[1..]
    else q
  }

  /** Queue `id` is as before. */
  predicate SameIn(s: State, n: State, id: QueueId) { Q(n, id) == Q(s, id) }

  lemma BlockingServes(s: State, a: Action, c: nat)
    requires Inv(s) && Enabled(s, a) && Blocking(s, a)
    ensures Q(Next(s, a), WaitQueue(c)) == Served(Q(s, WaitQueue(c)), s.current, a, c)
  {
    hide *;
    InvParts(s);
    if a.DoSleep? {
      SleepOutcome(s, a.ms);
      SlumbersSame(s, Next(s, a), (s.ticks + SleepTicks(a.ms)) % 0x1_0000_0000, WaitQueue(c));
      NotServed(s, a, c);
    } else {
      BlockingParks(s, a);
      var (b, id, pc) := Blocker(s, a);
      ParkedServes(s, a, Next(s, a), c);
    }
  }

  lemma SlumbersSame(s: State, n: State, until: nat, id: QueueId)
    requires Slumbers(s, n, until) && id != RunQueue && id != SleepQueue
    ensures SameIn(s, n, id)
  {
    hide Q, Woke, NotDue, Rested, Aside;
  }

  lemma ParkedServes(s: State, a: Action, n: State, c: nat)
    requires s.current in s.threads && Enabled(s, a) && Blocking(s, a)
    requires var (b, id, pc) := Blocker(s, a); Parked(s, n, id, pc)
    ensures Q(n, WaitQueue(c)) == Served(Q(s, WaitQueue(c)), s.current, a, c)
  {
    hide Q, Woke, NotDue, Rested, Aside, MutexOf;
  }

  lemma NotServed(s: State, a: Action, c: nat)
    requires !a.DoWait? && !a.DoWake? && !a.Key?
    ensures SameIn(s, s, WaitQueue(c)) && forall n :: SameIn(s, n, WaitQueue(c)) ==> Q(n, WaitQueue(c)) == Served(Q(s, WaitQueue(c)), s.current, a, c)
  {}

  lemma WakingServes(s: State, a: Action, c: nat)
    requires Inv(s) && Enabled(s, a) && Waking(s, a)
    ensures Q(Next(s, a), WaitQueue(c)) == Served(Q(s, WaitQueue(c)), s.current, a, c)
  {
    hide *;
    InvParts(s);
    WakingKinds(s, a);
    NextIs(s, a);
    if a.DoWake? {
      WakeOutcome(s, a, a.c, a.all);
      MovedServes(s, a, Next(s, a), a.c, a.all, c);
    } else if a.Key? {
      WakeOutcome(s, a, a.c, true);
      MovedServes(s, a, Next(s, a), a.c, true, c);
    } else {
      var m := s.threads[s.current].pc.m;
      WaiterOff(s, m);
      ContinueIs(s);
      UnlockWakeFlags(s, m);
      UnlockRouses(s, m);
      HeadMovedSame(s, UnlockWakeStep(s, m), MutexQueue(m), WaitQueue(c));
      NotServed(s, a, c);
    }
  }

  lemma WakingKinds(s: State, a: Action)
    requires s.current in s.threads && Enabled(s, a) && Waking(s, a)
    ensures !a.DoWake? && !a.Key? ==> a == Step && s.threads[s.current].pc.UnlockWake?
  {
    hide Q;
  }

  lemma MovedServes(s: State, a: Action, n: State, d: nat, all: bool, c: nat)
    requires (a == DoWake(d, all)) || (a == Key(d) && all)
    requires if all then AllMoved(s, n, WaitQueue(d)) else HeadMoved(s, n, WaitQueue(d))
    ensures Q(n, WaitQueue(c)) == Served(Q(s, WaitQueue(c)), s.current, a, c)
  {
    hide Q;
  }

  lemma HeadMovedSame(s: State, n: State, from: QueueId, id: QueueId)
    requires HeadMoved(s, n, from) && id != from && id != RunQueue
    ensures SameIn(s, n, id)
  {
    hide Q;
  }

  lemma VitalSame(s: State, a: Action, c: nat)
    requires Inv(s) && Enabled(s, a) && Vital(s, a)
    ensures SameIn(s, Next(s, a), WaitQueue(c))
  {
    hide *;
    InvParts(s);
    VitalKinds(s, a);
    var n := Next(s, a);
    if a.DoSpawn? {
      SpawnOutcome(s, a.detached, a.usermode);
      CreatedSame(s, a, n, c);
    } else if a.DoExit? {
      ExitOutcome(s, a.code);
      LeftSame(s, a, n, c);
    } else {
      var pc := s.threads[s.current].pc;
      if pc.JoinTest? {
        JoinEnds(s, a, pc.t);
        DoneSame(s, n, pc.t, c);
      } else if pc == ReapTest {
        TakingThreads(s);
        SameIs(s, n, WaitQueue(c));
      } else {
        FreeingThreads(s);
        SameIs(s, n, WaitQueue(c));
      }
    }
  }

  lemma SameIs(s: State, n: State, id: QueueId)
    requires Q(n, id) == Q(s, id)
    ensures SameIn(s, n, id)
  {}

  lemma CreatedSame(s: State, a: Action, n: State, c: nat)
    requires a.DoSpawn? && Created(s, n, a.detached, a.usermode)
    ensures SameIn(s, n, WaitQueue(c))
  {
    hide Q;
  }

  lemma LeftSame(s: State, a: Action, n: State, c: nat)
    requires a.DoExit? && Left(s, n, a.code)
    ensures SameIn(s, n, WaitQueue(c))
  {
    hide Q, Woke, NotDue, Rested, Aside;
  }

  lemma DoneSame(s: State, n: State, t: Tid, c: nat)
    requires JoinDone(s, n, t)
    ensures SameIn(s, n, WaitQueue(c))
  {
    hide Q, Aside;
  }

  lemma TickSame(s: State, c: nat)
    requires Inv(s) && Enabled(s, Tick)
    ensures SameIn(s, Next(s, Tick), WaitQueue(c))
  {
    hide *;
    TickOutcome(s);
    var clock := s.(ticks := (s.ticks + 1) % 0x1_0000_0000);
    var pc := s.threads[s.current].pc;
    if Parked(clock, Next(s, Tick), RunQueue, Preempted(pc)) {
      ParkedSame(clock, Next(s, Tick), RunQueue, Preempted(pc), WaitQueue(c));
      SameInQueues(clock, s, WaitQueue(c));
      SameInTwice(s, clock, Next(s, Tick), WaitQueue(c));
    } else {
      SameInQueues(s, Next(s, Tick), WaitQueue(c));
    }
  }

  lemma ParkedSame(s: State, n: State, id: QueueId, pc: Pc, other: QueueId)
    requires Parked(s, n, id, pc) && other != id && other != RunQueue && other != SleepQueue
    ensures SameIn(s, n, other)
  {
    hide Q, Woke, NotDue, Rested, Aside;
  }

  lemma SameInQueues(s: State, n: State, id: QueueId)
    requires n.queues == s.queues
    ensures SameIn(s, n, id)
  {}

  lemma SameInTwice(s: State, i: State, n: State, id: QueueId)
    requires SameIn(i, s, id) && SameIn(i, n, id)
    ensures SameIn(s, n, id)
  {}

  lemma InPlaceSame(s: State, a: Action, c: nat)
    requires Inv(s) && Enabled(s, a) && InPlace(s, a)
    ensures SameIn(s, Next(s, a), WaitQueue(c))
  {
    InvParts(s);
    NextSound(s, a);
    hide Inv, Enabled, InPlace, Next, SameLife, FlagsOk, RoleOk;
    InPlaceIs(s, a);
  }

  /** What every step does to a wait queue. */
  lemma WaitQueueStep(s: State, a: Action, c: nat)
    requires Inv(s) && Enabled(s, a)
    ensures Q(Next(s, a), WaitQueue(c)) == Served(Q(s, WaitQueue(c)), s.current, a, c)
  {
    hide *;
    InvParts(s);
    Kinds(s, a);
    if Blocking(s, a) {
      BlockingServes(s, a, c);
    } else if Waking(s, a) {
      WakingServes(s, a, c);
    } else {
      QuietKinds(s, a);
      NotServed(s, a, c);
      if a == Tick {
        TickSame(s, c);
      } else if InPlace(s, a) {
        InPlaceSame(s, a, c);
      } else {
        VitalSame(s, a, c);
      }
    }
  }

  lemma QuietKinds(s: State, a: Action)
    requires s.current in s.threads && Enabled(s, a) && !Blocking(s, a) && !Waking(s, a)
    ensures !a.DoWait? && !a.DoWake? && !a.Key?
  {}

  /** A wait queue over a run. */
  ghost function ServedAll(q: seq<Tid>, s: State, acts: seq<Action>, c: nat): seq<Tid>
    requires Runs(s, acts)
    decreases |acts|
  {
    if acts == [] then q else ServedAll(Served(q, s.current, acts[0], c), Next(s, acts[0]), acts[1..], c)
  }

  /** Over any run a wait queue holds those who called `wait` and were not woken since, in the order they came:
      nobody leaves it otherwise. */
  lemma {:induction false} WaitsUntilWoken(s: State, acts: seq<Action>, c: nat)
    requires Inv(s) && Runs(s, acts)
    ensures Q(After(s, acts), WaitQueue(c)) == ServedAll(Q(s, WaitQueue(c)), s, acts, c)
    decreases |acts|
  {
    hide Inv, Next, Enabled, Q, Served;
    if acts != [] {
      NextKeeps(s, acts[0]);
      WaitQueueStep(s, acts[0], c);
      WaitsUntilWoken(Next(s, acts[0]), acts[1..], c);
    }
  }
}

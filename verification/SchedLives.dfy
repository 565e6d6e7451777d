/** Birth and death of threads keep the scheduler's invariants: exit, the owner's join, the
    reaper's rounds, destruction and creation. */
module SchedLives {
  import opened Basics
  import opened SchedModel
  import opened SchedInv
  import opened SchedPlaces
  import opened SchedDispatch
  import opened SchedLocal
  import opened SchedCalls
  import opened SchedLocks

  // ---------------------------------------------------------------- exit

  /** A dead thread that its owner may still join leaves the processor for no queue at all. */
  lemma AwaitPlaces(s: State, f: Tid)
    requires Places(s, f) && f in s.threads && NULL !in s.threads
    requires s.threads[f].pc == Dead && s.threads[f].refCount == 1
    ensures Places(s, NULL)
  {
    forall id ensures QueueOk(s, NULL, id) {
      assert QueueOk(s, f, id);
    }
    forall t | t in s.threads ensures Located(s, t) {
      if t != f { assert Located(s, t); }
    }
  }

  lemma AwaitWakes(s: State, f: Tid)
    requires Wakes(s, f) && f in s.threads && s.threads[f].pc == Dead
    ensures Wakes(s, NULL)
  {
    forall m ensures WakeOk(s, NULL, m) {
      assert WakeOk(s, f, m);
    }
  }

  lemma AwaitKeeps(s: State, f: Tid)
    requires Core(s, f) && f in s.threads && s.threads[f].pc == Dead && s.threads[f].refCount == 1
    ensures Core(s, NULL)
  {
    CoreParts(s, f);
    AwaitPlaces(s, f);
    AwaitWakes(s, f);
    EnterLocks(s, s, f);
    hide *;
    CoreWhole(s, NULL);
  }

  /** Burying a thread and then rousing the reaper is rousing it first. */
  lemma ReapIs(s: State, t: Tid)
    requires !s.intr && t != NULL && t !in Q(s, Graveyard) && Appendable(Q(s, RunQueue), Q(s, ReaperWait))
    ensures Reap(s, t) == Enqueue(WakeAll(s, ReaperWait), Graveyard, t)
  {
    hide WakeAll, Enqueue, Appendable;
    EnqueueIs(s, Graveyard, t);
    WakeAllIs(s, ReaperWait);
    BuryLater(s, t);
    WakeAllIs(Enqueue(s, Graveyard, t), ReaperWait);
    EnqueueIs(WakeAll(s, ReaperWait), Graveyard, t);
  }

  /** Moving the reaper's waiters and adding to the graveyard commute. */
  lemma BuryLater(s: State, t: Tid)
    ensures var g := SetQ(s, Graveyard, Q(s, Graveyard) + [t]);
            var w := SetQ(SetQ(s, ReaperWait, []), RunQueue, Q(s, RunQueue) + Q(s, ReaperWait));
            && Q(g, RunQueue) == Q(s, RunQueue) && Q(g, ReaperWait) == Q(s, ReaperWait) && Q(w, Graveyard) == Q(s, Graveyard)
            && SetQ(SetQ(g, ReaperWait, []), RunQueue, Q(s, RunQueue) + Q(s, ReaperWait)) == SetQ(w, Graveyard, Q(s, Graveyard) + [t])
  {
    var g := SetQ(s, Graveyard, Q(s, Graveyard) + [t]);
    var w := SetQ(SetQ(s, ReaperWait, []), RunQueue, Q(s, RunQueue) + Q(s, ReaperWait));
    assert SetQ(SetQ(g, ReaperWait, []), RunQueue, Q(s, RunQueue) + Q(s, ReaperWait)).queues
      == SetQ(w, Graveyard, Q(s, Graveyard) + [t]).queues;
  }

  /** The exiting thread once dead, with its own reference dropped. */
  function Died(s: State, code: int): State
    requires s.current in s.threads
  {
    var th := s.threads[s.current];
    SetThread(s, s.current, th.(exitCode := code, alive := false, pc := Dead, children := {}, refCount := th.refCount - 1))
  }

  lemma DiedIs(s: State, w: State, code: int)
    requires s.current in s.threads && RoleOk(s, s.current) && s.threads[s.current].pc == Running && s.threads[s.current].held == {}
    requires s.current != s.idle && s.current != s.main
    requires w.threads == s.threads && w.current == s.current && w.idle == s.idle && w.main == s.main && w.reaper == s.reaper
    ensures var n := Died(w, code);
            && Local(w, n) && n.mutexes == w.mutexes && Neutral(w.threads[w.current], n.threads[w.current])
            && RoleOk(n, w.current) && RefsKept(w.threads[w.current], n.threads[w.current])
            && w.current != w.reaper && n.current == w.current && n.intr == w.intr && n.preemptOff == w.preemptOff
            && n.threads[n.current].pc == Dead && 0 <= n.threads[n.current].refCount <= 1
            && n.queues == w.queues
  {}

  /** The thread's last steps: its joiners and, once nobody refers to it, the reaper are roused. */
  function Gone(s: State): State
    requires s.current in s.threads
  {
    if s.threads[s.current].refCount == 0 then Enqueue(WakeAll(s, ReaperWait), Graveyard, s.current) else s
  }

  lemma NotBuried(s: State, f: Tid, t: Tid)
    requires Core(s, f) && t in s.threads && (t == f || (s.threads[t].pc == Dead && s.threads[t].refCount == 1))
    ensures forall id :: t !in Q(s, id)
  {
    forall id ensures t !in Q(s, id) {
      assert QueueOk(s, f, id);
    }
  }

  lemma GoneKeeps(s: State)
    requires Core(s, s.current) && s.current in s.threads && !s.intr && !s.preemptOff
    requires s.threads[s.current].pc == Dead && 0 <= s.threads[s.current].refCount <= 1
    ensures Leaving(Gone(s))
    ensures s.threads[s.current].refCount == 0 ==> Gone(s) == Reap(s, s.current)
  {
    CoreParts(s, s.current);
    var f := s.current;
    if s.threads[f].refCount == 0 {
      NotBuried(s, f, f);
      QueueNoDup(s, f, ReaperWait);
      MoveKeeps(s, f, ReaperWait, [], Q(s, ReaperWait));
      ReapIs(s, f);
      WakeAllKeeps(s, f, ReaperWait);
      var w := WakeAll(s, ReaperWait);
      hide Core, WakeAll, Reap, Appendable;
      assert MayEnter(w, Graveyard, f);
      EnterKeeps(w, Graveyard, f);
    } else {
      AwaitKeeps(s, f);
    }
  }

  lemma ExitIs(s: State, code: int)
    requires s.current in s.threads && !s.halted && s.intr && s.current != NULL && s.threads[s.current].refCount > 0
    requires Appendable(Q(s, RunQueue), Q(s, JoinQueue(s.current)))
    ensures var w := WakeAll(Cli(s), JoinQueue(s.current));
            && w.current == s.current && w.current in w.threads
            && var d := Died(w, code);
            && d.current == s.current && d.current in d.threads
            && Depart(Cli(s), code) == (if d.threads[d.current].refCount == 0 then Reap(d, d.current) else d)
            && Exit(s, code) == Schedule(Depart(Cli(s), code))
  {
    var c := s.current;
    var n := Cli(s);
    var th := s.threads[c];
    var d0 := SetThread(n, c, th.(exitCode := code, alive := false, pc := Dead, children := {}));
    assert Q(n, RunQueue) == Q(s, RunQueue) && Q(n, JoinQueue(c)) == Q(s, JoinQueue(c));
    assert Q(d0, RunQueue) == Q(s, RunQueue) && Q(d0, JoinQueue(c)) == Q(s, JoinQueue(c));
    WakeAllIs(n, JoinQueue(c));
    WakeAllIs(d0, JoinQueue(c));
    hide WakeAll, Appendable, Schedule, Reap;
    var w := WakeAll(n, JoinQueue(c));
    var d1 := WakeAll(d0, JoinQueue(c));
    assert d1.queues == w.queues;
    assert SetThread(d1, c, d1.threads[c].(refCount := th.refCount - 1)) == Died(w, code);
  }

  lemma ExitFacts(s: State, code: int)
    requires Inv(s) && Enabled(s, DoExit(code))
    ensures s.current in s.threads && s.current != NULL && !s.halted && s.intr && !s.preemptOff
    ensures RoleOk(s, s.current) && s.threads[s.current].pc != Dead && s.threads[s.current].refCount > 0
  {
    hide Core, Sleepers;
    InvParts(s);
  }

  /** What an exiting thread leaves behind is ready for a dispatch. */
  lemma ExitLeaves(s: State, code: int)
    requires Inv(s) && Enabled(s, DoExit(code))
    ensures var w := WakeAll(Cli(s), JoinQueue(s.current));
            && w.current in w.threads && Died(w, code).current in Died(w, code).threads
            && Leaving(Gone(Died(w, code))) && Exit(s, code) == Schedule(Gone(Died(w, code)))
            && Depart(Cli(s), code) == Gone(Died(w, code))
  {
    hide *;
    InvParts(s);
    ExitFacts(s, code);
    var id := JoinQueue(s.current);
    CliWakesAll(s, id);
    var w := WakeAll(Cli(s), id);
    WokenMeans(s, w, id, [], Q(s, id));
    CoreParts(w, s.current);
    QueueNoDup(s, s.current, id);
    MoveKeeps(s, s.current, id, [], Q(s, id));
    CliRoles(s, id);
    ExitIs(s, code);
    DiedStep(s, w, code);
    GoneKeeps(Died(w, code));
    GoneIs(Died(w, code));
  }

  lemma ExitKeeps(s: State, code: int)
    requires Inv(s) && Enabled(s, DoExit(code))
    ensures Inv(Exit(s, code))
  {
    hide *;
    ExitFacts(s, code);
    ExitLeaves(s, code);
    ScheduleKeeps(Gone(Died(WakeAll(Cli(s), JoinQueue(s.current)), code)));
  }

  lemma CliRoles(s: State, id: QueueId)
    ensures var w := WakeAll(Cli(s), id); w.main == s.main && w.idle == s.idle && w.reaper == s.reaper
  {}

  lemma GoneIs(d: State)
    requires d.current in d.threads && (d.threads[d.current].refCount == 0 ==> Gone(d) == Reap(d, d.current))
    ensures Gone(d) == if d.threads[d.current].refCount == 0 then Reap(d, d.current) else d
  {}

  lemma DiedStep(s: State, w: State, code: int)
    requires s.current in s.threads && RoleOk(s, s.current) && Enabled(s, DoExit(code)) && !s.preemptOff
    requires Core(w, w.current) && w.threads == s.threads && w.current == s.current && w.current in w.threads
    requires w.idle == s.idle && w.main == s.main && w.reaper == s.reaper
    requires Q(w, JoinQueue(s.current)) == [] && !w.intr && w.preemptOff == s.preemptOff
    ensures var n := Died(w, code);
            && n.current in n.threads && Core(n, n.current) && !n.intr && !n.preemptOff
            && n.threads[n.current].pc == Dead && 0 <= n.threads[n.current].refCount <= 1
  {
    DiedIs(s, w, code);
    hide Core, Died, Local, Neutral, RoleOk, RefsKept;
    NeutralKeeps(w, Died(w, code));
    assert Local(w, Died(w, code));
    CoreParts(Died(w, code), w.current);
  }

  // ---------------------------------------------------------------- the owner's join

  /** Thread `t`, once its last reference is gone, in the graveyard. */
  function Buried(s: State, t: Tid): State
    requires t in s.threads
  {
    SetQ(SetThread(s, t, s.threads[t].(ownerRef := false, refCount := 0)), Graveyard, Q(s, Graveyard) + [t])
  }

  /** `t` is dead, waits for its owner's join, and nobody refers to it any more. */
  ghost predicate Forsaken(s: State, t: Tid) {
    && t in s.threads && s.threads[t].pc == Dead && s.threads[t].refCount == 1 && RoleOk(s, t)
    && forall u :: u in s.threads ==> t !in RefsOf(s.threads[u])
  }

  lemma BuryPlaces(s: State, f: Tid, t: Tid)
    requires Places(s, f) && Forsaken(s, t) && t != f
    requires forall id :: t !in Q(s, id)
    ensures Places(Buried(s, t), f)
  {
    var n := Buried(s, t);
    assert QueueOk(s, f, Graveyard);
    AppendNoDup(Q(s, Graveyard), [t]);
    forall id ensures QueueOk(n, f, id) {
      assert QueueOk(s, f, id);
    }
    forall i, j, u | u in Q(n, i) && u in Q(n, j) ensures i == j {
      assert i != Graveyard ==> u in Q(s, i);
      assert j != Graveyard ==> u in Q(s, j);
    }
    forall u | u in n.threads && u != f ensures Located(n, u) {
      if u != t { assert Located(s, u); }
    }
  }

  lemma BuryRest(s: State, f: Tid, t: Tid)
    requires Roles(s) && Reaps(s) && Zeroes(s) && Forsaken(s, t) && Q(s, ReaperWait) == []
    ensures var n := Buried(s, t); Roles(n) && Reaps(n) && Zeroes(n)
  {
    var n := Buried(s, t);
    forall u | u in n.threads ensures RoleOk(n, u) {
      assert RoleOk(s, u);
    }
  }

  lemma BuryRefs(s: State, t: Tid)
    requires Refs(s) && Forsaken(s, t)
    ensures Refs(Buried(s, t))
  {
    var n := Buried(s, t);
    forall u, c | u in n.threads && c in RefsOf(n.threads[u]) ensures RefOk(n, u, c) {
      assert c in RefsOf(s.threads[u]);
      assert RefOk(s, u, c);
    }
    forall u, v, c | u in n.threads && v in n.threads && c in RefsOf(n.threads[u]) && c in RefsOf(n.threads[v]) ensures u == v {
      assert c in RefsOf(s.threads[u]) && c in RefsOf(s.threads[v]);
    }
    forall u, c | u in Q(n, JoinQueue(c)) ensures c in n.threads && n.threads[c].alive {
      assert u in Q(s, JoinQueue(c));
    }
  }

  /** Thread `u` is between locking and unlocking `m`. */
  predicate InsideOf(s: State, u: Tid, m: nat) { u in s.threads && Inside(s.threads[u], m) }

  /** A mutex condition carries over where the same threads are inside. */
  lemma LockCarries(s: State, n: State, f: Tid, m: nat)
    requires LockOk(s, f, m) && MutexOf(n, m) == MutexOf(s, m)
    requires forall u :: InsideOf(n, u, m) <==> InsideOf(s, u, m)
    requires At(n, f, UnlockOwn(m)) <==> At(s, f, UnlockOwn(m))
    requires At(n, f, LockOwn(m)) <==> At(s, f, LockOwn(m))
    ensures LockOk(n, f, m)
  {
    hide Inside, MutexOf, At;
    assert forall u :: u in s.threads && Inside(s.threads[u], m) ==> InsideOf(s, u, m);
    assert forall u :: u in n.threads && Inside(n.threads[u], m) ==> InsideOf(n, u, m);
  }

  lemma LockAt(s: State, f: Tid, m: nat)
    requires Locks(s, f)
    ensures LockOk(s, f, m)
  {}

  lemma BuryLocks(s: State, f: Tid, t: Tid)
    requires Locks(s, f) && t in s.threads
    ensures Locks(Buried(s, t), f)
  {
    hide LockOk;
    var n := Buried(s, t);
    forall m ensures LockOk(n, f, m) {
      LockAt(s, f, m);
      assert forall u :: InsideOf(n, u, m) <==> InsideOf(s, u, m);
      hide InsideOf;
      LockCarries(s, n, f, m);
    }
  }

  lemma BuryWakes(s: State, f: Tid, t: Tid)
    requires Wakes(s, f) && t in s.threads
    ensures Wakes(Buried(s, t), f)
  {
    var n := Buried(s, t);
    forall m ensures WakeOk(n, f, m) {
      assert WakeOk(s, f, m);
      if WokenIn(s, m) {
        var u :| u in Q(s, RunQueue) && At(s, u, LockWoken(m));
        assert u in Q(n, RunQueue) && At(n, u, LockWoken(m));
      }
    }
  }

  lemma BuryPages(s: State, t: Tid)
    requires Pages(s) && t in s.threads
    ensures Pages(Buried(s, t))
  {
    var n := Buried(s, t);
    forall u | u in n.threads ensures PagesOf(n, u) == PagesOf(s, u) {}
  }

  lemma BuryKeeps(s: State, f: Tid, t: Tid)
    requires Core(s, f) && Forsaken(s, t) && t != f && Q(s, ReaperWait) == []
    ensures Core(Buried(s, t), f)
  {
    var n := Buried(s, t);
    CoreParts(s, f);
    assert !n.halted && n.current in n.threads && t in s.threads && s.threads[t].pc == Dead && s.threads[t].refCount == 1;
    hide *;
    NotBuried(s, f, t);
    BuryPlaces(s, f, t);
    BuryRest(s, f, t);
    BuryRefs(s, t);
    BuryLocks(s, f, t);
    BuryWakes(s, f, t);
    BuryPages(s, t);
    CoreWhole(n, f);
  }

  /** The joiner, once its thread has died: interrupts still off, the reference not yet dropped. */
  function Joined(s: State): State
    requires s.current in s.threads
  {
    SetPc(s, s.current, Running)
  }

  lemma JoinedIs(s: State, t: Tid)
    requires s.current in s.threads && !s.halted && FlagsOk(s) && RoleOk(s, s.current)
    requires s.threads[s.current].pc == JoinTest(t) && RefsKept(s.threads[s.current], s.threads[s.current])
    ensures var n := Joined(s);
            && Local(s, n) && n.mutexes == s.mutexes && Neutral(s.threads[s.current], n.threads[s.current])
            && RoleOk(n, s.current) && RefsKept(s.threads[s.current], n.threads[s.current])
            && n.threads[s.current].alive && s.current != s.reaper && n.current == s.current && !n.intr && !n.preemptOff
            && n.queues == s.queues && n.ticks == s.ticks
  {}

  lemma JoinedForsaken(s: State, t: Tid)
    requires Inv(s) && s.threads[s.current].pc == JoinTest(t) && t in s.threads && !s.threads[t].alive
    ensures Forsaken(Joined(s), t) && t != s.current && s.threads[t].refCount == 1 && s.threads[t].ownerRef
  {
    CoreParts(s, s.current);
    var n := Joined(s);
    assert t in RefsOf(s.threads[s.current]);
    assert RefOk(s, s.current, t) && RoleOk(s, t);
    forall u | u in n.threads ensures t !in RefsOf(n.threads[u]) {
      if u != s.current && t in RefsOf(s.threads[u]) {
        assert false;
      }
    }
  }

  lemma WokenForsaken(s: State, w: State, t: Tid)
    requires Forsaken(s, t) && w.threads == s.threads && w.main == s.main && w.idle == s.idle && w.reaper == s.reaper
    ensures Forsaken(w, t)
  {}

  /** The joiner goes on and nobody holds a reference to `t` any more. */
  function Dropped(s: State, t: Tid): State
    requires s.current in s.threads && t in s.threads
  {
    SetThread(Joined(s), t, s.threads[t].(ownerRef := false, refCount := 0))
  }

  lemma JoinStepDrops(s: State, t: Tid)
    requires s.current in s.threads && t in s.threads && !s.threads[t].alive && t != s.current
    requires s.threads[t].refCount == 1 && !s.intr
    ensures JoinStep(s, t) == Sti(Reap(Dropped(s, t), t))
  {
    hide Reap, Sti;
    var n := SetPc(s, s.current, Running);
    var a := SetThread(n, t, n.threads[t].(ownerRef := false));
    assert SetThread(a, t, a.threads[t].(refCount := 0)).threads == Dropped(s, t).threads;
    assert Detach(a, t) == Reap(Dropped(s, t), t);
  }

  /** Burying a thread and rousing the reaper, in either order. */
  lemma DroppedBuried(s: State, t: Tid)
    requires s.current in s.threads && t in s.threads && t != s.current
    ensures var w := SetQ(SetQ(Joined(s), ReaperWait, []), RunQueue, Q(s, RunQueue) + Q(s, ReaperWait));
            var b := SetQ(SetQ(Dropped(s, t), ReaperWait, []), RunQueue, Q(s, RunQueue) + Q(s, ReaperWait));
            SetQ(b, Graveyard, Q(b, Graveyard) + [t]) == Buried(w, t)
  {}

  lemma JoinEndIs(s: State, t: Tid)
    requires s.current in s.threads && t in s.threads && !s.threads[t].alive && t != s.current && t != NULL
    requires s.threads[t].refCount == 1 && !s.intr && t !in Q(s, Graveyard)
    requires Appendable(Q(s, RunQueue), Q(s, ReaperWait))
    ensures var w := WakeAll(Joined(s), ReaperWait);
            w.threads == Joined(s).threads && JoinStep(s, t) == Sti(Buried(w, t))
  {
    var n, b := Joined(s), Dropped(s, t);
    assert n.intr == s.intr && b.intr == s.intr && n.queues == s.queues && b.queues == s.queues;
    hide WakeAll, Appendable, Reap, Enqueue, JoinStep, Dropped, Joined, Buried, Sti;
    JoinStepDrops(s, t);
    WakeAllIs(n, ReaperWait);
    WakeAllIs(b, ReaperWait);
    ReapIs(b, t);
    EnqueueIs(WakeAll(b, ReaperWait), Graveyard, t);
    DroppedBuried(s, t);
  }

  lemma {:induction false} JoinEndFlags(s: State, w: State, t: Tid)
    requires s.current in s.threads && w.threads == Joined(s).threads && w.current == s.current && w.ticks == s.ticks
    requires !w.intr && !w.preemptOff && Q(w, SleepQueue) == Q(s, SleepQueue) && t in w.threads && t != s.current
    ensures var n := Sti(Buried(w, t));
            && FlagsOk(n) && n.current == s.current && n.current in n.threads && n.ticks == s.ticks && Q(n, SleepQueue) == Q(s, SleepQueue)
            && n.threads[n.current].numTicks == s.threads[s.current].numTicks && !Buried(w, t).intr
            && forall u :: u in s.threads && u != s.current ==> u in n.threads && n.threads[u].sleepUntil == s.threads[u].sleepUntil
  {}

  /** `join` finds the thread dead: the last reference goes, and the reaper gets it. */
  lemma JoinEndKeeps(s: State, t: Tid)
    requires Inv(s) && s.threads[s.current].pc == JoinTest(t) && t in s.threads && !s.threads[t].alive
    ensures Inv(JoinStep(s, t))
  {
    InvParts(s);
    OwnRefs(s);
    CoreParts(s, s.current);
    JoinedIs(s, t);
    var j := Joined(s);
    var w := WakeAll(j, ReaperWait);
    assert j.main == s.main && j.idle == s.idle && j.reaper == s.reaper;
    hide *;
    NeutralKeeps(s, j);
    JoinedForsaken(s, t);
    WakeAllKeeps(j, s.current, ReaperWait);
    WakeAllRest(j, ReaperWait);
    SameQueue(s, j, SleepQueue);
    WokenForsaken(j, w, t);
    JoinEndPlace(s, t);
    BuryKeeps(w, s.current, t);
    JoinEndIs(s, t);
    JoinEndFlags(s, w, t);
    var n := Buried(w, t);
    StiIs(n);
    FlagsApart(n, s.current, true, n.preemptOff, n.ticks);
    SleepersApart(s, Sti(n));
    InvWhole(Sti(n));
  }

  lemma WakeAllRest(s: State, id: QueueId)
    requires WakeAll(s, id) == SetQ(SetQ(s, id, []), RunQueue, Q(s, RunQueue) + Q(s, id)) && id != SleepQueue
    ensures var w := WakeAll(s, id);
            && w.main == s.main && w.idle == s.idle && w.reaper == s.reaper && w.current == s.current && w.ticks == s.ticks
            && w.threads == s.threads && w.intr == s.intr && w.preemptOff == s.preemptOff && Q(w, SleepQueue) == Q(s, SleepQueue)
            && w.halted == s.halted
  {}

  lemma JoinEndPlace(s: State, t: Tid)
    requires Inv(s) && t in s.threads && !s.threads[t].alive && s.threads[t].refCount == 1
    ensures t != NULL && t !in Q(s, Graveyard) && Appendable(Q(s, RunQueue), Q(s, ReaperWait))
  {
    CoreParts(s, s.current);
    assert RoleOk(s, t);
    NotBuried(s, s.current, t);
    QueueNoDup(s, s.current, ReaperWait);
    MoveKeeps(s, s.current, ReaperWait, [], Q(s, ReaperWait));
  }

  // ---------------------------------------------------------------- the reaper's rounds

  /** The graveyard becomes the reaper's private chain. */
  function Emptied(s: State): State {
    SetQ(SetQ(s, Doomed, Q(s, Graveyard)), Graveyard, [])
  }

  lemma EmptiedPlaces(s: State, f: Tid)
    requires Places(s, f) && Q(s, Doomed) == []
    ensures Places(Emptied(s), f)
  {
    var n := Emptied(s);
    assert QueueOk(s, f, Graveyard);
    forall id ensures QueueOk(n, f, id) {
      assert QueueOk(s, f, id);
    }
    forall i, j, u | u in Q(n, i) && u in Q(n, j) ensures i == j {
      assert i != Doomed ==> u in Q(s, i);
      assert j != Doomed ==> u in Q(s, j);
    }
    forall u | u in n.threads && u != f ensures Located(n, u) {
      assert Located(s, u);
    }
  }

  lemma EmptiedRest(s: State, f: Tid)
    requires Refs(s) && Wakes(s, f) && Reaps(s) && s.threads[s.reaper].pc == ReapYield
    ensures var n := Emptied(s); Refs(n) && Wakes(n, f) && Reaps(n)
  {
    var n := Emptied(s);
    forall u, c | u in n.threads && c in RefsOf(n.threads[u]) ensures RefOk(n, u, c) {
      assert RefOk(s, u, c);
    }
    forall u, c | u in Q(n, JoinQueue(c)) ensures c in n.threads && n.threads[c].alive {
      assert u in Q(s, JoinQueue(c));
    }
    forall m ensures WakeOk(n, f, m) {
      assert WakeOk(s, f, m);
      if WokenIn(s, m) {
        var u :| u in Q(s, RunQueue) && At(s, u, LockWoken(m));
        assert u in Q(n, RunQueue) && At(n, u, LockWoken(m));
      }
    }
  }

  lemma EmptiedKeeps(s: State, f: Tid)
    requires Core(s, f) && Q(s, Doomed) == [] && s.reaper in s.threads && s.threads[s.reaper].pc == ReapYield
    ensures Core(Emptied(s), f)
  {
    var n := Emptied(s);
    CoreParts(s, f);
    assert n.threads == s.threads && n.mutexes == s.mutexes && n.current == s.current && n.freePages == s.freePages
           && n.main == s.main && n.idle == s.idle && n.reaper == s.reaper && !n.halted;
    hide *;
    EmptiedPlaces(s, f);
    EmptiedRest(s, f);
    SameLocks(s, n, f);
    SameRoles(s, n);
    SamePages(s, n);
    SameZeroes(s, n);
    CoreWhole(n, f);
  }

  lemma ReapTakeIs(s: State)
    requires s.current in s.threads && !s.halted && FlagsOk(s) && RoleOk(s, s.current)
    requires s.threads[s.current].pc == ReapTest && Q(s, Graveyard) != [] && RefsKept(s.threads[s.current], s.threads[s.current])
    ensures var y := SetPc(s.(intr := true), s.current, ReapYield);
            && Local(s, y) && y.mutexes == s.mutexes && Neutral(s.threads[s.current], y.threads[s.current])
            && RoleOk(y, s.current) && RefsKept(s.threads[s.current], y.threads[s.current])
            && y.threads[s.current].alive && s.current == s.reaper && y.current == s.current && y.reaper == s.reaper
            && y.queues == s.queues && y.ticks == s.ticks && y.threads[s.current].pc == ReapYield
            && ReapTestStep(s) == Emptied(y)
            && ReaperAt(y, ReapYield)
            && var n := Emptied(y);
            && FlagsOk(n) && n.current == s.current && n.current in n.threads && n.ticks == s.ticks && Q(n, SleepQueue) == Q(s, SleepQueue)
            && n.threads[n.current].numTicks == s.threads[s.current].numTicks
            && (forall u :: u in s.threads && u != s.current ==> u in n.threads && n.threads[u].sleepUntil == s.threads[u].sleepUntil)
  {
    var y := SetPc(s.(intr := true), s.current, ReapYield);
    assert Q(y, Graveyard) == Q(s, Graveyard);
  }

  /** The reaper takes the whole graveyard. */
  lemma ReapTakeKeeps(s: State)
    requires Inv(s) && s.threads[s.current].pc == ReapTest && Q(s, Graveyard) != []
    ensures Inv(ReapTestStep(s))
  {
    InvParts(s);
    OwnRefs(s);
    ReapTakeIs(s);
    assert Q(s, Doomed) == [];
    var y := SetPc(s.(intr := true), s.current, ReapYield);
    SameQueue(s, y, Doomed);
    hide *;
    NeutralKeeps(s, y);
    EmptiedKeeps(y, s.current);
    SleepersApart(s, Emptied(y));
    InvWhole(Emptied(y));
  }

  // ---------------------------------------------------------------- destruction

  /** The head of the reaper's chain is destroyed and its pages are freed. */
  function Destroyed(s: State, t: Tid): State
    requires t in s.threads && Q(s, Doomed) != []
  {
    SetQ(s, Doomed, Q(s, Doomed)[1..]).(threads := s.threads - {t}, freePages := s.freePages + PagesOf(s, t))
  }

  /** What is known of a thread about to be destroyed. */
  ghost predicate Doomable(s: State, t: Tid) {
    && t in s.threads && s.threads[t].pc == Dead && !s.threads[t].ownerRef && s.threads[t].held == {} && !s.threads[t].alive
    && t != s.main && t != s.idle && t != s.reaper && t != s.current && t != NULL
  }

  lemma HeadDoomable(s: State)
    requires Core(s, s.current) && Q(s, Doomed) != []
    ensures Doomable(s, Q(s, Doomed)[0]) && Q(s, Doomed)[0] in s.threads
  {
    hide Core, Places, Roles, Q, OffCpu, Interruptible;
    var t := Q(s, Doomed)[0];
    assert t in Q(s, Doomed);
    QueueOkAt(s, s.current, Doomed);
    RoleOkAt(s, s.current, t);
  }

  lemma DestroyPlaces(s: State, f: Tid)
    requires Places(s, f) && Q(s, Doomed) != [] && Doomable(s, Q(s, Doomed)[0])
    ensures Places(Destroyed(s, Q(s, Doomed)[0]), f)
  {
    var q := Q(s, Doomed);
    var t := q[0];
    var n := Destroyed(s, t);
    assert QueueOk(s, f, Doomed);
    assert q == [t] + q[1..];
    assert t in q && t !in q[1..];
    forall id ensures QueueOk(n, f, id) {
      assert QueueOk(s, f, id);
    }
    forall i, j, u | u in Q(n, i) && u in Q(n, j) ensures i == j {
      assert u in Q(s, i) && u in Q(s, j);
    }
    forall u | u in n.threads && u != f ensures Located(n, u) {
      assert Located(s, u);
    }
  }

  lemma DestroyRoles(s: State)
    requires Roles(s) && Zeroes(s) && Q(s, Doomed) != [] && Doomable(s, Q(s, Doomed)[0])
    ensures var n := Destroyed(s, Q(s, Doomed)[0]); Roles(n) && Zeroes(n)
  {
    var n := Destroyed(s, Q(s, Doomed)[0]);
    forall u | u in n.threads ensures RoleOk(n, u) {
      assert RoleOk(s, u);
    }
  }

  lemma DestroyRefs(s: State)
    requires Refs(s) && Q(s, Doomed) != [] && Doomable(s, Q(s, Doomed)[0])
    ensures Refs(Destroyed(s, Q(s, Doomed)[0]))
  {
    var n := Destroyed(s, Q(s, Doomed)[0]);
    forall u, c | u in n.threads && c in RefsOf(n.threads[u]) ensures RefOk(n, u, c) {
      assert c in RefsOf(s.threads[u]);
      assert RefOk(s, u, c);
    }
    forall u, v, c | u in n.threads && v in n.threads && c in RefsOf(n.threads[u]) && c in RefsOf(n.threads[v]) ensures u == v {
      assert c in RefsOf(s.threads[u]) && c in RefsOf(s.threads[v]);
    }
    forall u, c | u in Q(n, JoinQueue(c)) ensures c in n.threads && n.threads[c].alive {
      assert u in Q(s, JoinQueue(c));
    }
  }

  lemma DestroyLocks(s: State, f: Tid)
    requires Locks(s, f) && Q(s, Doomed) != [] && Doomable(s, Q(s, Doomed)[0])
    ensures Locks(Destroyed(s, Q(s, Doomed)[0]), f)
  {
    hide LockOk, Q;
    var n := Destroyed(s, Q(s, Doomed)[0]);
    forall m ensures LockOk(n, f, m) {
      LockAt(s, f, m);
      assert forall u :: InsideOf(n, u, m) <==> InsideOf(s, u, m);
      hide InsideOf;
      LockCarries(s, n, f, m);
    }
  }

  lemma DestroyWakes(s: State, f: Tid)
    requires Wakes(s, f) && Q(s, Doomed) != [] && Doomable(s, Q(s, Doomed)[0])
    ensures Wakes(Destroyed(s, Q(s, Doomed)[0]), f)
  {
    var n := Destroyed(s, Q(s, Doomed)[0]);
    forall m ensures WakeOk(n, f, m) {
      assert WakeOk(s, f, m);
      if WokenIn(s, m) {
        var u :| u in Q(s, RunQueue) && At(s, u, LockWoken(m));
        assert u in Q(n, RunQueue) && At(n, u, LockWoken(m));
      }
    }
  }

  lemma DestroyPages(s: State)
    requires Pages(s) && Q(s, Doomed) != [] && Doomable(s, Q(s, Doomed)[0])
    ensures Pages(Destroyed(s, Q(s, Doomed)[0]))
  {
    var t := Q(s, Doomed)[0];
    var n := Destroyed(s, t);
    AppendNoDup(s.freePages, PagesOf(s, t));
    forall u | u in n.threads ensures PagesOf(n, u) == PagesOf(s, u) {}
  }

  lemma DestroyReaps(s: State)
    requires Reaps(s) && Q(s, Doomed) != [] && Doomable(s, Q(s, Doomed)[0]) && s.threads[s.reaper].pc == ReapNext
    ensures Reaps(Destroyed(s, Q(s, Doomed)[0]))
  {}

  /** The reaper's link is read and up to date: what is left is to destroy the head. */
  function Freeing(s: State): State
    requires s.current in s.threads
  {
    SetPc(s, s.current, ReapNext)
  }

  lemma FreeingIs(s: State)
    requires s.current in s.threads && !s.halted && FlagsOk(s) && RoleOk(s, s.current) && s.threads[s.current].pc.ReapFree?
    requires RefsKept(s.threads[s.current], s.threads[s.current])
    ensures var n := Freeing(s);
            && Local(s, n) && n.mutexes == s.mutexes && Neutral(s.threads[s.current], n.threads[s.current])
            && RoleOk(n, s.current) && RefsKept(s.threads[s.current], n.threads[s.current])
            && n.threads[s.current].alive && n.ticks == s.ticks && FlagsOk(n) && ReaperAt(n, n.threads[s.current].pc)
            && n.threads[n.current].numTicks == s.threads[s.current].numTicks
            && Q(n, Doomed) == Q(s, Doomed) && n.current == s.current && n.reaper == s.reaper && n.threads[s.current].pc == ReapNext
            && s.current == s.reaper && n.intr && !n.halted
  {}

  lemma FreeingKeeps(s: State)
    requires Inv(s) && s.threads[s.current].pc.ReapFree?
    ensures Inv(Freeing(s))
  {
    InvParts(s);
    OwnRefs(s);
    hide *;
    FreeingIs(s);
    GoOn(s, Freeing(s));
  }

  /** The link the reaper has read is still that of its chain's head. */
  lemma LinkStill(s: State)
    requires Inv(s) && s.threads[s.current].pc.ReapFree?
    ensures Q(s, Doomed) != [] && s.threads[s.current].pc.next == Second(Q(s, Doomed))
  {
    InvParts(s);
    CoreParts(s, s.current);
  }

  lemma DestroyIs(s: State)
    requires s.current in s.threads && Q(s, Doomed) != [] && s.threads[s.current].pc.ReapFree?
    requires s.threads[s.current].pc.next == Second(Q(s, Doomed)) && s.intr && !s.halted
    requires Doomable(Freeing(s), Q(s, Doomed)[0])
    ensures ReapFreeStep(s, s.threads[s.current].pc.next) == Destroyed(Freeing(s), Q(s, Doomed)[0])
  {
    assert Q(Freeing(s), Doomed) == Q(s, Doomed);
  }

  lemma DestroyFlags(s: State)
    requires s.current in s.threads && FlagsOk(s) && Q(s, Doomed) != [] && Doomable(s, Q(s, Doomed)[0]) && !s.halted
    ensures var n := Destroyed(s, Q(s, Doomed)[0]);
            && n.current in n.threads && n.current == s.current && !n.halted
            && FlagsOk(n) && n.ticks == s.ticks && Q(n, SleepQueue) == Q(s, SleepQueue)
            && n.threads[n.current].numTicks == s.threads[s.current].numTicks
  {}

  /** A destroyed thread was not asleep. */
  lemma DestroySleepers(s: State)
    requires Core(s, s.current) && Sleepers(s) && Q(s, Doomed) != [] && Doomable(s, Q(s, Doomed)[0])
    ensures Sleepers(Destroyed(s, Q(s, Doomed)[0]))
  {
    assert QueueOk(s, s.current, SleepQueue);
  }

  /** The reaper destroys the next thread of its chain. */
  lemma DestroyKeeps(s: State)
    requires Inv(s) && s.threads[s.current].pc.ReapFree?
    ensures Inv(ReapFreeStep(s, s.threads[s.current].pc.next))
  {
    InvParts(s);
    OwnRefs(s);
    LinkStill(s);
    FreeingKeeps(s);
    var p := Freeing(s);
    InvParts(p);
    CoreParts(p, p.current);
    hide *;
    FreeingIs(s);
    HeadDoomable(p);
    DestroyIs(s);
    DestroyPlaces(p, p.current);
    DestroyRoles(p);
    DestroyRefs(p);
    DestroyLocks(p, p.current);
    DestroyWakes(p, p.current);
    DestroyPages(p);
    DestroyReaps(p);
    DestroyFlags(p);
    DestroySleepers(p);
    var n := Destroyed(p, Q(p, Doomed)[0]);
    CoreWhole(n, n.current);
    InvWhole(n);
  }

  lemma ReapNextIs(s: State)
    requires s.current in s.threads && !s.halted && FlagsOk(s) && RoleOk(s, s.current)
    requires s.threads[s.current].pc == ReapNext && RefsKept(s.threads[s.current], s.threads[s.current])
    ensures var n := ReapNextStep(s);
            && Local(s, n) && n.mutexes == s.mutexes && Neutral(s.threads[s.current], n.threads[s.current])
            && RoleOk(n, s.current) && RefsKept(s.threads[s.current], n.threads[s.current])
            && n.threads[s.current].alive && n.ticks == s.ticks && FlagsOk(n) && ReaperAt(n, n.threads[s.current].pc)
            && n.threads[n.current].numTicks == s.threads[s.current].numTicks
  {}

  /** The reaper reads a link, or its chain is used up. */
  lemma ReapNextKeeps(s: State)
    requires Inv(s) && s.threads[s.current].pc == ReapNext
    ensures Inv(ReapNextStep(s))
  {
    InvParts(s);
    OwnRefs(s);
    hide *;
    ReapNextIs(s);
    GoOn(s, ReapNextStep(s));
  }

  // ---------------------------------------------------------------- creation

  /** A new thread in the run queue, on pages off the front of the free list. */
  function Born(s: State, detached: bool, usermode: bool): State
    requires s.current in s.threads && PagesNeeded(usermode) <= |s.freePages|
  {
    var t := s.freePages[0];
    var th := s.threads[s.current];
    var parent := th.(children := if detached then th.children else th.children + {t});
    var child := NewThread(s.freePages[1], if usermode then Some(s.freePages[2]) else None, detached);
    s.(freePages := s.freePages[PagesNeeded(usermode)..],
       threads := s.threads[s.current := parent][t := child],
       queues := s.queues[JoinQueue(t) := []][RunQueue := Q(s, RunQueue) + [t]])
  }

  /** The first free page is no thread yet. */
  lemma FreshPage(s: State, p: nat)
    requires Pages(s) && p in s.freePages
    ensures p !in s.threads && p != NULL && p != s.main
  {
    assert p != s.main;
    assert p in s.threads ==> p in PagesOf(s, p);
  }

  lemma HasMember(q: seq<Tid>)
    requires q != []
    ensures exists u :: u in q
  {
    assert q[0] in q;
  }

  lemma FreshPlace(s: State, f: Tid, t: Tid)
    requires Places(s, f) && Refs(s) && t !in s.threads
    ensures Q(s, JoinQueue(t)) == [] && forall id :: t !in Q(s, id)
  {
    forall id ensures t !in Q(s, id) {
      assert QueueOk(s, f, id);
    }
    if Q(s, JoinQueue(t)) != [] {
      HasMember(Q(s, JoinQueue(t)));
    }
  }

  lemma BornPlaces(s: State, detached: bool, usermode: bool)
    requires s.current in s.threads && PagesNeeded(usermode) <= |s.freePages| && Places(s, s.current)
    requires var t := s.freePages[0]; t !in s.threads && Q(s, JoinQueue(t)) == [] && forall id :: t !in Q(s, id)
    ensures Places(Born(s, detached, usermode), s.current)
  {
    hide Born, Q;
    BornParts(s, detached, usermode);
    var t := s.freePages[0];
    var n := Born(s, detached, usermode);
    assert QueueOk(s, s.current, RunQueue);
    AppendNoDup(Q(s, RunQueue), [t]);
    forall id ensures QueueOk(n, s.current, id) {
      assert QueueOk(s, s.current, id);
      assert id != RunQueue ==> Q(n, id) == Q(s, id);
    }
    forall i, j, u | u in Q(n, i) && u in Q(n, j) ensures i == j {
      assert i != RunQueue ==> u in Q(s, i);
      assert j != RunQueue ==> u in Q(s, j);
    }
    forall u | u in n.threads && u != s.current ensures Located(n, u) {
      if u != t { assert Located(s, u); }
    }
  }

  /** What the birth of a thread is made of. */
  lemma BornParts(s: State, detached: bool, usermode: bool)
    requires s.current in s.threads && PagesNeeded(usermode) <= |s.freePages| && s.freePages[0] !in s.threads
    ensures var n := Born(s, detached, usermode); var t := s.freePages[0];
            && t in n.threads && s.current in n.threads && n.threads.Keys == s.threads.Keys + {t}
            && (forall u :: u in s.threads && u != s.current ==> n.threads[u] == s.threads[u])
            && n.threads[s.current] == s.threads[s.current].(children := n.threads[s.current].children)
            && n.threads[t].pc == Start && n.threads[t].alive && n.threads[t].held == {} && n.threads[t].children == {}
            && n.threads[t].numTicks == 0 && n.threads[t].refCount == (if n.threads[t].ownerRef then 2 else 1)
            && n.mutexes == s.mutexes && n.main == s.main && n.idle == s.idle && n.reaper == s.reaper && n.current == s.current
            && Q(n, RunQueue) == Q(s, RunQueue) + [t] && Q(n, JoinQueue(t)) == []
            && (forall id :: id != RunQueue && id != JoinQueue(t) ==> Q(n, id) == Q(s, id))
  {}

  lemma BornRoles(s: State, detached: bool, usermode: bool)
    requires s.current in s.threads && PagesNeeded(usermode) <= |s.freePages| && Roles(s) && Zeroes(s) && Reaps(s)
    requires var t := s.freePages[0]; t !in s.threads && t != NULL
    requires s.threads[s.current].pc == Running
    ensures var n := Born(s, detached, usermode); Roles(n) && Zeroes(n) && Reaps(n)
  {
    hide Born, Q, RoleOk;
    BornParts(s, detached, usermode);
    var n := Born(s, detached, usermode);
    var t := s.freePages[0];
    forall u | u in n.threads ensures RoleOk(n, u) {
      if u != t {
        assert RoleOk(s, u);
        SameRole(s, n, u);
      } else {
        NewRole(s, n, t);
      }
    }
  }

  lemma SameRole(s: State, n: State, u: Tid)
    requires u in s.threads && u in n.threads && RoleOk(s, u) && n.main == s.main && n.idle == s.idle && n.reaper == s.reaper
    requires n.threads[u] == s.threads[u] || (s.threads[u].pc == Running && n.threads[u] == s.threads[u].(children := n.threads[u].children))
    ensures RoleOk(n, u)
  {}

  lemma NewRole(s: State, n: State, t: Tid)
    requires t in n.threads && n.threads[t].pc == Start && n.threads[t].alive
    requires n.threads[t].refCount == (if n.threads[t].ownerRef then 2 else 1)
    ensures RoleOk(n, t)
  {}

  lemma BornRefs(s: State, detached: bool, usermode: bool)
    requires s.current in s.threads && PagesNeeded(usermode) <= |s.freePages| && Refs(s)
    requires var t := s.freePages[0]; t !in s.threads && Q(s, JoinQueue(t)) == []
    requires s.threads[s.current].pc == Running
    ensures Refs(Born(s, detached, usermode))
  {
    var t := s.freePages[0];
    var n := Born(s, detached, usermode);
    forall u, c | u in n.threads && c in RefsOf(n.threads[u]) ensures RefOk(n, u, c) && (c == t ==> u == s.current) {
      if c in RefsOf(s.threads[u]) { assert RefOk(s, u, c); }
    }
    forall u, v, c | u in n.threads && v in n.threads && c in RefsOf(n.threads[u]) && c in RefsOf(n.threads[v]) ensures u == v {
      if c != t { assert c in RefsOf(s.threads[u]) && c in RefsOf(s.threads[v]); }
    }
    forall u, c | u in Q(n, JoinQueue(c)) ensures c in n.threads && n.threads[c].alive {
      assert u in Q(s, JoinQueue(c));
    }
  }

  lemma BornLocks(s: State, detached: bool, usermode: bool)
    requires s.current in s.threads && PagesNeeded(usermode) <= |s.freePages| && Locks(s, s.current)
    requires s.freePages[0] !in s.threads && s.threads[s.current].pc == Running
    ensures Locks(Born(s, detached, usermode), s.current)
  {
    hide LockOk, Born, Q;
    BornParts(s, detached, usermode);
    var n := Born(s, detached, usermode);
    forall m ensures LockOk(n, s.current, m) {
      LockAt(s, s.current, m);
      assert forall u :: InsideOf(n, u, m) <==> InsideOf(s, u, m);
      hide InsideOf;
      LockCarries(s, n, s.current, m);
    }
  }

  lemma BornWakes(s: State, detached: bool, usermode: bool)
    requires s.current in s.threads && PagesNeeded(usermode) <= |s.freePages| && Wakes(s, s.current)
    requires s.freePages[0] !in s.threads && s.threads[s.current].pc == Running
    ensures Wakes(Born(s, detached, usermode), s.current)
  {
    var n := Born(s, detached, usermode);
    forall m ensures WakeOk(n, s.current, m) {
      assert WakeOk(s, s.current, m);
      if WokenIn(s, m) {
        var u :| u in Q(s, RunQueue) && At(s, u, LockWoken(m));
        assert u in Q(n, RunQueue) && At(n, u, LockWoken(m));
      }
    }
  }

  /** The first `k` pages leave the free list. */
  lemma FreeSplits(q: seq<nat>, k: nat)
    requires NoDup(q) && k <= |q|
    ensures NoDup(q[..k]) && NoDup(q[k..])
    ensures forall p :: p in q[..k] ==> p in q && p !in q[k..]
    ensures forall p :: p in q[k..] ==> p in q
  {}

  lemma ChildPages(s: State, detached: bool, usermode: bool)
    requires s.current in s.threads && PagesNeeded(usermode) <= |s.freePages| && NoDup(s.freePages) && s.freePages[0] != s.main
    ensures var n := Born(s, detached, usermode);
            NoDup(PagesOf(n, s.freePages[0])) && forall p :: p in PagesOf(n, s.freePages[0]) ==> p in s.freePages[..PagesNeeded(usermode)]
  {
    var k := PagesNeeded(usermode);
    var q := s.freePages[..k];
    assert q[0] == s.freePages[0] && q[1] == s.freePages[1];
    if usermode { assert q[2] == s.freePages[2]; }
  }

  lemma OtherPages(s: State, detached: bool, usermode: bool)
    requires s.current in s.threads && PagesNeeded(usermode) <= |s.freePages|
    ensures var n := Born(s, detached, usermode);
            forall u :: u in s.threads && u != s.freePages[0] ==> u in n.threads && PagesOf(n, u) == PagesOf(s, u)
  {}

  lemma BornPages(s: State, detached: bool, usermode: bool)
    requires s.current in s.threads && PagesNeeded(usermode) <= |s.freePages| && Pages(s)
    requires s.freePages[0] !in s.threads
    ensures Pages(Born(s, detached, usermode))
  {
    BornParts(s, detached, usermode);
    BornFree(s, detached, usermode);
    hide PagesOf, Born, NewThread, PagesNeeded, Q;
    var t := s.freePages[0];
    var n := Born(s, detached, usermode);
    var k := PagesNeeded(usermode);
    FreeSplits(s.freePages, k);
    ChildPages(s, detached, usermode);
    OtherPages(s, detached, usermode);
    assert forall u :: u in n.threads <==> u in s.threads || u == t;
    hide NoDup;
  }

  lemma BornFree(s: State, detached: bool, usermode: bool)
    requires s.current in s.threads && PagesNeeded(usermode) <= |s.freePages|
    ensures Born(s, detached, usermode).freePages == s.freePages[PagesNeeded(usermode)..] && Born(s, detached, usermode).main == s.main
  {}

  lemma BornIs(s: State, detached: bool, usermode: bool)
    requires s.current in s.threads && PagesNeeded(usermode) <= |s.freePages| && !s.halted && s.intr
    requires var t := s.freePages[0]; t != s.current && t !in Q(s, RunQueue) && t != NULL
    ensures Spawn(s, detached, usermode) == Born(s, detached, usermode)
  {}

  lemma BornFlags(s: State, detached: bool, usermode: bool)
    requires s.current in s.threads && PagesNeeded(usermode) <= |s.freePages| && FlagsOk(s) && s.freePages[0] !in s.threads
    ensures var n := Born(s, detached, usermode);
            && FlagsOk(n) && n.current == s.current && n.current in n.threads && n.ticks == s.ticks && n.halted == s.halted
            && Q(n, SleepQueue) == Q(s, SleepQueue) && n.threads[n.current].numTicks == s.threads[s.current].numTicks
            && (forall u :: u in s.threads && u != s.current ==> u in n.threads && n.threads[u].sleepUntil == s.threads[u].sleepUntil)
  {}

  lemma SpawnKeeps(s: State, detached: bool, usermode: bool)
    requires Inv(s) && Enabled(s, DoSpawn(detached, usermode))
    ensures Inv(Spawn(s, detached, usermode))
  {
    InvParts(s);
    CoreParts(s, s.current);
    assert s.intr && s.threads[s.current].pc == Running && PagesNeeded(usermode) <= |s.freePages|;
    var t := s.freePages[0];
    var n := Born(s, detached, usermode);
    hide *;
    FreshPage(s, t);
    FreshPlace(s, s.current, t);
    BornPlaces(s, detached, usermode);
    BornRoles(s, detached, usermode);
    BornRefs(s, detached, usermode);
    BornLocks(s, detached, usermode);
    BornWakes(s, detached, usermode);
    BornPages(s, detached, usermode);
    BornIs(s, detached, usermode);
    BornFlags(s, detached, usermode);
    CoreWhole(n, s.current);
    SleepersApart(s, n);
    InvWhole(n);
  }
}

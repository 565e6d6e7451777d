/** A dispatch keeps everything: it wakes exactly the expired sleepers, always finds a
    runnable thread, and hands the processor to the head of the run queue. */
module SchedDispatch {
  import opened SchedModel
  import opened SchedInv
  import opened SchedPlaces

  /** `n` differs from `s` only in queues, flags, tick counts, sleep times and who is current. */
  ghost predicate Alike(s: State, n: State) {
    && n.threads.Keys == s.threads.Keys
    && (forall t :: t in s.threads ==> AlikeThread(s.threads[t], n.threads[t]))
    && n.mutexes == s.mutexes && n.freePages == s.freePages
    && n.main == s.main && n.idle == s.idle && n.reaper == s.reaper
  }

  predicate AlikeThread(a: Thread, b: Thread) {
    b == a.(numTicks := b.numTicks, sleepUntil := b.sleepUntil)
  }

  lemma AlikeRoles(s: State, n: State)
    requires Alike(s, n) && Roles(s)
    ensures Roles(n)
  {
    forall t | t in n.threads ensures RoleOk(n, t) {
      assert RoleOk(s, t) && AlikeThread(s.threads[t], n.threads[t]);
    }
  }

  lemma AlikeRefs(s: State, n: State)
    requires Alike(s, n) && Refs(s)
    requires forall c :: Q(n, JoinQueue(c)) == Q(s, JoinQueue(c))
    ensures Refs(n)
  {
    forall t, c | t in n.threads && c in RefsOf(n.threads[t]) ensures RefOk(n, t, c) {
      assert AlikeThread(s.threads[t], n.threads[t]);
      assert RefOk(s, t, c);
      assert AlikeThread(s.threads[c], n.threads[c]);
    }
    forall t, u, c | t in n.threads && u in n.threads && c in RefsOf(n.threads[t]) && c in RefsOf(n.threads[u]) ensures t == u {
      assert AlikeThread(s.threads[t], n.threads[t]) && AlikeThread(s.threads[u], n.threads[u]);
      assert c in RefsOf(s.threads[t]) && c in RefsOf(s.threads[u]);
    }
    forall t, c | t in Q(n, JoinQueue(c)) ensures c in n.threads && n.threads[c].alive {
      assert t in Q(s, JoinQueue(c));
      assert AlikeThread(s.threads[c], n.threads[c]);
    }
  }

  lemma AlikeLocks(s: State, n: State, f: Tid)
    requires Alike(s, n) && Locks(s, f)
    ensures Locks(n, f)
  {
    forall m ensures LockOk(n, f, m) {
      assert LockOk(s, f, m);
      forall t | t in n.threads ensures Inside(n.threads[t], m) <==> Inside(s.threads[t], m) {
        assert AlikeThread(s.threads[t], n.threads[t]);
      }
      if f in s.threads { assert AlikeThread(s.threads[f], n.threads[f]); }
    }
  }

  lemma AlikePages(s: State, n: State)
    requires Alike(s, n) && Pages(s)
    ensures Pages(n)
  {
    forall t | t in n.threads ensures PagesOf(n, t) == PagesOf(s, t) {
      assert AlikeThread(s.threads[t], n.threads[t]);
    }
  }

  /** Mutex waiters stay looked after while the run queue only grows. */
  lemma AlikeWakes(s: State, n: State, f: Tid)
    requires Alike(s, n) && Wakes(s, f)
    requires forall m :: Q(n, MutexQueue(m)) == Q(s, MutexQueue(m))
    requires forall t :: t in Q(s, RunQueue) ==> t in Q(n, RunQueue)
    ensures Wakes(n, f)
  {
    forall m ensures WakeOk(n, f, m) {
      assert WakeOk(s, f, m);
      if WokenIn(s, m) {
        var t :| t in Q(s, RunQueue) && At(s, t, LockWoken(m));
        assert AlikeThread(s.threads[t], n.threads[t]);
        assert t in Q(n, RunQueue) && At(n, t, LockWoken(m));
      }
      if f in s.threads { assert AlikeThread(s.threads[f], n.threads[f]); }
    }
  }

  // ---------------------------------------------------------------- waking sleepers

  /** What waking the sleepers does to the state. */
  lemma WakeSleepersIs(s: State)
    requires Appendable(Q(s, RunQueue), Due(s, Q(s, SleepQueue))) && !s.intr && !s.halted
    ensures var due := Due(s, Q(s, SleepQueue)); var w := WakeSleepers(s);
            && w == SetQ(SetQ(s, SleepQueue, NotDue(s, Q(s, SleepQueue))), RunQueue, Q(s, RunQueue) + due)
                    .(threads := ClearSleep(s.threads, due))
            && Alike(s, w) && w.threads == ClearSleep(s.threads, due)
            && !w.halted && w.current == s.current && w.intr == s.intr && w.preemptOff == s.preemptOff && w.ticks == s.ticks
            && Q(w, RunQueue) == Q(s, RunQueue) + due && (forall t :: t in Q(s, RunQueue) ==> t in Q(w, RunQueue))
            && (s.current in s.threads ==> w.current in w.threads)
            && Q(w, SleepQueue) == NotDue(s, Q(s, SleepQueue))
            && (forall id :: id != RunQueue && id != SleepQueue ==> Q(w, id) == Q(s, id))
  {}

  lemma WakeSleepersPlaces(s: State)
    requires Leaving(s)
    ensures QueueOk(s, NULL, SleepQueue) && !s.intr && !s.preemptOff
    ensures Appendable(Q(s, RunQueue), Due(s, Q(s, SleepQueue)))
    ensures Places(WakeSleepers(s), NULL)
  {
    var q := Q(s, SleepQueue);
    assert QueueOk(s, NULL, SleepQueue);
    CoreParts(s, NULL);
    DueSplits(s, q);
    MovePlaces(s, NULL, SleepQueue, NotDue(s, q), Due(s, q));
    hide Core, Places, Roles, Refs, Locks, Wakes, Pages, Reaps, Zeroes, WakeSleepers, Due, NotDue, Appendable;
    WakeSleepersIs(s);
    var n := SetQ(SetQ(s, SleepQueue, NotDue(s, q)), RunQueue, Q(s, RunQueue) + Due(s, q));
    SamePlaces(n, WakeSleepers(s), NULL);
  }

  /** A sleeper left behind is not due. */
  lemma LeftAsleep(s: State, w: State)
    requires QueueOk(s, NULL, SleepQueue)
    requires Q(w, SleepQueue) == NotDue(s, Q(s, SleepQueue)) && w.ticks == s.ticks
    requires w.threads == ClearSleep(s.threads, Due(s, Q(s, SleepQueue)))
    ensures forall t :: t in Q(w, SleepQueue) ==> t in w.threads && w.ticks < w.threads[t].sleepUntil
  {
    DueSplits(s, Q(s, SleepQueue));
  }

  lemma AlikeReaps(s: State, w: State)
    requires Reaps(s) && Alike(s, w)
    requires Q(w, Graveyard) == Q(s, Graveyard) && Q(w, ReaperWait) == Q(s, ReaperWait) && Q(w, Doomed) == Q(s, Doomed)
    ensures Reaps(w)
  {
    assert AlikeThread(s.threads[s.reaper], w.threads[w.reaper]);
  }

  lemma ClearSleepZeroes(s: State, w: State, ts: seq<Tid>)
    requires Zeroes(s) && w.threads == ClearSleep(s.threads, ts) && w.current == s.current
    ensures Zeroes(w)
  {}

  lemma CoreParts(s: State, f: Tid)
    requires Core(s, f)
    ensures NULL !in s.threads && Core(s, f)
  {}

  lemma QueueOkAt(s: State, f: Tid, id: QueueId)
    requires Core(s, f)
    ensures QueueOk(s, f, id)
  {}

  lemma RoleOkAt(s: State, f: Tid, t: Tid)
    requires Core(s, f) && t in s.threads
    ensures RoleOk(s, t) && t != NULL
  {}

  lemma CoreWhole(s: State, f: Tid)
    requires !s.halted && s.current in s.threads
    requires Places(s, f) && Roles(s) && Refs(s) && Locks(s, f) && Wakes(s, f) && Reaps(s) && Pages(s) && Zeroes(s)
    ensures Core(s, f)
  {}

  lemma LeavingParts(s: State)
    requires Leaving(s)
    ensures Core(s, NULL) && !s.intr && !s.preemptOff
  {}

  lemma LeavingWhole(s: State)
    requires Core(s, NULL) && !s.intr && !s.preemptOff
    ensures Leaving(s)
  {}

  lemma WakeSleepersCore(s: State)
    requires Leaving(s)
    ensures Core(WakeSleepers(s), NULL)
  {
    hide *;
    var w := WakeSleepers(s);
    LeavingParts(s);
    CoreParts(s, NULL);
    WakeSleepersPlaces(s);
    WakeSleepersIs(s);
    AlikeRoles(s, w);
    AlikeRefs(s, w);
    AlikeLocks(s, w, NULL);
    AlikePages(s, w);
    AlikeWakes(s, w, NULL);
    AlikeReaps(s, w);
    ClearSleepZeroes(s, w, Due(s, Q(s, SleepQueue)));
    CoreWhole(w, NULL);
  }

  /** Waking sleepers keeps the scheduler's invariants; no sleeper left behind is due. */
  lemma WakeSleepersKeeps(s: State)
    requires Leaving(s)
    ensures var w := WakeSleepers(s);
            Leaving(w) && forall t :: t in Q(w, SleepQueue) ==> t in w.threads && w.ticks < w.threads[t].sleepUntil
  {
    hide *;
    var w := WakeSleepers(s);
    LeavingParts(s);
    CoreParts(s, NULL);
    WakeSleepersPlaces(s);
    WakeSleepersIs(s);
    LeftAsleep(s, w);
    WakeSleepersCore(s);
    LeavingWhole(w);
  }

  // ---------------------------------------------------------------- the head of the run queue

  lemma IdleRuns(s: State)
    requires Leaving(s)
    ensures s.idle in Q(s, RunQueue)
  {
    assert Located(s, s.idle) && RoleOk(s, s.idle);
  }

  /** When `r`, off the processor until now, takes it, the mutex conditions carry over. */
  lemma TakeLocks(s: State, r: Tid)
    requires Locks(s, NULL) && NULL !in s.threads && r in s.threads && OffCpu(s.threads[r].pc)
    ensures Locks(s, r)
  {
    forall m ensures LockOk(s, r, m) {
      assert LockOk(s, NULL, m);
    }
  }

  lemma TakeWakes(s: State, n: State, r: Tid)
    requires Alike(s, n) && Wakes(s, NULL) && NULL !in s.threads
    requires forall m :: Q(n, MutexQueue(m)) == Q(s, MutexQueue(m))
    requires forall t :: t in Q(s, RunQueue) ==> t == r || t in Q(n, RunQueue)
    ensures Wakes(n, r)
  {
    forall m ensures WakeOk(n, r, m) {
      assert WakeOk(s, NULL, m);
      if WokenIn(s, m) {
        var t :| t in Q(s, RunQueue) && At(s, t, LockWoken(m));
        assert AlikeThread(s.threads[t], n.threads[t]);
        assert At(n, t, LockWoken(m));
      }
    }
  }

  /** Dispatch of the head `r` of the run queue, without the wake-up before it. */
  function TakeHead(s: State): State
    requires s.current in s.threads && Q(s, RunQueue) != []
  {
    SwitchTo(SetQ(s, RunQueue, Q(s, RunQueue)[1..]), Q(s, RunQueue)[0])
  }

  lemma TakeHeadPlaces(s: State)
    requires s.current in s.threads && Places(s, NULL) && NULL !in s.threads && Q(s, RunQueue) != []
    ensures var r := Q(s, RunQueue)[0];
            r in s.threads && OffCpu(s.threads[r].pc) && Places(TakeHead(s), r)
  {
    var r := Q(s, RunQueue)[0];
    TakePlaces(s);
    SamePlaces(SetQ(s, RunQueue, Q(s, RunQueue)[1..]), TakeHead(s), r);
  }

  lemma TakeHeadAlike(s: State)
    requires s.current in s.threads && Q(s, RunQueue) != []
    ensures var r := Q(s, RunQueue)[0]; var n := TakeHead(s);
            && Alike(s, n) && n.current == r && n.halted == s.halted && n.intr == s.intr && n.preemptOff == s.preemptOff
            && n.ticks == s.ticks
            && (forall id :: id != RunQueue ==> Q(n, id) == Q(s, id))
            && (forall t :: t in Q(s, RunQueue) ==> t == r || t in Q(n, RunQueue))
            && (forall t :: t in s.threads ==> n.threads[t].sleepUntil == s.threads[t].sleepUntil)
            && (r in s.threads && Zeroes(s) ==> Zeroes(n))
            && (r in s.threads && Reaps(s) ==> Reaps(n))
  {
    var q := Q(s, RunQueue);
    assert forall t :: t in q ==> t == q[0] || t in q[1..];
  }

  lemma TakeFlags(s: State, n: State)
    requires n.current in s.threads && Alike(s, n) && OffCpu(s.threads[n.current].pc)
    requires !n.intr && !n.preemptOff
    ensures FlagsOk(n)
  {
    assert AlikeThread(s.threads[n.current], n.threads[n.current]);
  }

  lemma TakeKeeps(s: State)
    requires Leaving(s) && Q(s, RunQueue) != []
    ensures var n := TakeHead(s); Core(n, n.current) && FlagsOk(n)
  {
    hide *;
    LeavingParts(s);
    CoreParts(s, NULL);
    var r := Q(s, RunQueue)[0];
    var n := TakeHead(s);
    TakeHeadPlaces(s);
    TakeHeadAlike(s);
    TakeFlags(s, n);
    AlikeRoles(s, n);
    AlikeRefs(s, n);
    AlikePages(s, n);
    TakeLocks(s, r);
    AlikeLocks(s, n, r);
    TakeWakes(s, n, r);
    CoreWhole(n, r);
  }

  /** No sleeper is due: none is overdue by more than the tick count of the new current thread. */
  lemma TakeSleepers(w: State, n: State)
    requires n.current in n.threads && Alike(w, n) && n.ticks == w.ticks && Q(n, SleepQueue) == Q(w, SleepQueue)
    requires forall t :: t in Q(w, SleepQueue) ==> t in w.threads && w.ticks < w.threads[t].sleepUntil
    requires forall t :: t in w.threads ==> n.threads[t].sleepUntil == w.threads[t].sleepUntil
    ensures Sleepers(n)
  {}

  lemma ScheduleIs(s: State)
    requires s.current in s.threads && !s.intr && !s.preemptOff
    requires WakeSleepers(s).current in WakeSleepers(s).threads && Q(WakeSleepers(s), RunQueue) != []
    ensures Schedule(s) == TakeHead(WakeSleepers(s))
  {}

  lemma InvWhole(s: State)
    requires Core(s, s.current) && FlagsOk(s) && Sleepers(s)
    ensures Inv(s)
  {}

  /** A dispatch from a sound state never fails and leads to a sound state. */
  lemma ScheduleKeeps(s: State)
    requires Leaving(s)
    ensures Inv(Schedule(s))
  {
    var w := WakeSleepers(s);
    CoreParts(s, NULL);
    assert !s.intr && !s.preemptOff;
    WakeSleepersKeeps(s);
    CoreParts(w, NULL);
    IdleRuns(w);
    hide *;
    TakeKeeps(w);
    ScheduleIs(s);
    TakeHeadAlike(w);
    CoreParts(TakeHead(w), TakeHead(w).current);
    TakeSleepers(w, TakeHead(w));
    InvWhole(Schedule(s));
  }

  /** Every thread comes back from `schedule` with interrupts off and preemption on, at a point
      where it gave up the processor or has not begun. */
  lemma ResumesQuiet(s: State)
    requires Leaving(s)
    ensures var n := Schedule(s);
            n.current in n.threads && OffCpu(n.threads[n.current].pc) && !n.intr && !n.preemptOff && n.threads[n.current].numTicks == 0
  {
    var w := WakeSleepers(s);
    WakeSleepersKeeps(s);
    CoreParts(w, NULL);
    LeavingFlags(s);
    LeavingFlags(w);
    IdleRuns(w);
    hide *;
    ScheduleIs(s);
    TakeHeadPlaces(w);
    TakeHeadAlike(w);
    TakeKeeps(w);
    TakenPc(w, Q(w, RunQueue)[0]);
  }

  lemma LeavingFlags(s: State)
    requires Leaving(s)
    ensures s.current in s.threads && !s.intr && !s.preemptOff && Places(s, NULL) && Zeroes(s)
  {}

  lemma TakenPc(s: State, r: Tid)
    requires s.current in s.threads && Q(s, RunQueue) != [] && Q(s, RunQueue)[0] == r && r in s.threads && Zeroes(s)
    ensures var n := TakeHead(s); r in n.threads && n.threads[r].pc == s.threads[r].pc && n.threads[r].numTicks == 0
  {}
}

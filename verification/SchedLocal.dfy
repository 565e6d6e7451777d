/** The three kinds of change the kernel calls are made of: the current thread changes its own
    record, it takes its place in a queue, and waiting threads are made runnable. */
module SchedLocal {
  import opened Basics
  import opened SchedModel
  import opened SchedInv
  import opened SchedPlaces
  import opened SchedDispatch

  // ---------------------------------------------------------------- the current thread's own record

  /** `n` differs from `s` only in the current thread's record, in mutexes, flags and ticks. */
  ghost predicate Local(s: State, n: State) {
    && s.current in s.threads && s.current in n.threads && n.current == s.current
    && n.threads == s.threads[s.current := n.threads[s.current]]
    && n.threads[s.current].stack == s.threads[s.current].stack
    && n.threads[s.current].userStack == s.threads[s.current].userStack
    && n.queues == s.queues && n.freePages == s.freePages && n.halted == s.halted
    && n.main == s.main && n.idle == s.idle && n.reaper == s.reaper
  }

  /** A thread whose record goes from `a` to `b` keeps its references in order. */
  predicate RefsKept(a: Thread, b: Thread) {
    RefsOf(b) <= RefsOf(a) && b.ownerRef == a.ownerRef && (b.pc.JoinTest? ==> b.pc.t !in b.children)
  }

  lemma LocalPlaces(s: State, n: State)
    requires Local(s, n) && Places(s, s.current)
    ensures Places(n, s.current)
  {
    SamePlaces(s, n, s.current);
  }

  lemma LocalRoles(s: State, n: State)
    requires Local(s, n) && Roles(s) && RoleOk(n, s.current)
    ensures Roles(n)
  {
    forall t | t in n.threads ensures RoleOk(n, t) {
      assert RoleOk(s, t);
    }
  }

  lemma LocalRefs(s: State, n: State)
    requires Local(s, n) && Refs(s) && RefsKept(s.threads[s.current], n.threads[s.current])
    requires n.threads[s.current].alive || Q(s, JoinQueue(s.current)) == []
    ensures Refs(n)
  {
    forall t, c | t in n.threads && c in RefsOf(n.threads[t]) ensures RefOk(n, t, c) {
      assert c in RefsOf(s.threads[t]);
      assert RefOk(s, t, c);
    }
    forall t, u, c | t in n.threads && u in n.threads && c in RefsOf(n.threads[t]) && c in RefsOf(n.threads[u]) ensures t == u {
      assert c in RefsOf(s.threads[t]) && c in RefsOf(s.threads[u]);
    }
    forall t, c | t in Q(n, JoinQueue(c)) ensures c in n.threads && n.threads[c].alive {
      assert t in Q(s, JoinQueue(c));
    }
  }

  lemma LocalPages(s: State, n: State)
    requires Local(s, n) && Pages(s)
    ensures Pages(n)
  {
    forall t | t in n.threads ensures PagesOf(n, t) == PagesOf(s, t) {}
  }

  lemma LocalReaps(s: State, n: State)
    requires Local(s, n) && Reaps(s) && (s.current == s.reaper ==> ReaperAt(n, n.threads[s.current].pc))
    ensures Reaps(n)
  {}

  lemma LocalZeroes(s: State, n: State)
    requires Local(s, n) && Zeroes(s)
    ensures Zeroes(n)
  {}

  /** Only the mutex conditions are left to be checked after a change to one's own record. */
  lemma LocalKeeps(s: State, n: State)
    requires Core(s, s.current) && Local(s, n)
    requires RoleOk(n, s.current) && RefsKept(s.threads[s.current], n.threads[s.current])
    requires n.threads[s.current].alive || Q(s, JoinQueue(s.current)) == []
    requires s.current == s.reaper ==> ReaperAt(n, n.threads[s.current].pc)
    requires Locks(n, s.current) && Wakes(n, s.current)
    ensures Core(n, s.current)
  {
    CoreParts(s, s.current);
    assert !n.halted && n.current in n.threads;
    hide *;
    LocalPlaces(s, n);
    LocalRoles(s, n);
    LocalRefs(s, n);
    LocalPages(s, n);
    LocalReaps(s, n);
    LocalZeroes(s, n);
    CoreWhole(n, s.current);
  }

  /** Program points the mutex conditions do not mention. */
  predicate Plain(pc: Pc) {
    !pc.LockTest? && !pc.LockOwn? && !pc.LockLeave? && !pc.LockWoken? && !pc.UnlockClear? && !pc.UnlockOwn? && !pc.UnlockWake?
  }

  predicate Neutral(a: Thread, b: Thread) {
    b.held == a.held && (b.pc == a.pc || (Plain(a.pc) && Plain(b.pc)))
  }

  lemma NeutralMutexes(s: State, n: State)
    requires Local(s, n) && n.mutexes == s.mutexes && Locks(s, s.current) && Wakes(s, s.current)
    requires Neutral(s.threads[s.current], n.threads[s.current])
    ensures Locks(n, s.current) && Wakes(n, s.current)
  {
    forall m ensures LockOk(n, s.current, m) {
      assert LockOk(s, s.current, m);
    }
    forall m ensures WakeOk(n, s.current, m) {
      assert WakeOk(s, s.current, m);
      if WokenIn(s, m) {
        var t :| t in Q(s, RunQueue) && At(s, t, LockWoken(m));
        assert t in Q(n, RunQueue) && At(n, t, LockWoken(m));
      }
    }
  }

  /** A change to one's own record, away from mutexes, keeps everything. */
  lemma NeutralKeeps(s: State, n: State)
    requires Core(s, s.current) && Local(s, n) && n.mutexes == s.mutexes
    requires Neutral(s.threads[s.current], n.threads[s.current])
    requires RoleOk(n, s.current) && RefsKept(s.threads[s.current], n.threads[s.current])
    requires n.threads[s.current].alive || Q(s, JoinQueue(s.current)) == []
    requires s.current == s.reaper ==> ReaperAt(n, n.threads[s.current].pc)
    ensures Core(n, s.current)
  {
    CoreParts(s, s.current);
    hide *;
    NeutralMutexes(s, n);
    LocalKeeps(s, n);
  }

  // ---------------------------------------------------------------- taking a place

  lemma EnterLocks(s: State, n: State, f: Tid)
    requires Locks(s, f) && n.threads == s.threads && n.mutexes == s.mutexes && NULL !in s.threads
    requires f in s.threads && !s.threads[f].pc.LockOwn? && !s.threads[f].pc.UnlockOwn?
    ensures Locks(n, NULL)
  {
    forall m ensures LockOk(n, NULL, m) {
      assert LockOk(s, f, m);
    }
  }

  lemma EnterWakes(s: State, n: State, id: QueueId, f: Tid)
    requires Wakes(s, f) && n == SetQ(s, id, Q(s, id) + [f]) && f in s.threads
    requires !PreOff(s.threads[f].pc)
    requires id.MutexQueue? ==> MutexOf(s, id.m).locked
    requires s.threads[f].pc.LockWoken? ==> id == MutexQueue(s.threads[f].pc.m)
    ensures Wakes(n, NULL)
  {
    forall m ensures WakeOk(n, NULL, m) {
      assert WakeOk(s, f, m);
      if WokenIn(s, m) {
        var t :| t in Q(s, RunQueue) && At(s, t, LockWoken(m));
        assert t in Q(n, RunQueue) && At(n, t, LockWoken(m));
      }
    }
  }

  lemma EnterRefs(s: State, n: State, id: QueueId, t: Tid)
    requires Refs(s) && n == SetQ(s, id, Q(s, id) + [t])
    requires id.JoinQueue? ==> id.t in s.threads && s.threads[id.t].alive
    ensures Refs(n)
  {
    forall u, c | u in n.threads && c in RefsOf(n.threads[u]) ensures RefOk(n, u, c) {
      assert RefOk(s, u, c);
    }
    forall u, c | u in Q(n, JoinQueue(c)) ensures c in n.threads && n.threads[c].alive {
      assert id != JoinQueue(c) ==> u in Q(s, JoinQueue(c));
    }
  }

  lemma SameRoles(s: State, n: State)
    requires Roles(s) && n.threads == s.threads && n.main == s.main && n.idle == s.idle && n.reaper == s.reaper
    ensures Roles(n)
  {
    forall t | t in n.threads ensures RoleOk(n, t) {
      assert RoleOk(s, t);
    }
  }

  lemma SamePages(s: State, n: State)
    requires Pages(s) && n.threads == s.threads && n.main == s.main && n.freePages == s.freePages
    ensures Pages(n)
  {
    forall t | t in n.threads ensures PagesOf(n, t) == PagesOf(s, t) {}
  }

  lemma SameZeroes(s: State, n: State)
    requires Zeroes(s) && n.threads == s.threads && n.current == s.current
    ensures Zeroes(n)
  {}

  lemma EnterReaps(s: State, n: State, id: QueueId, t: Tid)
    requires Reaps(s) && n == SetQ(s, id, Q(s, id) + [t]) && id != Doomed
    requires id == ReaperWait ==> Q(s, Graveyard) == []
    requires id == Graveyard ==> Q(s, ReaperWait) == []
    ensures Reaps(n)
  {}

  /** The thread on the processor may be put into queue `id`. */
  ghost predicate MayEnter(s: State, id: QueueId, f: Tid) {
    && f in s.threads && Fits(s.threads[f], id) && id != Doomed
    && (id.MutexQueue? ==> MutexOf(s, id.m).locked)
    && (s.threads[f].pc.LockWoken? ==> id == MutexQueue(s.threads[f].pc.m))
    && (id.JoinQueue? ==> id.t in s.threads && s.threads[id.t].alive)
    && (id == ReaperWait ==> Q(s, Graveyard) == [])
    && (id == Graveyard ==> Q(s, ReaperWait) == [])
  }

  lemma MayEnterMeans(s: State, id: QueueId, f: Tid)
    requires MayEnter(s, id, f)
    ensures f in s.threads && !PreOff(s.threads[f].pc) && Fits(s.threads[f], id)
    ensures !s.threads[f].pc.LockOwn? && !s.threads[f].pc.UnlockOwn?
  {}

  lemma EnqueueIs(s: State, id: QueueId, t: Tid)
    requires !s.intr && t != NULL && t !in Q(s, id)
    ensures Enqueue(s, id, t) == SetQ(s, id, Q(s, id) + [t])
    ensures var n := Enqueue(s, id, t);
            && n.threads == s.threads && n.mutexes == s.mutexes && n.current == s.current && n.halted == s.halted
            && n.intr == s.intr && n.preemptOff == s.preemptOff && n.freePages == s.freePages
            && n.main == s.main && n.idle == s.idle && n.reaper == s.reaper && n.ticks == s.ticks
  {}

  /** The thread on the processor takes its place. */
  lemma EnterKeeps(s: State, id: QueueId, f: Tid)
    requires Core(s, f) && MayEnter(s, id, f) && !s.intr
    ensures Core(Enqueue(s, id, f), NULL)
  {
    CoreParts(s, f);
    MayEnterMeans(s, id, f);
    EnqueuePlaces(s, id, f);
    EnqueueIs(s, id, f);
    var n := Enqueue(s, id, f);
    EnterReaps(s, n, id, f);
    EnterWakes(s, n, id, f);
    EnterRefs(s, n, id, f);
    hide *;
    EnterLocks(s, n, f);
    SameRoles(s, n);
    SamePages(s, n);
    SameZeroes(s, n);
    CoreWhole(n, NULL);
  }

  /** The current thread in its place in queue `id`. */
  function Entered(b: State, id: QueueId, pc: Pc): State
    requires b.current in b.threads
  {
    Enqueue(SetPc(b, b.current, pc), id, b.current)
  }

  lemma EnteredFlags(b: State, id: QueueId, pc: Pc)
    requires b.current in b.threads
    ensures var e := Entered(b, id, pc);
            && e.current in e.threads && e.intr == b.intr && e.preemptOff == b.preemptOff && Block(b, id, pc) == Schedule(e)
            && e == Enqueue(SetPc(b, b.current, pc), id, b.current) && SetPc(b, b.current, pc).current == b.current
            && SetPc(b, b.current, pc).intr == b.intr
  {}

  /** The current thread, having set its program point, takes its place: all is ready for a dispatch. */
  lemma BlockLeaves(s: State, id: QueueId, pc: Pc)
    requires s.current in s.threads && Core(SetPc(s, s.current, pc), s.current)
    requires MayEnter(SetPc(s, s.current, pc), id, s.current) && !s.intr && !s.preemptOff
    ensures s.current in s.threads && Leaving(Entered(s, id, pc))
  {
    EnteredFlags(s, id, pc);
    hide *;
    EnterKeeps(SetPc(s, s.current, pc), id, s.current);
    LeavingWhole(Entered(s, id, pc));
  }

  /** ... and another thread is dispatched. */
  lemma BlockKeeps(s: State, id: QueueId, pc: Pc)
    requires s.current in s.threads && Core(SetPc(s, s.current, pc), s.current)
    requires MayEnter(SetPc(s, s.current, pc), id, s.current) && !s.intr && !s.preemptOff
    ensures Inv(Block(s, id, pc))
  {
    EnteredFlags(s, id, pc);
    hide *;
    BlockLeaves(s, id, pc);
    ScheduleKeeps(Entered(s, id, pc));
  }

  /** Flags, ticks and the rest of the record do not enter the invariants. */
  lemma FlagsApart(s: State, f: Tid, intr: bool, preemptOff: bool, ticks: nat)
    requires Core(s, f)
    ensures Core(s.(intr := intr, preemptOff := preemptOff, ticks := ticks), f)
  {
    var n := s.(intr := intr, preemptOff := preemptOff, ticks := ticks);
    CoreParts(s, f);
    QueuesApart(s, n, f);
    assert n.threads == s.threads && n.mutexes == s.mutexes && n.current == s.current && n.freePages == s.freePages
           && n.main == s.main && n.idle == s.idle && n.reaper == s.reaper && !n.halted;
    hide *;
    SameLocks(s, n, f);
    SameRoles(s, n);
    SamePages(s, n);
    SameZeroes(s, n);
    CoreWhole(n, f);
  }

  lemma QueuesApart(s: State, n: State, f: Tid)
    requires Core(s, f) && n == s.(intr := n.intr, preemptOff := n.preemptOff, ticks := n.ticks)
    ensures Places(n, f) && Refs(n) && Wakes(n, f) && Reaps(n)
  {
    CoreParts(s, f);
    SamePlaces(s, n, f);
    forall u, c | u in n.threads && c in RefsOf(n.threads[u]) ensures RefOk(n, u, c) {
      assert RefOk(s, u, c);
    }
    forall u, c | u in Q(n, JoinQueue(c)) ensures c in n.threads && n.threads[c].alive {
      assert u in Q(s, JoinQueue(c));
    }
    forall m ensures WakeOk(n, f, m) {
      assert WakeOk(s, f, m);
      if WokenIn(s, m) {
        var t :| t in Q(s, RunQueue) && At(s, t, LockWoken(m));
        assert t in Q(n, RunQueue) && At(n, t, LockWoken(m));
      }
    }
  }

  // ---------------------------------------------------------------- making waiters runnable

  lemma MoveWakes(s: State, n: State, f: Tid, from: QueueId, kept: seq<Tid>, moved: seq<Tid>)
    requires Wakes(s, f) && QueueOk(s, f, from) && Splits(s, from, kept, moved)
    requires from != RunQueue && n == SetQ(SetQ(s, from, kept), RunQueue, Q(s, RunQueue) + moved)
    ensures Wakes(n, f)
  {
    forall m ensures WakeOk(n, f, m) {
      assert WakeOk(s, f, m);
      if WokenIn(s, m) {
        var t :| t in Q(s, RunQueue) && At(s, t, LockWoken(m));
        assert t in Q(n, RunQueue) && At(n, t, LockWoken(m));
      } else if from == MutexQueue(m) && moved != [] {
        assert moved[0] in Q(s, from);
        assert moved[0] in Q(n, RunQueue) && At(n, moved[0], LockWoken(m));
      } else if from == MutexQueue(m) && kept != [] {
        assert kept[0] in Q(s, from);
      }
    }
  }

  lemma MoveRefs(s: State, n: State, f: Tid, from: QueueId, kept: seq<Tid>, moved: seq<Tid>)
    requires Refs(s) && Splits(s, from, kept, moved)
    requires n == SetQ(SetQ(s, from, kept), RunQueue, Q(s, RunQueue) + moved)
    ensures Refs(n)
  {
    forall u, c | u in n.threads && c in RefsOf(n.threads[u]) ensures RefOk(n, u, c) {
      assert RefOk(s, u, c);
    }
    forall u, c | u in Q(n, JoinQueue(c)) ensures c in n.threads && n.threads[c].alive {
      assert u in Q(s, JoinQueue(c));
    }
  }

  lemma MoveReaps(s: State, n: State, from: QueueId, kept: seq<Tid>, moved: seq<Tid>)
    requires Reaps(s) && Splits(s, from, kept, moved) && from != Graveyard && from != Doomed
    requires n == SetQ(SetQ(s, from, kept), RunQueue, Q(s, RunQueue) + moved)
    ensures Reaps(n)
  {}

  lemma SameLocks(s: State, n: State, f: Tid)
    requires Locks(s, f) && n.threads == s.threads && n.mutexes == s.mutexes
    ensures Locks(n, f)
  {
    forall m ensures LockOk(n, f, m) {
      assert LockOk(s, f, m);
    }
  }

  /** Waiting threads are moved to the tail of the run queue. */
  lemma MoveKeeps(s: State, f: Tid, from: QueueId, kept: seq<Tid>, moved: seq<Tid>)
    requires Core(s, f) && Splits(s, from, kept, moved)
    requires from != RunQueue && from != Graveyard && from != Doomed
    ensures Appendable(Q(s, RunQueue), moved)
    ensures Core(SetQ(SetQ(s, from, kept), RunQueue, Q(s, RunQueue) + moved), f)
  {
    var n := SetQ(SetQ(s, from, kept), RunQueue, Q(s, RunQueue) + moved);
    CoreParts(s, f);
    assert QueueOk(s, f, from);
    assert n.threads == s.threads && n.mutexes == s.mutexes && n.current == s.current && n.freePages == s.freePages
           && n.main == s.main && n.idle == s.idle && n.reaper == s.reaper && !n.halted;
    hide *;
    MovePlaces(s, f, from, kept, moved);
    MoveWakes(s, n, f, from, kept, moved);
    MoveRefs(s, n, f, from, kept, moved);
    MoveReaps(s, n, from, kept, moved);
    SameLocks(s, n, f);
    SameRoles(s, n);
    SamePages(s, n);
    SameZeroes(s, n);
    CoreWhole(n, f);
  }

  lemma WakeAllIs(s: State, id: QueueId)
    requires !s.intr && Appendable(Q(s, RunQueue), Q(s, id)) && id != RunQueue
    ensures WakeAll(s, id) == SetQ(SetQ(s, id, []), RunQueue, Q(s, RunQueue) + Q(s, id))
    ensures Q(WakeAll(s, id), id) == [] && forall j :: j != id && j != RunQueue ==> Q(WakeAll(s, id), j) == Q(s, j)
  {
    assert WakeAll(s, id).queues == SetQ(SetQ(s, id, []), RunQueue, Q(s, RunQueue) + Q(s, id)).queues;
  }

  lemma QueueNoDup(s: State, f: Tid, id: QueueId)
    requires Core(s, f)
    ensures NoDup(Q(s, id)) && Splits(s, id, [], Q(s, id))
    ensures Q(s, id) != [] ==> Splits(s, id, Q(s, id)[1..], Q(s, id)[..1])
  {
    assert QueueOk(s, f, id);
    if Q(s, id) != [] {
      assert Q(s, id) == Q(s, id)[..1] + Q(s, id)[1..];
      assert Q(s, id)[0] !in Q(s, id)[1..];
    }
  }

  /** `wakeAll` empties the queue, in order, onto the tail of the run queue. */
  lemma WakeAllKeeps(s: State, f: Tid, id: QueueId)
    requires Core(s, f) && !s.intr && id != RunQueue && id != Graveyard && id != Doomed
    ensures Core(WakeAll(s, id), f)
    ensures WakeAll(s, id) == SetQ(SetQ(s, id, []), RunQueue, Q(s, RunQueue) + Q(s, id))
    ensures Q(WakeAll(s, id), id) == [] && forall j :: j != id && j != RunQueue ==> Q(WakeAll(s, id), j) == Q(s, j)
  {
    hide *;
    QueueNoDup(s, f, id);
    MoveKeeps(s, f, id, [], Q(s, id));
    WakeAllIs(s, id);
  }

  lemma WakeOneIs(s: State, id: QueueId)
    requires !s.intr && id != RunQueue
    requires Q(s, id) != [] ==> Appendable(Q(s, RunQueue), Q(s, id)[..1])
    ensures Q(s, id) == [] ==> WakeOne(s, id) == s
    ensures Q(s, id) != [] ==> WakeOne(s, id) == SetQ(SetQ(s, id, Q(s, id)[1..]), RunQueue, Q(s, RunQueue) + Q(s, id)[..1])
  {
    if Q(s, id) != [] {
      assert Q(s, id)[..1] == [Q(s, id)[0]];
    }
  }

  /** `wakeOne` moves the head of the queue, if any, to the tail of the run queue. */
  lemma WakeOneKeeps(s: State, f: Tid, id: QueueId)
    requires Core(s, f) && !s.intr && id != RunQueue && id != Graveyard && id != Doomed
    ensures Core(WakeOne(s, id), f)
    ensures Q(s, id) == [] ==> WakeOne(s, id) == s
    ensures Q(s, id) != [] ==> WakeOne(s, id) == SetQ(SetQ(s, id, Q(s, id)[1..]), RunQueue, Q(s, RunQueue) + Q(s, id)[..1])
  {
    hide *;
    if Q(s, id) != [] {
      QueueNoDup(s, f, id);
      MoveKeeps(s, f, id, Q(s, id)[1..], Q(s, id)[..1]);
    }
    WakeOneIs(s, id);
  }
}

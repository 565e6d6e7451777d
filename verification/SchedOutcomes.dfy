/** What each kernel call comes to, from its beginning to its end: the whole state that a caller of
    `mutexLock`, `mutex_unlock`, `wait`, `wakeAll`, `spawnThread`, `exit`, `join` and so on finds. */
module SchedOutcomes {
  import opened Basics
  import opened SchedModel
  import opened SchedInv
  import opened SchedDispatch
  import opened SchedLocal
  import opened SchedCalls
  import opened SchedLocks
  import opened SchedLives
  import opened SchedEffects
  import opened SchedRuns
  import opened SchedTheorems

  /** Clock, free pages and the threads with a role are as before, and no assertion failed. */
  predicate Aside(s: State, n: State) {
    && n.ticks == s.ticks && n.freePages == s.freePages && !n.halted
    && n.main == s.main && n.idle == s.idle && n.reaper == s.reaper
  }

  // ---------------------------------------------------------------- giving up the processor

  /** Whom a dispatch wakes: the sleepers whose tick has come, in the order of the sleep queue. */
  function Woke(s: State): seq<Tid> { Due(s, Q(s, SleepQueue)) }

  /** The caller waits at the end of queue `id`, to go on at `pc`, its tick count cleared; the expired
      sleepers are at the end of the run queue, and its first thread has the processor, interrupts off. */
  ghost predicate Parked(s: State, n: State, id: QueueId, pc: Pc) {
    && s.current in s.threads && n.threads.Keys == s.threads.Keys
    && n.threads[s.current] == s.threads[s.current].(pc := pc, numTicks := 0)
    && (forall t {:trigger Rested(s, t)} :: t in s.threads && t != s.current ==> n.threads[t] == Rested(s, t))
    && [n.current] + Q(n, RunQueue) == Q(s, RunQueue) + (if id == RunQueue then [s.current] else []) + Woke(s)
    && Q(n, SleepQueue) == NotDue(s, Q(s, SleepQueue))
    && (id != RunQueue ==> Q(n, id) == Q(s, id) + [s.current])
    && (forall j :: j != RunQueue && j != SleepQueue && j != id ==> Q(n, j) == Q(s, j))
    && n.mutexes == s.mutexes && !n.intr && !n.preemptOff && Aside(s, n)
  }

  lemma {:induction false} SameDue(s: State, n: State, q: seq<Tid>)
    requires forall t :: t in q ==> (Expired(s, t) <==> Expired(n, t))
    ensures Due(s, q) == Due(n, q) && NotDue(s, q) == NotDue(n, q)
  {
    hide Expired;
    if q != [] { SameDue(s, n, q[1..]); }
  }

  lemma WakesIs(e: State)
    ensures var w := WakeSleepers(e); var due := Due(e, Q(e, SleepQueue));
            && w.threads == ClearSleep(e.threads, due) && w.current == e.current && w.mutexes == e.mutexes
            && Q(w, RunQueue) == Q(e, RunQueue) + due && Q(w, SleepQueue) == NotDue(e, Q(e, SleepQueue))
            && (forall j :: j != RunQueue && j != SleepQueue ==> Q(w, j) == Q(e, j))
            && w.ticks == e.ticks && w.freePages == e.freePages && w.main == e.main && w.idle == e.idle && w.reaper == e.reaper
            && w.intr == e.intr && w.preemptOff == e.preemptOff
  {
    hide Due, NotDue, Appendable, ClearSleep;
  }

  lemma TakesIs(w: State)
    requires w.current in w.threads && Q(w, RunQueue) != []
    ensures var n := TakeHead(w);
            && n.threads == w.threads[w.current := w.threads[w.current].(numTicks := 0)]
            && Q(w, RunQueue) == [n.current] + Q(n, RunQueue) && n.mutexes == w.mutexes
            && (forall j :: j != RunQueue ==> Q(n, j) == Q(w, j))
            && n.ticks == w.ticks && n.freePages == w.freePages && n.main == w.main && n.idle == w.idle && n.reaper == w.reaper
            && n.intr == w.intr && n.preemptOff == w.preemptOff
  {}

  lemma ScheduleEnds(e: State)
    requires e.current in e.threads && !e.intr && !e.preemptOff && !Schedule(e).halted
    ensures var w := WakeSleepers(e);
            w.current in w.threads && !w.halted && Q(w, RunQueue) != [] && Schedule(e) == TakeHead(w) && TakeHead(w).halted == w.halted
  {
    WakesIs(e);
    hide WakeSleepers, Due, NotDue;
  }

  /** A thread's record after a dispatch: who was due sleeps no more, who gave way has a fresh tick count. */
  function Rested(e: State, t: Tid): Thread
    requires t in e.threads
  {
    var th := if t in Woke(e) then e.threads[t].(sleepUntil := 0) else e.threads[t];
    if t == e.current then th.(numTicks := 0) else th
  }

  lemma RestedAt(e: State, w: State, n: State, t: Tid)
    requires t in e.threads && w.current == e.current && w.threads == ClearSleep(e.threads, Woke(e)) && w.current in w.threads
    requires n.threads == w.threads[w.current := w.threads[w.current].(numTicks := 0)]
    ensures t in n.threads && n.threads[t] == Rested(e, t)
  {
    hide Woke;
  }

  /** Everyone's record is that of after a dispatch. */
  ghost predicate AllRested(e: State, n: State) {
    n.threads.Keys == e.threads.Keys && forall t {:trigger Rested(e, t)} :: t in e.threads ==> n.threads[t] == Rested(e, t)
  }

  /** The queues after a dispatch. */
  ghost predicate HeadTaken(e: State, n: State) {
    && [n.current] + Q(n, RunQueue) == Q(e, RunQueue) + Woke(e) && Q(n, SleepQueue) == NotDue(e, Q(e, SleepQueue))
    && (forall j :: j != RunQueue && j != SleepQueue ==> Q(n, j) == Q(e, j))
  }

  lemma RestsAll(e: State, w: State, n: State)
    requires w.current == e.current && w.threads == ClearSleep(e.threads, Woke(e)) && w.current in w.threads
    requires n.threads == w.threads[w.current := w.threads[w.current].(numTicks := 0)]
    ensures AllRested(e, n)
  {
    assert n.threads.Keys == e.threads.Keys by { hide Woke; }
    hide Woke, Rested, ClearSleep;
    forall t | t in e.threads ensures n.threads[t] == Rested(e, t) { RestedAt(e, w, n, t); }
  }

  /** A dispatch, whole. */
  lemma Dispatches(e: State)
    requires e.current in e.threads && !e.intr && !e.preemptOff && !Schedule(e).halted
    ensures var n := Schedule(e);
            AllRested(e, n) && HeadTaken(e, n) && n.mutexes == e.mutexes && !n.intr && !n.preemptOff && Aside(e, n)
  {
    var w := WakeSleepers(e);
    assert Woke(e) == Due(e, Q(e, SleepQueue));
    hide AllRested, Schedule, WakeSleepers, TakeHead, Due, NotDue, Q, Woke, ClearSleep;
    ScheduleEnds(e);
    WakesIs(e);
    TakesIs(w);
    RestsAll(e, w, Schedule(e));
  }

  lemma SameWoke(s: State, e: State)
    requires Q(e, SleepQueue) == Q(s, SleepQueue) && e.ticks == s.ticks && e.threads.Keys == s.threads.Keys
    requires forall t :: t in s.threads && t in e.threads ==> e.threads[t].sleepUntil == s.threads[t].sleepUntil
    ensures Woke(e) == Woke(s) && NotDue(e, Q(e, SleepQueue)) == NotDue(s, Q(s, SleepQueue))
    ensures forall t :: t in Woke(s) ==> t in Q(s, SleepQueue)
  {
    SameDue(s, e, Q(s, SleepQueue));
    DueIn(s, Q(s, SleepQueue));
    hide Q;
  }

  /** Blocking in any queue but that of the sleepers. */
  lemma Parks(s: State, b: State, id: QueueId, pc: Pc)
    requires s.current in s.threads && id != SleepQueue && s.current !in Q(s, SleepQueue)
    requires b == s.(intr := false, preemptOff := false, halted := b.halted) && !Block(b, id, pc).halted
    ensures Parked(s, Block(b, id, pc), id, pc)
  {
    var e := Entered(b, id, pc);
    EnteredIs(b, id, pc);
    assert Block(b, id, pc) == Schedule(e);
    assert forall j :: Q(b, j) == Q(s, j);
    hide Block, Schedule, Entered, Q, Due, NotDue, AllRested, HeadTaken, Woke;
    Dispatches(e);
    SameWoke(s, e);
    ParkedFrom(s, e, Schedule(e), id, pc);
  }

  lemma ParkedFrom(s: State, e: State, n: State, id: QueueId, pc: Pc)
    requires s.current in s.threads && s.current !in Woke(s) && id != SleepQueue && e.current == s.current
    requires e.threads == s.threads[s.current := s.threads[s.current].(pc := pc)]
    requires (forall j :: j != id ==> Q(e, j) == Q(s, j)) && Q(e, id) == Q(s, id) + [s.current]
    requires Woke(e) == Woke(s) && NotDue(e, Q(e, SleepQueue)) == NotDue(s, Q(s, SleepQueue))
    requires AllRested(e, n) && HeadTaken(e, n) && n.mutexes == s.mutexes && !n.intr && !n.preemptOff && Aside(s, n)
    ensures Parked(s, n, id, pc)
  {
    hide Q, Woke, NotDue, Aside;
    assert Rested(e, s.current) == s.threads[s.current].(pc := pc, numTicks := 0);
    assert n.threads.Keys == s.threads.Keys;
    forall t | t in s.threads && t != s.current ensures n.threads[t] == Rested(s, t) {
      assert e.threads[t] == s.threads[t] && Rested(e, t) == Rested(s, t);
    }
    hide AllRested, Rested;
    if id == RunQueue { assert Q(e, RunQueue) == Q(s, RunQueue) + [s.current]; } else { assert Q(n, id) == Q(e, id); }
  }

  lemma {:induction false} DueIn(s: State, q: seq<Tid>)
    ensures forall t :: t in Due(s, q) ==> t in q
  {
    if q != [] {
      DueIn(s, q[1..]);
    }
  }

  /** A step that blocks, `sleep` apart. */
  lemma BlockingParks(s: State, a: Action)
    requires Inv(s) && Enabled(s, a) && Blocking(s, a) && !a.DoSleep?
    ensures var (b, id, pc) := Blocker(s, a); Parked(s, Next(s, a), id, pc)
  {
    InvParts(s);
    NextKeeps(s, a);
    InvParts(Next(s, a));
    CoreParts(s, s.current);
    QueueOkAt(s, s.current, SleepQueue);
    hide *;
    BlockingIs(s, a);
    BlockerKeeps(s, a);
    OffQueue(s, SleepQueue);
    var (b, id, pc) := Blocker(s, a);
    Parks(s, b, id, pc);
  }

  lemma OffQueue(s: State, id: QueueId)
    requires QueueOk(s, s.current, id)
    ensures s.current !in Q(s, id)
  {}

  lemma BlockerKeeps(s: State, a: Action)
    requires s.current in s.threads && Enabled(s, a) && Blocking(s, a) && !a.DoSleep? && !s.halted && FlagsOk(s)
    requires var (b, id, pc) := Blocker(s, a); !b.intr && !b.preemptOff
    ensures var (b, id, pc) := Blocker(s, a);
            b == s.(intr := false, preemptOff := false, halted := b.halted) && id != SleepQueue
  {
    hide Q, MutexOf, FlagsOk;
  }

  /** `yield`: the caller goes behind everyone who is runnable. */
  lemma YieldOutcome(s: State)
    requires Inv(s) && Enabled(s, DoYield)
    ensures Parked(s, Next(s, DoYield), RunQueue, Yielded)
  {
    BlockingParks(s, DoYield);
    hide Parked, Inv, Next;
  }

  /** `wait`: the caller waits behind the others in the queue. */
  lemma WaitOutcome(s: State, c: nat)
    requires Inv(s) && Enabled(s, DoWait(c))
    ensures Parked(s, Next(s, DoWait(c)), WaitQueue(c), Waited(c))
  {
    BlockingParks(s, DoWait(c));
    hide Parked, Inv, Next;
  }

  // ---------------------------------------------------------------- sleep

  lemma {:induction false} DueLast(s: State, q: seq<Tid>, t: Tid)
    ensures Due(s, q + [t]) == Due(s, q) + (if Expired(s, t) then [t] else [])
    ensures NotDue(s, q + [t]) == NotDue(s, q) + (if Expired(s, t) then [] else [t])
  {
    hide Expired;
    if q != [] {
      DueLast(s, q[1..], t);
      assert (q + [t])[1..] == q[1..] + [t];
    }
  }

  /** The caller is to sleep until the clock shows `until`: it is last in the sleep queue, or, if the clock
      is there already, last in the run queue behind the others that are due. */
  ghost predicate Slumbers(s: State, n: State, until: nat) {
    && s.current in s.threads && n.threads.Keys == s.threads.Keys
    && var c := s.current; var now := s.ticks >= until;
    && n.threads[c] == s.threads[c].(pc := Slept, numTicks := 0, sleepUntil := if now then 0 else until)
    && (forall t {:trigger Rested(s, t)} :: t in s.threads && t != c ==> n.threads[t] == Rested(s, t))
    && [n.current] + Q(n, RunQueue) == Q(s, RunQueue) + Woke(s) + (if now then [c] else [])
    && Q(n, SleepQueue) == NotDue(s, Q(s, SleepQueue)) + (if now then [] else [c])
    && (forall j :: j != RunQueue && j != SleepQueue ==> Q(n, j) == Q(s, j))
    && n.mutexes == s.mutexes && !n.intr && !n.preemptOff && Aside(s, n)
  }

  /** `sleep`, whole; the wake-up tick is a 32-bit sum. */
  lemma SleepOutcome(s: State, ms: nat)
    requires Inv(s) && Enabled(s, DoSleep(ms))
    ensures Slumbers(s, Next(s, DoSleep(ms)), (s.ticks + SleepTicks(ms)) % 0x1_0000_0000)
  {
    hide *;
    InvParts(s);
    NextIs(s, DoSleep(ms));
    NextKeeps(s, DoSleep(ms));
    InvParts(Next(s, DoSleep(ms)));
    DrowsyWhole(s, ms);
    var b := Drowsy(s, ms);
    var e := Entered(b, SleepQueue, Slept);
    EnteredIs(b, SleepQueue, Slept);
    BlockIs(b, SleepQueue, Slept);
    Dispatches(e);
    AwakeNow(s);
    SlumbersFrom(s, e, Schedule(e), (s.ticks + SleepTicks(ms)) % 0x1_0000_0000);
  }

  lemma BlockIs(b: State, id: QueueId, pc: Pc)
    requires b.current in b.threads
    ensures var e := Entered(b, id, pc); e.current in e.threads && Block(b, id, pc) == Schedule(e) && e.mutexes == b.mutexes
  {
    hide Schedule;
  }

  lemma DrowsyWhole(s: State, ms: nat)
    requires s.current in s.threads && Enabled(s, DoSleep(ms)) && FlagsOk(s)
    ensures var b := Drowsy(s, ms);
            && b.threads == s.threads[s.current := s.threads[s.current].(sleepUntil := (s.ticks + SleepTicks(ms)) % 0x1_0000_0000)]
            && b.current == s.current && b.current in b.threads && !b.intr && !b.preemptOff && b.mutexes == s.mutexes
            && b.ticks == s.ticks && b.freePages == s.freePages && b.main == s.main && b.idle == s.idle && b.reaper == s.reaper
            && (forall j :: Q(b, j) == Q(s, j)) && Sleep(s, ms) == Block(b, SleepQueue, Slept)
  {
    hide SleepTicks, Block;
  }

  lemma SlumbersFrom(s: State, e: State, n: State, until: nat)
    requires s.current in s.threads && s.current !in Q(s, SleepQueue) && e.current == s.current
    requires e.threads == s.threads[s.current := s.threads[s.current].(sleepUntil := until, pc := Slept)]
    requires (forall j :: j != SleepQueue ==> Q(e, j) == Q(s, j)) && Q(e, SleepQueue) == Q(s, SleepQueue) + [s.current]
    requires e.ticks == s.ticks && e.mutexes == s.mutexes
    requires e.freePages == s.freePages && e.main == s.main && e.idle == s.idle && e.reaper == s.reaper
    requires AllRested(e, n) && HeadTaken(e, n) && n.mutexes == e.mutexes && !n.intr && !n.preemptOff && Aside(e, n)
    ensures Slumbers(s, n, until)
  {
    var q, c := Q(s, SleepQueue), s.current;
    assert Woke(e) == Due(e, q + [c]) && Woke(s) == Due(s, q);
    SameDue(s, e, q);
    DueLast(e, q, c);
    DueIn(s, q);
    assert Expired(e, c) <==> s.ticks >= until;
    hide Q, Woke, NotDue, Due, Expired;
    assert Rested(e, c) == s.threads[c].(pc := Slept, numTicks := 0, sleepUntil := if s.ticks >= until then 0 else until);
    forall t | t in s.threads && t != c ensures n.threads[t] == Rested(s, t) {
      assert e.threads[t] == s.threads[t] && Rested(e, t) == Rested(s, t);
    }
    hide AllRested, Rested;
  }

  // ---------------------------------------------------------------- runs without an interrupt

  /** `k` steps of the current thread inside a kernel call. */
  function Steps(k: nat): seq<Action> { if k == 0 then [] else [Step] + Steps(k - 1) }

  /** A call and `k` steps lead from `s` to `n`. */
  ghost predicate Leads(s: State, a: Action, k: nat, n: State) {
    Runs(s, [a] + Steps(k)) && After(s, [a] + Steps(k)) == n
  }

  /** `k` steps lead from `s` to `n`. */
  ghost predicate StepsTo(s: State, k: nat, n: State) { Runs(s, Steps(k)) && After(s, Steps(k)) == n }

  lemma NoSteps(s: State)
    ensures StepsTo(s, 0, s)
  {}

  lemma OneStep(s: State, k: nat, n: State)
    requires s.current in s.threads && Enabled(s, Step) && StepsTo(Continue(s), k, n)
    ensures StepsTo(s, k + 1, n)
  {
    hide Continue, Enabled;
    NextIs(s, Step);
    assert Steps(k + 1)[0] == Step && Steps(k + 1)[1..] == Steps(k);
  }

  lemma CallLeads(s: State, a: Action, k: nat, n: State)
    requires s.current in s.threads && Enabled(s, a) && StepsTo(Next(s, a), k, n)
    ensures Leads(s, a, k, n)
  {
    hide Next, Enabled;
    var run := [a] + Steps(k);
    assert run[0] == a && run[1..] == Steps(k);
  }

  // ---------------------------------------------------------------- mutexes

  /** The caller is back at its own code with `held` for the mutexes it holds, nobody else's record and
      no mutex but `m` changed, interrupts and preemption are on. */
  ghost predicate BackWith(s: State, n: State, m: nat, held: set<nat>) {
    && s.current in s.threads && n.current == s.current && n.intr && !n.preemptOff && Aside(s, n)
    && n.threads == s.threads[s.current := s.threads[s.current].(pc := Running, held := held)]
    && (forall k :: k != m ==> MutexOf(n, k) == MutexOf(s, k))
  }

  /** The longest waiter in queue `id`, if there is one, is at the end of the run queue. */
  ghost predicate HeadMoved(s: State, n: State, id: QueueId) {
    var q := Q(s, id);
    && Q(n, RunQueue) == Q(s, RunQueue) + (if q == [] then [] else [q[0]])
    && Q(n, id) == (if q == [] then [] else q[1..])
    && (forall j :: j != RunQueue && j != id ==> Q(n, j) == Q(s, j))
  }

  /** All waiters in queue `id` are at the end of the run queue, in order. */
  ghost predicate AllMoved(s: State, n: State, id: QueueId) {
    && Q(n, RunQueue) == Q(s, RunQueue) + Q(s, id) && Q(n, id) == []
    && (forall j :: j != RunQueue && j != id ==> Q(n, j) == Q(s, j))
  }

  /** The mutex is free, and its longest waiter, if there is one, is runnable; nobody else moved. */
  ghost predicate Unlocked(s: State, n: State, m: nat) {
    MutexOf(n, m) == Mutex(false, 0) && HeadMoved(s, n, MutexQueue(m))
  }

  /** `s` with the current thread at `pc`, holding `held`, inside a call that has preemption disabled. */
  function Inner(s: State, pc: Pc, held: set<nat>, mutexes: map<nat, Mutex>): State
    requires s.current in s.threads
  {
    s.(preemptOff := true, threads := s.threads[s.current := s.threads[s.current].(pc := pc, held := held)], mutexes := mutexes)
  }

  lemma UnlockBegins(s: State, m: nat)
    requires s.current in s.threads && Enabled(s, DoUnlock(m)) && s.intr && !s.halted && MutexHeld(s, m)
    ensures Next(s, DoUnlock(m)) == Inner(s, UnlockClear(m), s.threads[s.current].held - {m}, s.mutexes)
  {}

  lemma UnlockClears(s: State, m: nat, held: set<nat>)
    requires s.current in s.threads && MutexHeld(s, m)
    ensures var n := Inner(s, UnlockClear(m), held, s.mutexes);
            Enabled(n, Step) && Continue(n) == Inner(s, UnlockOwn(m), held, s.mutexes[m := Mutex(false, s.current)])
  {}

  lemma UnlockDisowns(s: State, m: nat, held: set<nat>, x: Mutex)
    requires s.current in s.threads && !x.locked
    ensures var n := Inner(s, UnlockOwn(m), held, s.mutexes[m := x]);
            Enabled(n, Step) && Continue(n) == Inner(s, UnlockWake(m), held, s.mutexes[m := x][m := Mutex(false, 0)])
  {}

  lemma WakeEnabled(i: State, m: nat)
    requires i.current in i.threads && i.threads[i.current].pc == UnlockWake(m)
    ensures Enabled(i, Step)
  {}

  lemma UnlockRouses(i: State, m: nat)
    requires i.current in i.threads && i.threads[i.current].pc == UnlockWake(m) && i.intr && !i.halted
    requires var q := Q(i, MutexQueue(m)); q != [] ==> q[0] != NULL && q[0] !in Q(i, RunQueue)
    ensures var w := UnlockWakeStep(i, m);
            && w.current == i.current && w.intr && w.mutexes == i.mutexes && Aside(i, w) && HeadMoved(i, w, MutexQueue(m))
            && w.threads == i.threads[i.current := i.threads[i.current].(pc := UnlockLeave)]
  {}

  lemma UnlockEnds(s: State, m: nat, w: State, held: set<nat>)
    requires s.current in s.threads && w.current == s.current && w.intr && Aside(s, w)
    requires w.threads == s.threads[s.current := s.threads[s.current].(pc := UnlockLeave, held := held)]
    ensures Enabled(w, Step)
    ensures var n := Continue(w);
            && n == w.(preemptOff := false, threads := n.threads)
            && n.threads == s.threads[s.current := s.threads[s.current].(pc := Running, held := held)]
  {}

  lemma WaiterOff(s: State, m: nat)
    requires Inv(s)
    ensures var q := Q(s, MutexQueue(m)); q != [] ==> q[0] != NULL && q[0] !in Q(s, RunQueue)
  {
    var q := Q(s, MutexQueue(m));
    if q != [] {
      InvParts(s);
      hide Inv;
      assert q[0] in q;
      OneQueue(s, MutexQueue(m), RunQueue, q[0]);
      QueuesHoldThreads(s, MutexQueue(m), q[0]);
    }
  }

  lemma InnerIs(s: State, pc: Pc, held: set<nat>, mutexes: map<nat, Mutex>)
    requires s.current in s.threads && !s.halted
    ensures var i := Inner(s, pc, held, mutexes);
            && i.current == s.current && i.current in i.threads && i.threads[i.current].pc == pc && i.intr == s.intr && !i.halted
            && Aside(s, i) && i.mutexes == mutexes && (forall id :: Q(i, id) == Q(s, id))
            && i.threads == s.threads[s.current := s.threads[s.current].(pc := pc, held := held)]
  {}

  lemma MayUnlock(s: State, m: nat)
    requires Inv(s) && Enabled(s, DoUnlock(m))
    ensures s.current in s.threads && s.intr && !s.halted && MutexHeld(s, m) && s.threads[s.current].pc == Running
  {
    hide Core, Sleepers;
    InvParts(s);
    HeldMeansInside(s, m);
  }

  lemma MutexesKept(s: State, m: nat, x: Mutex, y: Mutex)
    ensures var n := s.(mutexes := s.mutexes[m := x][m := y]); MutexOf(n, m) == y && forall k :: k != m ==> MutexOf(n, k) == MutexOf(s, k)
  {}

  /** The mutex is cleared and its owner forgotten: the caller is about to look for a waiter. */
  function Freed(s: State, m: nat, held: set<nat>): State
    requires s.current in s.threads
  {
    Inner(s, UnlockWake(m), held, s.mutexes[m := Mutex(false, s.current)][m := Mutex(false, 0)])
  }

  lemma UnlockFrees(s: State, m: nat, held: set<nat>, k: nat, n: State)
    requires s.current in s.threads && !s.halted && MutexHeld(s, m) && StepsTo(Freed(s, m, held), k, n)
    ensures StepsTo(Inner(s, UnlockClear(m), held, s.mutexes), k + 2, n)
  {
    assert Freed(s, m, held) == Inner(s, UnlockWake(m), held, s.mutexes[m := Mutex(false, s.current)][m := Mutex(false, 0)]);
    hide *;
    var two := s.mutexes[m := Mutex(false, s.current)];
    UnlockClears(s, m, held);
    UnlockDisowns(s, m, held, Mutex(false, s.current));
    InnerIs(s, UnlockOwn(m), held, two);
    InnerIs(s, UnlockClear(m), held, s.mutexes);
    OneStep(Inner(s, UnlockOwn(m), held, two), k, n);
    OneStep(Inner(s, UnlockClear(m), held, s.mutexes), k + 1, n);
  }

  lemma FreedIs(s: State, m: nat, held: set<nat>)
    requires s.current in s.threads && !s.halted
    ensures var i := Freed(s, m, held);
            && i.current == s.current && i.current in i.threads && i.threads[i.current].pc == UnlockWake(m) && i.intr == s.intr && !i.halted
            && Aside(s, i) && i.mutexes == s.mutexes[m := Mutex(false, s.current)][m := Mutex(false, 0)]
            && (forall id :: Q(i, id) == Q(s, id))
            && i.threads == s.threads[s.current := s.threads[s.current].(pc := UnlockWake(m), held := held)]
  {}

  /** `mutex_unlock`, from the call to the return. */
  lemma UnlockOutcome(s: State, m: nat) returns (n: State)
    requires Inv(s) && Enabled(s, DoUnlock(m))
    ensures Leads(s, DoUnlock(m), 4, n) && Unlocked(s, n, m)
    ensures BackWith(s, n, m, s.threads[s.current].held - {m})
  {
    hide *;
    MayUnlock(s, m);
    WaiterOff(s, m);
    UnlockBegins(s, m);
    var held := s.threads[s.current].held - {m};
    var i := Freed(s, m, held);
    FreedIs(s, m, held);
    WakeEnabled(i, m);
    ContinueIs(i);
    UnlockRouses(i, m);
    var w := UnlockWakeStep(i, m);
    UnlockEnds(s, m, w, held);
    n := Continue(w);
    NoSteps(n);
    OneStep(w, 0, n);
    OneStep(i, 1, n);
    UnlockFrees(s, m, held, 2, n);
    CallLeads(s, DoUnlock(m), 4, n);
    AsideTwice(s, i, w, n);
    UnlockedIs(s, i, w, n, m, held);
  }

  lemma AsideTwice(s: State, i: State, w: State, n: State)
    requires Aside(s, i) && Aside(i, w) && n == w.(preemptOff := n.preemptOff, threads := n.threads)
    ensures Aside(s, w) && Aside(s, n)
  {}

  lemma UnlockedIs(s: State, i: State, w: State, n: State, m: nat, held: set<nat>)
    requires HeadMoved(i, w, MutexQueue(m)) && (forall id :: Q(i, id) == Q(s, id)) && n == w.(preemptOff := false, threads := n.threads)
    requires w.mutexes == s.mutexes[m := Mutex(false, s.current)][m := Mutex(false, 0)] && w.current == s.current && w.intr
    requires s.current in s.threads && n.threads == s.threads[s.current := s.threads[s.current].(pc := Running, held := held)] && Aside(s, n)
    ensures Unlocked(s, n, m) && BackWith(s, n, m, held)
  {
    assert forall id :: Q(n, id) == Q(w, id);
    hide Q, Aside;
  }

  /** The caller has the mutex, and nobody moved. */
  ghost predicate Acquired(s: State, n: State, m: nat) {
    MutexOf(n, m) == Mutex(true, n.current) && (forall id :: Q(n, id) == Q(s, id))
  }

  lemma LockBegins(s: State, m: nat)
    requires s.current in s.threads && Enabled(s, DoLock(m)) && s.intr && !s.halted && !MutexHeld(s, m)
    ensures Next(s, DoLock(m)) == Inner(s, LockTest(m), s.threads[s.current].held, s.mutexes)
  {}

  lemma RetryBegins(s: State, m: nat)
    requires s.current in s.threads && s.threads[s.current].pc == LockWoken(m) && !s.intr
    ensures Enabled(s, Step)
    ensures Continue(s) == Inner(s.(intr := true), LockTest(m), s.threads[s.current].held, s.mutexes)
  {}

  lemma LockTakes(s: State, m: nat, held: set<nat>)
    requires s.current in s.threads && !MutexOf(s, m).locked
    ensures var n := Inner(s, LockTest(m), held, s.mutexes);
            Enabled(n, Step) && Continue(n) == Inner(s, LockOwn(m), held, s.mutexes[m := MutexOf(s, m).(locked := true)])
  {}

  lemma LockOwns(s: State, m: nat, held: set<nat>, x: Mutex)
    requires s.current in s.threads && x.locked
    ensures var n := Inner(s, LockOwn(m), held, s.mutexes[m := x]);
            Enabled(n, Step) && Continue(n) == Inner(s, LockLeave(m), held, s.mutexes[m := x][m := Mutex(true, s.current)])
  {}

  lemma LockReturns(s: State, m: nat, held: set<nat>, mutexes: map<nat, Mutex>)
    requires s.current in s.threads && !s.halted && s.intr
    ensures var i := Inner(s, LockLeave(m), held, mutexes);
            && Enabled(i, Step)
            && var n := Continue(i);
            && n.threads == s.threads[s.current := s.threads[s.current].(pc := Running, held := held + {m})]
            && n.mutexes == mutexes && n.current == s.current && n.intr && !n.preemptOff && Aside(s, n)
            && (forall id :: Q(n, id) == Q(s, id))
  {}

  /** From the test of a free mutex to the return. */
  lemma LockFree(s: State, m: nat) returns (n: State)
    requires s.current in s.threads && !MutexOf(s, m).locked && !s.halted && s.intr
    ensures var held := s.threads[s.current].held;
            StepsTo(Inner(s, LockTest(m), held, s.mutexes), 3, n) && Acquired(s, n, m) && BackWith(s, n, m, held + {m})
  {
    var c, held := s.current, s.threads[s.current].held;
    var x := MutexOf(s, m).(locked := true);
    hide *;
    LockTakes(s, m, held);
    LockOwns(s, m, held, x);
    LockReturns(s, m, held, s.mutexes[m := x][m := Mutex(true, c)]);
    InnerIs(s, LockTest(m), held, s.mutexes);
    InnerIs(s, LockOwn(m), held, s.mutexes[m := x]);
    InnerIs(s, LockLeave(m), held, s.mutexes[m := x][m := Mutex(true, c)]);
    n := Continue(Inner(s, LockLeave(m), held, s.mutexes[m := x][m := Mutex(true, c)]));
    MutexesKept(s, m, x, Mutex(true, c));
    NoSteps(n);
    OneStep(Inner(s, LockLeave(m), held, s.mutexes[m := x][m := Mutex(true, c)]), 0, n);
    OneStep(Inner(s, LockOwn(m), held, s.mutexes[m := x]), 1, n);
    OneStep(Inner(s, LockTest(m), held, s.mutexes), 2, n);
    LockedIs(s, n, m, held, x);
  }

  lemma LockedIs(s: State, n: State, m: nat, held: set<nat>, x: Mutex)
    requires s.current in s.threads && n.threads == s.threads[s.current := s.threads[s.current].(pc := Running, held := held + {m})]
    requires n.mutexes == s.mutexes[m := x][m := Mutex(true, s.current)] && n.current == s.current && n.intr && !n.preemptOff && Aside(s, n)
    requires forall id :: Q(n, id) == Q(s, id)
    ensures Acquired(s, n, m) && BackWith(s, n, m, held + {m})
  {
    hide Q, Aside;
  }

  lemma MayLock(s: State, m: nat)
    requires Inv(s) && Enabled(s, DoLock(m))
    ensures s.current in s.threads && s.intr && !s.halted && !MutexHeld(s, m) && s.threads[s.current].pc == Running && !s.preemptOff
  {
    hide Core, Sleepers;
    InvParts(s);
    HeldMeansInside(s, m);
  }

  /** `mutexLock` of a free mutex, from the call to the return. */
  lemma LockOutcome(s: State, m: nat) returns (n: State)
    requires Inv(s) && Enabled(s, DoLock(m)) && !MutexOf(s, m).locked
    ensures Leads(s, DoLock(m), 3, n) && Acquired(s, n, m)
    ensures BackWith(s, n, m, s.threads[s.current].held + {m})
  {
    hide *;
    MayLock(s, m);
    LockBegins(s, m);
    n := LockFree(s, m);
    CallLeads(s, DoLock(m), 3, n);
  }

  /** A caller that was woken in `mutexWait` and finds the mutex free takes it. */
  lemma RetryOutcome(s: State, m: nat) returns (n: State)
    requires Inv(s) && s.current in s.threads && s.threads[s.current].pc == LockWoken(m) && !MutexOf(s, m).locked
    ensures StepsTo(s, 4, n) && Acquired(s, n, m)
    ensures BackWith(s, n, m, s.threads[s.current].held + {m})
  {
    hide *;
    WokenFlagsAre(s, m);
    RetryBegins(s, m);
    var b := s.(intr := true);
    SameBut(s, b, m);
    n := LockFree(b, m);
    OneStep(s, 3, n);
    SameTaken(s, b, n, m, s.threads[s.current].held + {m});
  }

  lemma WokenFlagsAre(s: State, m: nat)
    requires Inv(s) && s.current in s.threads && s.threads[s.current].pc == LockWoken(m)
    ensures !s.intr && !s.preemptOff && !s.halted
  {
    hide Core, Sleepers;
    InvParts(s);
  }

  lemma SameBut(s: State, b: State, m: nat)
    requires b == s.(intr := b.intr, preemptOff := b.preemptOff)
    ensures MutexOf(b, m) == MutexOf(s, m) && forall id :: Q(b, id) == Q(s, id)
  {}

  lemma SameTaken(s: State, b: State, n: State, m: nat, held: set<nat>)
    requires b == s.(intr := b.intr) && Acquired(b, n, m) && BackWith(b, n, m, held)
    ensures Acquired(s, n, m) && BackWith(s, n, m, held)
  {
    assert forall k :: MutexOf(b, k) == MutexOf(s, k);
    assert forall id :: Q(b, id) == Q(s, id);
    hide Q, MutexOf;
  }

  /** A step of the caller itself before it gives up the processor does not show in the outcome. */
  lemma ParkedBefore(s: State, i: State, n: State, id: QueueId, pc: Pc)
    requires s.current in s.threads && i.current == s.current && Parked(i, n, id, pc) && id != SleepQueue && Aside(s, i) && i.mutexes == s.mutexes
    requires i.threads == s.threads[s.current := s.threads[s.current].(pc := i.threads[s.current].pc, numTicks := i.threads[s.current].numTicks)]
    requires forall j :: Q(i, j) == Q(s, j)
    ensures Parked(s, n, id, pc)
  {
    hide Q, Woke, NotDue;
    SameWoke(s, i);
    forall t | t in s.threads && t != s.current ensures n.threads[t] == Rested(s, t) {
      assert i.threads[t] == s.threads[t] && Rested(i, t) == Rested(s, t);
    }
  }

  /** The test of a locked mutex: the caller waits behind the others, preemption enabled again. */
  lemma LockBusy(i: State, m: nat)
    requires Inv(i) && i.current in i.threads && i.threads[i.current].pc == LockTest(m) && MutexOf(i, m).locked
    ensures Enabled(i, Step) && Parked(i, Continue(i), MutexQueue(m), LockWoken(m))
  {
    InvParts(i);
    BlocksTest(i, m);
    BlockingParks(i, Step);
    hide *;
    NextIs(i, Step);
  }

  lemma BlocksTest(i: State, m: nat)
    requires i.current in i.threads && i.threads[i.current].pc == LockTest(m) && MutexOf(i, m).locked
    ensures Enabled(i, Step) && Blocking(i, Step)
    ensures var (b, id, pc) := Blocker(i, Step); id == MutexQueue(m) && pc == LockWoken(m)
  {}

  /** `mutexLock` of a locked mutex. */
  lemma LockWaits(s: State, m: nat) returns (n: State)
    requires Inv(s) && Enabled(s, DoLock(m)) && MutexOf(s, m).locked
    ensures Leads(s, DoLock(m), 1, n) && Parked(s, n, MutexQueue(m), LockWoken(m))
  {
    hide *;
    MayLock(s, m);
    LockBegins(s, m);
    NextKeeps(s, DoLock(m));
    var i := Next(s, DoLock(m));
    InnerIs(s, LockTest(m), s.threads[s.current].held, s.mutexes);
    SameMutex(s, i, m);
    LockBusy(i, m);
    n := Continue(i);
    NoSteps(n);
    OneStep(i, 0, n);
    CallLeads(s, DoLock(m), 1, n);
    ParkedBefore(s, i, n, MutexQueue(m), LockWoken(m));
  }

  lemma SameMutex(s: State, i: State, m: nat)
    requires i.mutexes == s.mutexes
    ensures MutexOf(i, m) == MutexOf(s, m)
  {}

  /** A caller that was woken in `mutexWait` and finds the mutex locked again waits again. */
  lemma RetryWaits(s: State, m: nat) returns (n: State)
    requires Inv(s) && s.current in s.threads && s.threads[s.current].pc == LockWoken(m) && MutexOf(s, m).locked
    ensures StepsTo(s, 2, n) && Parked(s, n, MutexQueue(m), LockWoken(m))
  {
    hide *;
    WokenFlagsAre(s, m);
    RetryBegins(s, m);
    NextKeeps(s, Step);
    NextIs(s, Step);
    var b := s.(intr := true);
    SameBut(s, b, m);
    var i := Continue(s);
    InnerIs(b, LockTest(m), s.threads[s.current].held, s.mutexes);
    SameMutex(s, i, m);
    LockBusy(i, m);
    n := Continue(i);
    NoSteps(n);
    OneStep(i, 0, n);
    OneStep(s, 1, n);
    AsideAlso(s, b, i);
    ParkedBefore(s, i, n, MutexQueue(m), LockWoken(m));
  }

  lemma AsideAlso(s: State, b: State, i: State)
    requires b == s.(intr := true) && Aside(b, i)
    ensures Aside(s, i)
  {}

  // ---------------------------------------------------------------- waiting and waking

  /** Nobody's record, no mutex and no flag changed. */
  predicate Undisturbed(s: State, n: State) {
    && n.threads == s.threads && n.mutexes == s.mutexes && n.current == s.current
    && n.intr == s.intr && n.preemptOff == s.preemptOff && Aside(s, n)
  }

  lemma WokenMoves(s: State, w: State, c: nat, all: bool)
    requires s.intr && !s.halted
    requires var id := WaitQueue(c); var q := Q(s, id);
             if all then Woken(s, w, id, [], q)
             else if q == [] then w == Cli(s) else Woken(s, w, id, q[1..], [q[0]])
    ensures var n := Sti(w); Undisturbed(s, n) && if all then AllMoved(s, n, WaitQueue(c)) else HeadMoved(s, n, WaitQueue(c))
  {}

  /** `wakeAll` and `wakeOne`, called by a thread or, for all, by the keyboard interrupt. */
  lemma WakeOutcome(s: State, a: Action, c: nat, all: bool)
    requires Inv(s) && Enabled(s, a) && (a == DoWake(c, all) || (a == Key(c) && all))
    ensures var n := Next(s, a); Undisturbed(s, n) && if all then AllMoved(s, n, WaitQueue(c)) else HeadMoved(s, n, WaitQueue(c))
  {
    hide *;
    InvParts(s);
    MayWake(s, a);
    NextIs(s, a);
    WakeIs(s, c, all);
    if all { CliWakesAll(s, WaitQueue(c)); } else { CliWakesOne(s, WaitQueue(c)); }
    WokenMoves(s, if all then WakeAll(Cli(s), WaitQueue(c)) else WakeOne(Cli(s), WaitQueue(c)), c, all);
  }

  lemma MayWake(s: State, a: Action)
    requires s.current in s.threads && FlagsOk(s) && Enabled(s, a) && (a.DoWake? || a.Key?)
    ensures s.intr
  {}

  // ---------------------------------------------------------------- creation

  /** The record of a thread just created: runnable, to be launched; nobody but the thread itself
      and, unless it is detached, its creator refers to it. */
  predicate Newborn(th: Thread, detached: bool, stack: nat, userStack: Option<nat>) {
    && th.pc == Start && th.alive && th.numTicks == 0 && th.held == {} && th.children == {}
    && th.refCount == (if detached then 1 else 2) && th.ownerRef == !detached
    && th.stack == stack && th.userStack == userStack
  }

  /** `spawnThread`: the first free page is the record, the next its stack, a third the stack of user
      mode; the thread is last in the run queue, and its creator may join it exactly if it is not detached. */
  ghost predicate Created(s: State, n: State, detached: bool, usermode: bool) {
    var k := if usermode then 3 else 2;
    && k <= |s.freePages| && s.current in s.threads
    && var t := s.freePages[0];
    && t !in s.threads && t in n.threads && n.threads.Keys == s.threads.Keys + {t}
    && Newborn(n.threads[t], detached, s.freePages[1], if usermode then Some(s.freePages[2]) else None)
    && (forall u :: u in s.threads && u != s.current ==> n.threads[u] == s.threads[u])
    && n.threads[s.current] == s.threads[s.current].(children := s.threads[s.current].children + if detached then {} else {t})
    && Q(n, RunQueue) == Q(s, RunQueue) + [t] && (forall id :: id != RunQueue ==> Q(n, id) == Q(s, id))
    && n.freePages == s.freePages[k..] && n.mutexes == s.mutexes && n.current == s.current && n.intr && !n.preemptOff && !n.halted
  }

  lemma BornCreates(s: State, detached: bool, usermode: bool)
    requires s.current in s.threads && PagesNeeded(usermode) <= |s.freePages| && s.freePages[0] !in s.threads
    requires Q(s, JoinQueue(s.freePages[0])) == [] && s.intr && !s.preemptOff && !s.halted
    ensures Created(s, Born(s, detached, usermode), detached, usermode)
  {}

  lemma SpawnOutcome(s: State, detached: bool, usermode: bool)
    requires Inv(s) && Enabled(s, DoSpawn(detached, usermode))
    ensures var n := Next(s, DoSpawn(detached, usermode));
            && Created(s, n, detached, usermode)
            && n.current in n.threads && (Enabled(n, DoJoin(s.freePages[0])) <==> !detached)
  {
    hide *;
    InvParts(s);
    CoreParts(s, s.current);
    MaySpawn(s, detached, usermode);
    NextIs(s, DoSpawn(detached, usermode));
    FreshPage(s, s.freePages[0]);
    FreshPlace(s, s.current, s.freePages[0]);
    BornIs(s, detached, usermode);
    BornCreates(s, detached, usermode);
    NotChild(s, s.freePages[0]);
    SameIdle(s, detached, usermode);
    NewChild(s, Born(s, detached, usermode), detached, usermode);
  }

  lemma NotChild(s: State, t: Tid)
    requires Refs(s) && s.current in s.threads && t !in s.threads
    ensures t !in s.threads[s.current].children
  {
    assert t in s.threads[s.current].children ==> t in RefsOf(s.threads[s.current]) && RefOk(s, s.current, t);
  }

  lemma SameIdle(s: State, detached: bool, usermode: bool)
    requires s.current in s.threads && PagesNeeded(usermode) <= |s.freePages|
    ensures Born(s, detached, usermode).idle == s.idle
  {}

  lemma NewChild(s: State, n: State, detached: bool, usermode: bool)
    requires Created(s, n, detached, usermode) && s.threads[s.current].pc == Running && s.current != s.idle && n.idle == s.idle
    requires s.freePages[0] !in s.threads[s.current].children
    ensures n.current in n.threads && (Enabled(n, DoJoin(s.freePages[0])) <==> !detached)
  {
    hide Q;
  }

  // ---------------------------------------------------------------- the timer

  /** A tick: the clock, 32 bits wide, and the current thread's count go up by one. Who has been counted four
      times already goes behind everyone who is runnable, to go on where it is, unless preemption is disabled. */
  lemma TickOutcome(s: State)
    requires Inv(s) && Enabled(s, Tick)
    ensures s.current in s.threads
    ensures var th := s.threads[s.current]; var clock := s.(ticks := (s.ticks + 1) % 0x1_0000_0000);
            if th.numTicks >= 4 && !s.preemptOff then Parked(clock, Next(s, Tick), RunQueue, Preempted(th.pc))
            else Next(s, Tick) == clock.(threads := s.threads[s.current := th.(numTicks := th.numTicks + 1)])
  {
    hide *;
    InvParts(s);
    TickIsNext(s);
    TickIs(s);
    ClockIs(s);
    var c := Counted(s);
    if s.threads[s.current].numTicks >= 4 && !s.preemptOff {
      var b := c.(intr := false);
      NextKeeps(s, Tick);
      InvParts(Next(s, Tick));
      CountedKeeps(s);
      AwakeNow(c);
      Parks(c, b, RunQueue, Preempted(c.threads[c.current].pc));
      ParkedBefore(s.(ticks := (s.ticks + 1) % 0x1_0000_0000), c, Block(b, RunQueue, Preempted(c.threads[c.current].pc)),
                   RunQueue, Preempted(c.threads[c.current].pc));
    }
  }

  lemma ClockIs(s: State)
    requires s.current in s.threads && !s.halted
    ensures var c := Counted(s); var clock := s.(ticks := (s.ticks + 1) % 0x1_0000_0000); var th := s.threads[s.current];
            && c == clock.(threads := s.threads[s.current := th.(numTicks := th.numTicks + 1)]) && Aside(clock, c)
            && c.threads[s.current].pc == th.pc && c.current == s.current && (forall j :: Q(c, j) == Q(clock, j))
            && c.preemptOff == s.preemptOff && c.halted == s.halted
    ensures THREAD_QUANTUM == 4
  {}

  lemma AwakeNow(s: State)
    requires Inv(s)
    ensures s.current in s.threads && s.current !in Q(s, SleepQueue)
  {
    InvParts(s);
    CoreParts(s, s.current);
    QueueOkAt(s, s.current, SleepQueue);
    hide *;
    OffQueue(s, SleepQueue);
  }

  /** Back on the processor a preempted thread goes on exactly where it was, and a thread that yielded,
      slept or waited returns to its caller; a new thread is launched. Interrupts are on again. */
  lemma ResumeOutcome(s: State)
    requires Inv(s) && s.current in s.threads
    requires var pc := s.threads[s.current].pc; pc.Preempted? || pc.Yielded? || pc.Slept? || pc.Waited? || (pc.Start? && s.current != s.reaper)
    ensures var pc := s.threads[s.current].pc;
            && Enabled(s, Step)
            && Next(s, Step) == s.(intr := true, threads := s.threads[s.current :=
                 s.threads[s.current].(pc := if pc.Preempted? then pc.at else Running)])
  {
    hide Core, Sleepers;
    InvParts(s);
  }

  /** Between the steps of `mutexLock` and `mutex_unlock` only a tick or a key can come: it leaves the caller on the
      processor, where it is, and all mutexes and their waiters as they are. */
  lemma MutexUndisturbed(s: State, a: Action, m: nat)
    requires Inv(s) && Enabled(s, a) && s.preemptOff && a != Step
    ensures s.current in s.threads && (a == Tick || a.Key?)
    ensures var n := Next(s, a); var c := s.current;
            && n.current == c && n.threads == s.threads[c := s.threads[c].(numTicks := s.threads[c].numTicks + if a == Tick then 1 else 0)]
            && n.mutexes == s.mutexes && Q(n, MutexQueue(m)) == Q(s, MutexQueue(m)) && n.preemptOff && n.intr == s.intr
  {
    hide *;
    InvParts(s);
    InCall(s, a);
    if a == Tick {
      TickOutcome(s);
      SameMutexQueue(s, Next(s, a), m);
    } else {
      WakeOutcome(s, a, a.c, true);
      KeyApart(s, Next(s, a), a.c, m);
    }
  }

  lemma InCall(s: State, a: Action)
    requires s.current in s.threads && FlagsOk(s) && s.preemptOff && Enabled(s, a)
    ensures a == Tick || a == Step || a.Key?
  {}

  lemma SameMutexQueue(s: State, n: State, m: nat)
    requires n.queues == s.queues
    ensures Q(n, MutexQueue(m)) == Q(s, MutexQueue(m))
  {}

  lemma KeyApart(s: State, n: State, c: nat, m: nat)
    requires Undisturbed(s, n) && AllMoved(s, n, WaitQueue(c)) && s.current in s.threads
    ensures n.current == s.current && n.threads == s.threads && n.mutexes == s.mutexes && n.preemptOff == s.preemptOff && n.intr == s.intr
    ensures Q(n, MutexQueue(m)) == Q(s, MutexQueue(m))
    ensures s.threads == s.threads[s.current := s.threads[s.current].(numTicks := s.threads[s.current].numTicks + 0)]
  {
    hide Q, Aside;
  }

  // ---------------------------------------------------------------- exit

  /** The caller of `exit` is dead with its code and holds nothing any more; whoever waited to join it is
      runnable. If nobody may join it, it is last in the graveyard and the reaper's waiters are runnable too;
      otherwise it is in no queue, one reference left. The first runnable thread has the processor. */
  ghost predicate Left(s: State, n: State, code: int) {
    && s.current in s.threads
    && var c := s.current; var th := s.threads[c]; var last := !th.ownerRef;
    && n.threads.Keys == s.threads.Keys
    && n.threads[c] == th.(pc := Dead, alive := false, exitCode := code, children := {}, refCount := if last then 0 else 1, numTicks := 0)
    && (forall t {:trigger Rested(s, t)} :: t in s.threads && t != c ==> n.threads[t] == Rested(s, t))
    && [n.current] + Q(n, RunQueue) == Q(s, RunQueue) + Q(s, JoinQueue(c)) + (if last then Q(s, ReaperWait) else []) + Woke(s)
    && Q(n, SleepQueue) == NotDue(s, Q(s, SleepQueue)) && Q(n, JoinQueue(c)) == []
    && Q(n, ReaperWait) == (if last then [] else Q(s, ReaperWait))
    && Q(n, Graveyard) == Q(s, Graveyard) + (if last then [c] else [])
    && (forall j :: j != RunQueue && j != SleepQueue && j != JoinQueue(c) && j != ReaperWait && j != Graveyard ==> Q(n, j) == Q(s, j))
    && n.mutexes == s.mutexes && !n.intr && !n.preemptOff && Aside(s, n)
  }

  /** The exiting thread just before the dispatch. */
  ghost predicate Going(s: State, e: State, code: int) {
    && s.current in s.threads && e.current == s.current
    && var c := s.current; var th := s.threads[c]; var last := !th.ownerRef;
    && e.threads == s.threads[c := th.(pc := Dead, alive := false, exitCode := code, children := {}, refCount := if last then 0 else 1)]
    && Q(e, RunQueue) == Q(s, RunQueue) + Q(s, JoinQueue(c)) + (if last then Q(s, ReaperWait) else [])
    && Q(e, SleepQueue) == Q(s, SleepQueue) && Q(e, JoinQueue(c)) == []
    && Q(e, ReaperWait) == (if last then [] else Q(s, ReaperWait))
    && Q(e, Graveyard) == Q(s, Graveyard) + (if last then [c] else [])
    && (forall j :: j != RunQueue && j != SleepQueue && j != JoinQueue(c) && j != ReaperWait && j != Graveyard ==> Q(e, j) == Q(s, j))
    && e.mutexes == s.mutexes && e.ticks == s.ticks && e.freePages == s.freePages
    && e.main == s.main && e.idle == s.idle && e.reaper == s.reaper
  }

  lemma WakeAllMoves(s: State, id: QueueId)
    requires id != RunQueue
    ensures var w := WakeAll(s, id);
            && AllMoved(s, w, id) && w == s.(queues := w.queues, halted := w.halted)
  {
    hide Appendable;
  }

  lemma DiesIs(w: State, code: int)
    requires w.current in w.threads && w.threads[w.current].refCount == 1 + One(w.threads[w.current].ownerRef)
    ensures var d := Died(w, code); var th := w.threads[w.current];
            && d == w.(threads := d.threads) && d.current in d.threads
            && d.threads == w.threads[w.current := th.(pc := Dead, alive := false, exitCode := code, children := {},
                                                       refCount := if th.ownerRef then 1 else 0)]
            && (forall j :: Q(d, j) == Q(w, j))
  {}

  lemma EndsIs(d: State)
    requires d.current in d.threads
    ensures var c := d.current; var e := Gone(d); var last := d.threads[c].refCount == 0;
            && e.current == c && e.threads == d.threads && e.mutexes == d.mutexes && e.ticks == d.ticks && e.freePages == d.freePages
            && e.main == d.main && e.idle == d.idle && e.reaper == d.reaper
            && Q(e, RunQueue) == Q(d, RunQueue) + (if last then Q(d, ReaperWait) else [])
            && Q(e, ReaperWait) == (if last then [] else Q(d, ReaperWait))
            && Q(e, Graveyard) == Q(d, Graveyard) + (if last then [c] else [])
            && (forall j :: j != RunQueue && j != ReaperWait && j != Graveyard ==> Q(e, j) == Q(d, j))
  {
    GoneIf(d);
    WakeAllMoves(d, ReaperWait);
    EnqueueRouses(WakeAll(d, ReaperWait), d.current);
    hide WakeAll, Gone, Q;
    var w := WakeAll(d, ReaperWait);
    assert Enqueue(w, Graveyard, d.current).mutexes == w.mutexes;
    hide Enqueue;
  }

  lemma Goes(s: State, code: int)
    requires s.current in s.threads && s.intr && s.threads[s.current].refCount == 1 + One(s.threads[s.current].ownerRef)
    ensures var w := WakeAll(Cli(s), JoinQueue(s.current));
            && w.current in w.threads && Died(w, code).current in Died(w, code).threads && Going(s, Gone(Died(w, code)), code)
  {
    var c := Cli(s);
    CliIs(s);
    assert c.threads == s.threads && c.mutexes == s.mutexes && c.ticks == s.ticks && c.freePages == s.freePages && c.current == s.current
      && c.main == s.main && c.idle == s.idle && c.reaper == s.reaper;
    var w := WakeAll(c, JoinQueue(s.current));
    hide Cli, WakeAll, Died, Gone, Q;
    WakeAllMoves(c, JoinQueue(s.current));
    DiesIs(w, code);
    EndsIs(Died(w, code));
  }

  /** `exit`, whole. */
  lemma ExitOutcome(s: State, code: int)
    requires Inv(s) && Enabled(s, DoExit(code))
    ensures Left(s, Next(s, DoExit(code)), code)
  {
    hide *;
    ExitFacts(s, code);
    NextIs(s, DoExit(code));
    NextKeeps(s, DoExit(code));
    InvParts(Next(s, DoExit(code)));
    RefsAre(s);
    ExitLeaves(s, code);
    Goes(s, code);
    var e := Gone(Died(WakeAll(Cli(s), JoinQueue(s.current)), code));
    LeavingMeans(e);
    Dispatches(e);
    AwakeNow(s);
    LeftFrom(s, e, Schedule(e), code);
  }

  lemma RefsAre(s: State)
    requires s.current in s.threads && RoleOk(s, s.current) && s.threads[s.current].pc != Dead
    ensures s.threads[s.current].refCount == 1 + One(s.threads[s.current].ownerRef)
  {}

  lemma LeftFrom(s: State, e: State, n: State, code: int)
    requires Going(s, e, code) && AllRested(e, n) && HeadTaken(e, n) && n.mutexes == e.mutexes && !n.intr && !n.preemptOff && Aside(e, n)
    requires s.current !in Q(s, SleepQueue)
    ensures Left(s, n, code)
  {
    hide Q, Woke, NotDue;
    SameWoke(s, e);
    assert e.threads[s.current].(numTicks := 0) == Rested(e, s.current);
    forall t | t in s.threads && t != s.current ensures n.threads[t] == Rested(s, t) {
      assert e.threads[t] == s.threads[t] && Rested(e, t) == Rested(s, t);
    }
    hide AllRested, Rested;
  }

  // ---------------------------------------------------------------- what may be called

  /** A thread at its own code may be interrupted and may yield; all but the idle thread may sleep, wait and
      wake, lock exactly the mutexes they do not own and unlock exactly those they own, exit, main apart,
      while they own none, and spawn while pages are to spare. */
  lemma CallsOpen(s: State, m: nat, c: nat, all: bool, ms: nat, code: int, detached: bool, usermode: bool)
    requires Inv(s) && s.current in s.threads && s.threads[s.current].pc == Running
    ensures Enabled(s, Tick) && Enabled(s, Key(c)) && Enabled(s, DoYield)
    ensures s.current != s.idle ==>
              && Enabled(s, DoSleep(ms)) && Enabled(s, DoWait(c)) && Enabled(s, DoWake(c, all))
              && (Enabled(s, DoLock(m)) <==> MutexOf(s, m) != Mutex(true, s.current))
              && (Enabled(s, DoUnlock(m)) <==> MutexOf(s, m) == Mutex(true, s.current))
              && (Enabled(s, DoExit(code)) <==> s.current != s.main && forall k :: MutexOf(s, k) != Mutex(true, s.current))
              && (Enabled(s, DoSpawn(detached, usermode)) <==> |s.freePages| > if usermode then 3 else 2)
  {
    hide *;
    InvParts(s);
    OwnsHeld(s, m);
    RunningOpen(s, c, all, ms, detached, usermode);
    if s.current != s.idle {
      MutexOpen(s, m);
      ExitOpen(s, code);
    }
  }

  lemma RunningOpen(s: State, c: nat, all: bool, ms: nat, detached: bool, usermode: bool)
    requires s.current in s.threads && FlagsOk(s) && s.threads[s.current].pc == Running
    ensures Enabled(s, Tick) && Enabled(s, Key(c)) && Enabled(s, DoYield)
    ensures s.current != s.idle ==>
              && Enabled(s, DoSleep(ms)) && Enabled(s, DoWait(c)) && Enabled(s, DoWake(c, all))
              && (Enabled(s, DoSpawn(detached, usermode)) <==> |s.freePages| > if usermode then 3 else 2)
  {}

  lemma MutexOpen(s: State, m: nat)
    requires s.current in s.threads && s.threads[s.current].pc == Running && s.current != s.idle
    ensures (Enabled(s, DoLock(m)) <==> m !in s.threads[s.current].held) && (Enabled(s, DoUnlock(m)) <==> m in s.threads[s.current].held)
  {}

  lemma ExitOpen(s: State, code: int)
    requires Inv(s) && s.current in s.threads && s.threads[s.current].pc == Running && s.current != s.idle
    ensures Enabled(s, DoExit(code)) <==> s.current != s.main && forall k :: MutexOf(s, k) != Mutex(true, s.current)
  {
    hide Inv, MutexOf;
    forall k ensures k in s.threads[s.current].held <==> MutexOf(s, k) == Mutex(true, s.current) { OwnsHeld(s, k); }
    if s.threads[s.current].held != {} {
      var k :| k in s.threads[s.current].held;
    }
  }

  lemma OwnsHeld(s: State, m: nat)
    requires Inv(s) && s.current in s.threads && s.threads[s.current].pc == Running
    ensures m in s.threads[s.current].held <==> MutexOf(s, m) == Mutex(true, s.current)
  {
    HeldMeansInside(s, m);
    hide Inv;
  }

  // ---------------------------------------------------------------- boot

  /** After boot main has the processor and no mutex; the idle thread and the reaper, detached and on the first
      four free pages, are runnable in that order, and nobody waits for anything. */
  lemma BootOutcome(main: Tid, stack: nat, free: seq<nat>)
    requires Bootable(main, free)
    ensures var s := Boot(main, stack, free);
            && s.threads.Keys == {main, free[0], free[2]} && s.current == s.main == main && s.idle == free[0] && s.reaper == free[2]
            && s.threads[main].pc == Running && s.threads[main].refCount == 1 && s.threads[main].held == s.threads[main].children == {}
            && Newborn(s.threads[free[0]], true, free[1], None) && Newborn(s.threads[free[2]], true, free[3], None)
            && Q(s, RunQueue) == [free[0], free[2]] && (forall id :: id != RunQueue ==> Q(s, id) == [])
            && s.freePages == free[4..] && (forall m :: MutexOf(s, m) == Mutex(false, 0))
            && s.intr && !s.preemptOff && s.ticks == 0 && !s.halted
  {
    BootIs(main, stack, free);
    hide Boot, Q, Bootable;
  }
}

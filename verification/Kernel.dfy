/** The scheduler as the kernel has it: thread records and queue ends in memory, every queue a
    chain through the one `queueNext` field. Each operation is proved to do to the chains what
    the model does to sequences. */
module Kernel {
  import opened Basics
  import opened SchedModel
  import opened SchedInv
  import opened SchedLocal
  import opened SchedCalls
  import opened SchedLives
  import opened SchedEffects
  import opened SchedRuns
  import opened SchedLinks
  import opened SchedWalks
  import opened SchedReady
  import M = SchedModel

  class Scheduler {
    var threads: map<Tid, Thread>
    var queueNext: map<Tid, Tid>
    var ends: map<QueueId, Ends>
    var mutexes: map<nat, Mutex>
    var current: Tid
    var intr: bool
    var preemptOff: bool
    var ticks: nat
    var freePages: seq<nat>
    var main: Tid
    var idle: Tid
    var reaper: Tid

    /** The queues the chains stand for, and the queue, if any, whose ends are out of date. */
    ghost var queues: map<QueueId, seq<Tid>>
    ghost var stale: Option<QueueId>

    ghost function Model(): State
      reads this
    {
      State(threads, queues, mutexes, current, intr, preemptOff, ticks, freePages, main, idle, reaper, false)
    }

    ghost function RealEnds(): map<QueueId, Ends>
      reads this
    {
      match stale
      case None => ends
      case Some(id) => ends[id := EndsFor(QOf(queues, id))]
    }

    ghost predicate Valid()
      reads this
    {
      Linked(queueNext, RealEnds(), queues)
    }

    /** Boot: the main thread's record, then the idle thread and the reaper. */
    constructor (mainThread: Tid, stack: nat, free: seq<nat>)
      requires Bootable(mainThread, free)
      ensures Valid() && stale == None && Model() == Boot(mainThread, stack, free) && Inv(Model())
    {
      hide Linked, Free, M.Spawn, Boot, Inv, NoDup;
      threads := Bare(mainThread, stack, free).threads;
      queueNext := map[];
      ends := map[];
      mutexes := map[];
      current := mainThread;
      intr := true;
      preemptOff := false;
      ticks := 0;
      freePages := free;
      main := mainThread;
      idle := free[0];
      reaper := free[2];
      queues := map[];
      stale := None;
      new;
      BootSpawns(mainThread, stack, free);
      BootKeeps(mainThread, stack, free);
      NothingLinked();
      assert Model() == Bare(mainThread, stack, free);
      FirstSpawns(mainThread, stack, free);
      var idleThread := SpawnThread(true, false);
      var reaperThread := SpawnThread(true, false);
    }

    // -------------------------------------------------------------- the interrupt flag

    method Cli()
      requires intr
      modifies this`intr
      ensures Model() == M.Cli(old(Model()))
    {
      assert intr;
      intr := false;
    }

    method Sti()
      requires !intr
      modifies this`intr
      ensures Model() == M.Sti(old(Model()))
    {
      assert !intr;
      intr := true;
    }

    /** Interrupts go off; the caller learns whether they were on. */
    method BegIntAtomic() returns (enabled: bool)
      modifies this`intr
      ensures enabled == old(intr) && !intr
    {
      enabled := intr;
      if enabled {
        Cli();
      }
    }

    /** Interrupts go back to what they were. */
    method EndIntAtomic(iFlag: bool)
      requires !intr
      modifies this`intr
      ensures intr == iFlag
    {
      assert !intr;
      if iFlag {
        Sti();
      }
    }

    // -------------------------------------------------------------- queues

    /** Walk the chain from its head. */
    method ContainsThread(id: QueueId, t: Tid) returns (found: bool)
      requires Valid() && !intr && t != NULL && stale != Some(id)
      ensures found <==> t in QOf(queues, id)
    {
      ghost var q := QOf(queues, id);
      ghost var i := 0;
      assert Stored(queueNext, RealEnds(), queues, id);
      var cur := EndsOf(ends, id).head;
      while cur != NULL
        invariant 0 <= i <= |q| && cur == At0(q, i) && t !in q[..i]
        decreases |q| - i
      {
        assert Linking(queueNext, q, i);
        if cur == t {
          return true;
        }
        cur := queueNext[cur];
        i := i + 1;
      }
      NullEnds(q, i);
      assert q[..i] == q;
      assert t != EndsOf(ends, id).tail;
      return false;
    }

    /** Link a thread without a successor behind the tail. */
    method Hang(id: QueueId, t: Tid)
      requires Valid() && t != NULL && stale != Some(id) && Free(queues, t) && t in queueNext && queueNext[t] == NULL
      modifies this`queueNext, this`ends, this`queues
      ensures Valid() && queues == old(queues)[id := QOf(old(queues), id) + [t]]
      ensures stale.Some? ==> EndsOf(ends, stale.value) == EndsOf(old(ends), stale.value)
    {
      hide Linked, Free, Stored, Proper, EndsFor, HungNext;
      ghost var q := QOf(queues, id);
      StoredAt(queueNext, RealEnds(), queues, id);
      HungLinked(queueNext, RealEnds(), queues, id, t);
      HungAt(queueNext, q, t);
      ghost var hung := HungNext(queueNext, q, t);
      ghost var after := RealEnds()[id := Ends(if q == [] then t else q[0], t)];
      var e := EndsOf(ends, id);
      if e.head == NULL {
        assert e.tail == NULL;
        ends := ends[id := Ends(t, t)];
      } else if e.head == e.tail {
        assert queueNext[e.head] == NULL;
        queueNext := queueNext[e.tail := t];
        ends := ends[id := Ends(e.head, t)];
      } else {
        queueNext := queueNext[e.tail := t];
        ends := ends[id := Ends(e.head, t)];
      }
      if stale.Some? {
        assert QOf(queues[id := q + [t]], stale.value) == QOf(queues, stale.value);
      }
      hide EndsOf, QOf;
      queues := queues[id := q + [t]];
      assert queueNext == hung && RealEnds() == after;
    }

    /** A thread, in no queue so far, joins the end of one. */
    method EnqueueThread(id: QueueId, t: Tid)
      requires Valid() && !intr && t != NULL && stale != Some(id) && Free(queues, t)
      modifies this`queueNext, this`ends, this`queues
      ensures Valid() && queues == old(queues)[id := QOf(old(queues), id) + [t]]
      ensures stale.Some? ==> EndsOf(ends, stale.value) == EndsOf(old(ends), stale.value)
    {
      hide Linked, Free, EndsOf;
      FreeKept(queueNext, RealEnds(), queues, t, NULL);
      queueNext := queueNext[t := NULL];
      FreeOf(queues, id, t);
      var found := ContainsThread(id, t);
      assert !found;
      Hang(id, t);
    }

    method MakeRunnable(t: Tid)
      requires Valid() && !intr && t != NULL && stale != Some(RunQueue) && Free(queues, t)
      modifies this`queueNext, this`ends, this`queues
      ensures Valid() && queues == old(queues)[RunQueue := QOf(old(queues), RunQueue) + [t]]
      ensures stale.Some? ==> EndsOf(ends, stale.value) == EndsOf(old(ends), stale.value)
    {
      EnqueueThread(RunQueue, t);
    }

    /** Take a thread out of its queue, walking the whole chain; a thread that is in no queue at all
        is not found, and nothing changes. */
    method DequeueThread(id: QueueId, t: Tid, ghost k: nat)
      requires Valid() && !intr && stale == None && t != NULL && k <= |QOf(queues, id)|
      requires if k < |QOf(queues, id)| then QOf(queues, id)[k] == t else Free(queues, t)
      modifies this`queueNext, this`ends, this`queues
      ensures Valid() && Free(queues, t)
      ensures if k < |QOf(old(queues), id)| then queues == old(queues)[id := Without(QOf(old(queues), id), k)] else queues == old(queues)
    {
      ghost var q := QOf(queues, id);
      ghost var i := 0;
      ghost var next0, ends0 := queueNext, ends;
      assert Stored(queueNext, ends, queues, id);
      if k < |q| { SkippedLinked(queueNext, ends, queues, id, k); }
      var cur := EndsOf(ends, id).head;
      var prev := NULL;
      while cur != NULL
        invariant 0 <= i <= |q| && cur == At0(q, i) && queues == old(queues)
        invariant i <= k ==> queueNext == next0 && ends == ends0 && prev == if i == 0 then NULL else q[i - 1]
        invariant i > k ==> queueNext == SkippedNext(next0, q, k)
        invariant i > k ==> ends == if k == 0 then ends0[id := Ends(At0(q, 1), EndsOf(ends0, id).tail)] else ends0
        invariant i > k ==> prev == if i > k + 1 then q[i - 1] else if k == 0 then NULL else q[k - 1]
        decreases |q| - i
      {
        assert Linking(next0, q, i);
        if t == cur {
          assert i == k;
          if cur == EndsOf(ends, id).head {
            assert k == 0;
            ends := ends[id := Ends(queueNext[cur], EndsOf(ends, id).tail)];
          } else {
            queueNext := queueNext[prev := queueNext[cur]];
          }
        } else {
          prev := cur;
        }
        cur := queueNext[cur];
        i := i + 1;
      }
      NullEnds(q, i);
      ends := ends[id := Ends(EndsOf(ends, id).head, prev)];
      if k < |q| {
        assert ends == ends0[id := SkippedEnds(q, k)];
        queues := queues[id := Without(q, k)];
      } else {
        EndsAnew(queueNext, ends0, queues, id);
        assert ends == ends0[id := EndsFor(q)];
      }
      FreeKept(queueNext, ends, queues, t, NULL);
      queueNext := queueNext[t := NULL];
    }

    /** Forget a queue's members; nobody follows its chain any more. */
    method ThreadQueueClear(id: QueueId)
      requires Valid() && (stale == None || stale == Some(id)) && QOf(queues, id) == []
      modifies this`ends, this`stale
      ensures Valid() && stale == None && ends == old(ends)[id := Ends(NULL, NULL)]
    {
      assert EndsFor(QOf(queues, id)) == Ends(NULL, NULL);
      assert Stored(queueNext, RealEnds(), queues, id);
      EndsAnew(queueNext, RealEnds(), queues, id);
      ends := ends[id := Ends(NULL, NULL)];
      stale := None;
    }

    /** One turn of `wakeAll`: the next link is read before the thread is relinked. */
    method WakeHead(id: QueueId, thread: Tid) returns (next: Tid)
      requires Valid() && !intr && stale == Some(id) && id != RunQueue
      requires QOf(queues, id) != [] && thread == QOf(queues, id)[0]
      modifies this`queueNext, this`ends, this`queues
      ensures Valid() && next == At0(QOf(old(queues), id), 1)
      ensures queues == old(queues)[id := QOf(old(queues), id)[1..]][RunQueue := QOf(old(queues), RunQueue) + [thread]]
    {
      hide Linked, Free, EndsFor;
      HeadGiven(queueNext, ends, queues, id);
      next := queueNext[thread];
      queues := queues[id := QOf(queues, id)[1..]];
      MakeRunnable(thread);
    }

    /** Every waiter becomes runnable, in order. */
    method WakeAll(id: QueueId)
      requires Valid() && !intr && stale == None && id != RunQueue
      modifies this`queueNext, this`ends, this`queues, this`stale
      ensures Valid() && stale == None && Model() == M.WakeAll(old(Model()), id)
    {
      hide Linked, Stored, Proper, M.WakeAll, EndsFor, EndsOf, At0, Linking;
      ghost var q, r := QOf(queues, id), QOf(queues, RunQueue);
      ghost var s := Model();
      ghost var i := 0;
      StoredAt(queueNext, ends, queues, id);
      WakeAllResult(queueNext, ends, s, id);
      EndsAnew(queueNext, ends, queues, id);
      stale := Some(id);
      var thread := EndsOf(ends, id).head;
      queues := s.queues[id := q][RunQueue := r];
      SameLinks(queueNext, RealEnds(), s.queues, queues);
      NoneWoken(q, r);
      while thread != NULL
        invariant 0 <= i <= |q| && thread == At0(q, i) && stale == Some(id) && Valid()
        invariant queues == s.queues[id := q[i..]][RunQueue := r + q[..i]]
        decreases |q| - i
      {
        OneWoken(q, r, i);
        TwoQueues(s.queues, id, q[i..], q[i + 1..], r + q[..i], r + q[..i + 1]);
        thread := WakeHead(id, thread);
        i := i + 1;
      }
      AllWoken(q, r, i);
      ThreadQueueClear(id);
    }

    /** The head of a queue, if any, becomes runnable. */
    method WakeOne(id: QueueId)
      requires Valid() && !intr && stale == None && id != RunQueue
      modifies this`queueNext, this`ends, this`queues
      ensures Valid() && Model() == M.WakeOne(old(Model()), id)
    {
      hide Linked, Free, Stored, M.WakeOne, EndsFor, EndsOf;
      assert !intr;
      ghost var q := QOf(queues, id);
      ghost var s := Model();
      StoredAt(queueNext, ends, queues, id);
      NullEnds(q, 0);
      WakeOneResult(queueNext, ends, s, id);
      var best := EndsOf(ends, id).head;
      if best != NULL {
        assert Without(q, 0) == q[1..];
        DequeueThread(id, best, 0);
        MakeRunnable(best);
      }
    }

    /** An expired sleeper at index `k` of the sleep queue becomes runnable. */
    method WakeSleeper(thread: Tid, ghost k: nat)
      requires Valid() && !intr && stale == None && thread in threads
      requires k < |QOf(queues, SleepQueue)| && QOf(queues, SleepQueue)[k] == thread
      modifies this`queueNext, this`ends, this`queues, this`threads
      ensures Valid()
      ensures queues == old(queues)[SleepQueue := Without(QOf(old(queues), SleepQueue), k)]
                                   [RunQueue := QOf(old(queues), RunQueue) + [thread]]
      ensures threads == old(threads)[thread := old(threads)[thread].(sleepUntil := 0)]
    {
      hide Linked, Free, Without;
      StoredAt(queueNext, ends, queues, SleepQueue);
      assert thread in QOf(queues, SleepQueue);
      threads := threads[thread := threads[thread].(sleepUntil := 0)];
      DequeueThread(SleepQueue, thread, k);
      MakeRunnable(thread);
    }

    /** Move the expired sleepers to the run queue, editing the sleep queue while walking it. */
    method WakeSleepers()
      requires Valid() && !intr && stale == None
      requires Recorded(threads, QOf(queues, SleepQueue))
      modifies this`queueNext, this`ends, this`queues, this`threads
      ensures Valid() && Model() == M.WakeSleepers(old(Model()))
    {
      hide Linked, Stored, Proper, Recorded, M.WakeSleepers, EndsFor, EndsOf, Due, NotDue, ClearSleep, At0, Without, Walked, Kept;
      ghost var s := Model();
      ghost var q, r := QOf(queues, SleepQueue), QOf(queues, RunQueue);
      ghost var i := 0;
      StoredAt(queueNext, ends, queues, SleepQueue);
      WakeSleepersResult(queueNext, ends, s);
      var thread := EndsOf(ends, SleepQueue).head;
      queues := s.queues[SleepQueue := q][RunQueue := r];
      SameLinks(queueNext, ends, s.queues, queues);
      NoneWalked(s, q, r);
      while thread != NULL
        invariant 0 <= i <= |q| && thread == At0(q, i) && Valid() && Walked(s, q, r, i, queues, threads)
        decreases |q| - i
      {
        WalkedAt(s, q, r, i, queueNext, ends, queues, threads);
        var next := queueNext[thread];
        if ticks >= threads[thread].sleepUntil {
          WalkedOff(s, q, r, i, queues, threads);
          WakeSleeper(thread, Kept(s, q, i));
        } else {
          WalkedOn(s, q, r, i, queues, threads);
        }
        thread := next;
        i := i + 1;
      }
      AllWalked(s, q, r, i, queues, threads);
    }

    // -------------------------------------------------------------- dispatch

    /** The head of the run queue, taken out of it. */
    method GetNextRunnable() returns (best: Tid)
      requires Valid() && !intr && stale == None && QOf(queues, RunQueue) != []
      modifies this`queueNext, this`ends, this`queues
      ensures Valid() && best == QOf(old(queues), RunQueue)[0]
      ensures queues == old(queues)[RunQueue := QOf(old(queues), RunQueue)[1..]]
    {
      hide Linked, Free, Stored, EndsFor, EndsOf;
      StoredAt(queueNext, ends, queues, RunQueue);
      best := EndsOf(ends, RunQueue).head;
      assert Without(QOf(queues, RunQueue), 0) == QOf(queues, RunQueue)[1..];
      NullEnds(QOf(queues, RunQueue), 0);
      assert best != NULL;
      DequeueThread(RunQueue, best, 0);
    }

    /** Leave the current thread, clearing its tick count, for another. */
    method SwitchToThread(t: Tid)
      requires current in threads
      modifies this`threads, this`current
      ensures Model() == SwitchTo(old(Model()), t)
    {
      threads := threads[current := threads[current].(numTicks := 0)];
      current := t;
    }

    method Schedule()
      requires Valid() && stale == None && Leaving(Model())
      modifies this
      ensures Valid() && stale == None && Model() == M.Schedule(old(Model()))
    {
      hide Linked, Leaving, M.WakeSleepers, M.Schedule, Recorded;
      DispatchReady(Model());
      RunnableThere(Model());
      assert !intr;
      assert !preemptOff;
      WakeSleepers();
      var runnable := GetNextRunnable();
      SwitchToThread(runnable);
    }

    /** `wait`: the current thread joins a queue, to go on at `pc`, and gives up the processor. */
    method Wait(id: QueueId, pc: Pc)
      requires Valid() && stale == None && current in threads && !intr && current != NULL && Free(queues, current)
      requires Leaving(Entered(Model(), id, pc))
      modifies this
      ensures Valid() && stale == None && Model() == M.Block(old(Model()), id, pc)
    {
      hide Linked, Leaving, M.Schedule, Free;
      FreeOf(queues, id, current);
      EnteredFlags(Model(), id, pc);
      EnqueueIs(SetPc(Model(), current, pc), id, current);
      threads := threads[current := threads[current].(pc := pc)];
      EnqueueThread(id, current);
      Schedule();
    }

    // -------------------------------------------------------------- calls that block

    method Yield()
      requires Valid() && stale == None && Inv(Model()) && Enabled(Model(), DoYield)
      modifies this
      ensures Valid() && stale == None && Model() == M.Next(old(Model()), DoYield)
    {
      hide Linked, Leaving, M.Block, Free, Entered, Inv, M.Next;
      BlockerReady(Model(), DoYield);
      CurrentFree(Model());
      IntrIsOn(Model());
      Cli();
      Wait(RunQueue, Yielded);
    }

    method Sleep(milliseconds: nat)
      requires Valid() && stale == None && Inv(Model()) && Enabled(Model(), DoSleep(milliseconds))
      modifies this
      ensures Valid() && stale == None && Model() == M.Next(old(Model()), DoSleep(milliseconds))
    {
      hide Linked, Leaving, M.Block, Free, Entered, Inv, M.Next;
      BlockerReady(Model(), DoSleep(milliseconds));
      CurrentFree(Model());
      IntrIsOn(Model());
      var until := Low32(milliseconds * TICKS_PER_SEC) / 1000;
      if until < 1 {
        until := 1;
      }
      var iFlag := BegIntAtomic();
      assert iFlag;
      threads := threads[current := threads[current].(sleepUntil := Low32(ticks + until))];
      Wait(SleepQueue, Slept);
    }

    method WaitFor(c: nat)
      requires Valid() && stale == None && Inv(Model()) && Enabled(Model(), DoWait(c))
      modifies this
      ensures Valid() && stale == None && Model() == M.Next(old(Model()), DoWait(c))
    {
      hide Linked, Leaving, M.Block, Free, Entered, Inv, M.Next;
      BlockerReady(Model(), DoWait(c));
      CurrentFree(Model());
      IntrIsOn(Model());
      Cli();
      Wait(WaitQueue(c), Waited(c));
    }

    /** One or all waiters of a queue become runnable, interrupts on before and after: a thread's call
        or, for all, the keyboard interrupt. */
    method Wake(c: nat, all: bool)
      requires Valid() && stale == None && Inv(Model()) && intr
      modifies this
      ensures Valid() && stale == None && Model() == M.Wake(old(Model()), c, all)
    {
      hide Linked, Inv, M.WakeAll, M.WakeOne;
      WakeSound(Model(), c, all);
      Cli();
      if all {
        WakeAll(WaitQueue(c));
      } else {
        WakeOne(WaitQueue(c));
      }
      WokenFlags(M.Cli(old(Model())), WaitQueue(c));
      Sti();
    }

    // -------------------------------------------------------------- end of life

    /** Hand a dead thread to the reaper. */
    method ReapThread(t: Tid)
      requires Valid() && stale == None && !intr && t != NULL && Free(queues, t)
      modifies this`queueNext, this`ends, this`queues, this`stale
      ensures Valid() && stale == None && Model() == M.Reap(old(Model()), t)
    {
      hide Linked, Free, M.WakeAll;
      FreeOf(queues, Graveyard, t);
      EnqueueIs(Model(), Graveyard, t);
      EnqueueThread(Graveyard, t);
      WakeAll(ReaperWait);
    }

    /** Drop one reference; the last one gives the thread to the reaper. */
    method DetachThread(t: Tid)
      requires Valid() && stale == None && !intr && t != NULL && Free(queues, t) && t in threads && threads[t].refCount > 0
      modifies this`threads, this`queueNext, this`ends, this`queues, this`stale
      ensures Valid() && stale == None && Model() == M.Detach(old(Model()), t)
    {
      hide Linked, Free, M.Reap;
      assert threads[t].refCount > 0;
      threads := threads[t := threads[t].(refCount := threads[t].refCount - 1)];
      if threads[t].refCount == 0 {
        ReapThread(t);
      }
    }

    method Exit(exitCode: int)
      requires Valid() && stale == None && Inv(Model()) && Enabled(Model(), DoExit(exitCode))
      modifies this
      ensures Valid() && stale == None && Model() == M.Next(old(Model()), DoExit(exitCode))
    {
      hide Linked, Leaving, Free, Inv, M.WakeAll, M.Schedule, M.Detach;
      ExitReady(Model(), exitCode);
      CurrentFree(Model());
      if intr {
        Cli();
      }
      threads := threads[current := threads[current].(exitCode := exitCode, alive := false, pc := Dead, children := {})];
      ghost var d := Model();
      WakeAllFree(d, JoinQueue(current), current);
      WakeAllThreads(d, JoinQueue(current));
      WakeAll(JoinQueue(current));
      DetachThread(current);
      Schedule();
    }

    // -------------------------------------------------------------- join

    method Join(t: Tid)
      requires Valid() && stale == None && Inv(Model()) && Enabled(Model(), DoJoin(t))
      modifies this`intr, this`threads
      ensures Valid() && stale == None && Model() == M.Next(old(Model()), DoJoin(t))
    {
      hide Linked, Inv;
      StepSound(Model(), DoJoin(t));
      IntrIsOn(Model());
      assert intr;
      Cli();
      threads := threads[current := threads[current].(pc := JoinTest(t), children := threads[current].children - {t})];
    }

    /** The loop of `join`: wait again while the thread is alive, else drop the last reference. */
    method JoinStep(t: Tid) returns (exitcode: int)
      requires Valid() && stale == None && Inv(Model()) && Enabled(Model(), Step) && threads[current].pc == JoinTest(t)
      modifies this
      ensures Valid() && stale == None && Model() == M.JoinStep(old(Model()), t)
      ensures t in old(threads) && (!old(threads)[t].alive ==> exitcode == old(threads)[t].exitCode)
    {
      hide Linked, Leaving, Free, Inv, Entered, M.Block, M.Detach;
      CurrentFree(Model());
      exitcode := 0;
      if threads[t].alive {
        BlockerReady(Model(), Step);
        Wait(JoinQueue(t), JoinTest(t));
      } else {
        exitcode := threads[t].exitCode;
        IntrIsOff(Model());
        JoinedFree(Model(), t);
        threads := threads[current := threads[current].(pc := Running)];
        threads := threads[t := threads[t].(ownerRef := false)];
        DetachFlags(Model(), t);
        DetachThread(t);
        Sti();
      }
    }

    // -------------------------------------------------------------- mutexes

    function MutexAt(m: nat): Mutex
      reads this`mutexes
    {
      if m in mutexes then mutexes[m] else Mutex(false, NULL)
    }

    method MutexHeld(m: nat) returns (held: bool)
      ensures held <==> M.MutexHeld(Model(), m)
    {
      if MutexAt(m).locked && MutexAt(m).owner == current {
        return true;
      }
      return false;
    }

    method Lock(m: nat)
      requires Valid() && stale == None && Inv(Model()) && Enabled(Model(), DoLock(m))
      modifies this`preemptOff, this`threads
      ensures Valid() && stale == None && Model() == M.Next(old(Model()), DoLock(m))
    {
      hide Linked, Inv;
      StepSound(Model(), DoLock(m));
      IntrIsOn(Model());
      assert intr;
      preemptOff := true;
      var held := MutexHeld(m);
      assert !held;
      threads := threads[current := threads[current].(pc := LockTest(m))];
    }

    /** The loop of `mutexLock`: wait while the mutex is locked, else lock it. */
    method LockTestStep(m: nat)
      requires Valid() && stale == None && Inv(Model()) && Enabled(Model(), Step) && threads[current].pc == LockTest(m)
      modifies this
      ensures Valid() && stale == None && Model() == M.LockTestStep(old(Model()), m)
    {
      hide Linked, Leaving, Free, Inv, Entered, M.Block;
      CurrentFree(Model());
      if MutexAt(m).locked {
        BlockerReady(Model(), Step);
        IntrIsOn(Model());
        PreemptIsOff(Model());
        assert preemptOff;
        Cli();
        preemptOff := false;
        Wait(MutexQueue(m), LockWoken(m));
      } else {
        mutexes := mutexes[m := MutexAt(m).(locked := true)];
        threads := threads[current := threads[current].(pc := LockOwn(m))];
      }
    }

    method LockOwnStep(m: nat)
      requires Valid() && stale == None && current in threads
      modifies this`mutexes, this`threads
      ensures Valid() && stale == None && Model() == M.LockOwnStep(old(Model()), m)
    {
      hide Linked;
      mutexes := mutexes[m := MutexAt(m).(owner := current)];
      threads := threads[current := threads[current].(pc := LockLeave(m))];
    }

    method LockLeaveStep(m: nat)
      requires Valid() && stale == None && current in threads
      modifies this`preemptOff, this`threads
      ensures Valid() && stale == None && Model() == M.LockLeaveStep(old(Model()), m)
    {
      hide Linked;
      threads := threads[current := threads[current].(pc := Running, held := threads[current].held + {m})];
      preemptOff := false;
    }

    method LockWokenStep(m: nat)
      requires Valid() && stale == None && current in threads && !intr
      modifies this`preemptOff, this`threads, this`intr
      ensures Valid() && stale == None && Model() == M.LockWokenStep(old(Model()), m)
    {
      hide Linked;
      preemptOff := true;
      Sti();
      threads := threads[current := threads[current].(pc := LockTest(m))];
    }

    method Unlock(m: nat)
      requires Valid() && stale == None && Inv(Model()) && Enabled(Model(), DoUnlock(m))
      modifies this`preemptOff, this`threads
      ensures Valid() && stale == None && Model() == M.Next(old(Model()), DoUnlock(m))
    {
      hide Linked, Inv;
      StepSound(Model(), DoUnlock(m));
      IntrIsOn(Model());
      assert intr;
      preemptOff := true;
      var held := MutexHeld(m);
      assert held;
      threads := threads[current := threads[current].(pc := UnlockClear(m), held := threads[current].held - {m})];
    }

    method UnlockClearStep(m: nat)
      requires Valid() && stale == None && current in threads
      modifies this`mutexes, this`threads
      ensures Valid() && stale == None && Model() == M.UnlockClearStep(old(Model()), m)
    {
      hide Linked;
      mutexes := mutexes[m := MutexAt(m).(locked := false)];
      threads := threads[current := threads[current].(pc := UnlockOwn(m))];
    }

    method UnlockOwnStep(m: nat)
      requires Valid() && stale == None && current in threads
      modifies this`mutexes, this`threads
      ensures Valid() && stale == None && Model() == M.UnlockOwnStep(old(Model()), m)
    {
      hide Linked;
      mutexes := mutexes[m := MutexAt(m).(owner := NULL)];
      threads := threads[current := threads[current].(pc := UnlockWake(m))];
    }

    method ThreadQueueEmpty(id: QueueId) returns (empty: bool)
      requires Valid() && stale == None
      ensures empty <==> QOf(queues, id) == []
    {
      hide Linked;
      StoredAt(queueNext, ends, queues, id);
      NullEnds(QOf(queues, id), 0);
      if EndsOf(ends, id).head == NULL && EndsOf(ends, id).tail == NULL {
        return true;
      }
      return false;
    }

    method UnlockWakeStep(m: nat)
      requires Valid() && stale == None && current in threads && intr
      modifies this`intr, this`queueNext, this`ends, this`queues, this`threads
      ensures Valid() && stale == None && Model() == M.UnlockWakeStep(old(Model()), m)
    {
      hide Linked, M.WakeOne;
      threads := threads[current := threads[current].(pc := UnlockLeave)];
      var empty := ThreadQueueEmpty(MutexQueue(m));
      if !empty {
        Cli();
        WokenFlags(Model(), MutexQueue(m));
        WakeOne(MutexQueue(m));
        Sti();
      }
    }

    method UnlockLeaveStep()
      requires Valid() && stale == None && current in threads
      modifies this`preemptOff, this`threads
      ensures Valid() && stale == None && Model() == M.UnlockLeaveStep(old(Model()))
    {
      hide Linked;
      threads := threads[current := threads[current].(pc := Running)];
      preemptOff := false;
    }

    // -------------------------------------------------------------- creation and destruction

    /** The new record is entered, and its parent's account with it. */
    method AddRecord(t: Tid, record: Thread)
      requires current in threads
      modifies this`threads
      ensures var th := old(threads)[current];
              threads == (if record.ownerRef then old(threads)[current := th.(children := th.children + {t})] else old(threads))[t := record]
    {
      if record.ownerRef {
        threads := threads[current := threads[current].(children := threads[current].children + {t})];
      }
      threads := threads[t := record];
    }

    /** A new thread on pages off the free list. */
    method CreateThread(detached: bool, usermode: bool) returns (t: Tid)
      requires Valid() && stale == None && current in threads && PagesNeeded(usermode) <= |freePages|
      requires QOf(queues, JoinQueue(freePages[0])) == []
      modifies this`freePages, this`threads, this`ends, this`queues, this`stale
      ensures Valid() && stale == None && t == old(freePages)[0] && Model() == M.Create(old(Model()), detached, usermode)
    {
      hide Linked, EndsOf, NewThread, M.Create;
      CreateIs(Model(), detached, usermode);
      t := freePages[0];
      var stack := freePages[1];
      var userStack := None;
      if usermode {
        userStack := Some(freePages[2]);
      }
      freePages := freePages[PagesNeeded(usermode)..];
      AddRecord(t, NewThread(stack, userStack, detached));
      ClearJoinQueue(t);
    }

    /** A new thread's join queue is empty. */
    method ClearJoinQueue(t: Tid)
      requires Valid() && stale == None && QOf(queues, JoinQueue(t)) == []
      modifies this`ends, this`queues, this`stale
      ensures Valid() && stale == None && queues == old(queues)[JoinQueue(t) := []]
    {
      hide Linked, EndsOf;
      ThreadQueueClear(JoinQueue(t));
      ghost var cleared := queues[JoinQueue(t) := []];
      SameLinks(queueNext, ends, queues, cleared);
      queues := cleared;
    }

    /** Make a thread runnable, with interrupts on before and after. */
    method MakeRunnableAtomic(t: Tid)
      requires Valid() && stale == None && intr && t != NULL && Free(queues, t)
      modifies this`intr, this`queueNext, this`ends, this`queues
      ensures Valid() && Model() == M.Sti(M.MakeRunnable(M.Cli(old(Model())), t))
    {
      hide Linked, Free;
      FreeOf(queues, RunQueue, t);
      Cli();
      EnqueueIs(Model(), RunQueue, t);
      MakeRunnable(t);
      Sti();
    }

    /** A new thread, made runnable. */
    method SpawnThread(detached: bool, usermode: bool) returns (t: Tid)
      requires Valid() && stale == None && current in threads && intr && PagesNeeded(usermode) <= |freePages|
      requires freePages[0] != NULL && Free(queues, freePages[0]) && QOf(queues, JoinQueue(freePages[0])) == []
      modifies this
      ensures Valid() && stale == None && Model() == M.Spawn(old(Model()), detached, usermode) && t == old(freePages)[0]
    {
      hide Linked, Free, M.Create, M.MakeRunnable, EndsOf;
      CreateRest(Model(), detached, usermode);
      FreeStill(queues, JoinQueue(freePages[0]), freePages[0]);
      t := CreateThread(detached, usermode);
      MakeRunnableAtomic(t);
    }

    /** Free a dead thread's pages and forget its record. */
    method DestroyThread(t: Tid)
      requires Valid() && stale == None && intr && t in threads
      modifies this`intr, this`freePages, this`threads
      ensures Valid() && stale == None && Model() == M.Destroy(old(Model()), t)
    {
      hide Linked;
      Cli();
      if t != main {
        var record := threads[t];
        freePages := freePages + [record.stack];
        if record.userStack.Some? {
          freePages := freePages + [record.userStack.value];
        }
        freePages := freePages + [t];
      }
      threads := threads - {t};
      Sti();
    }

    // -------------------------------------------------------------- the reaper

    /** The graveyard's chain becomes the reaper's own, by its head pointer. */
    method TakeGraveyard()
      requires Valid() && stale == None && current in threads && !intr && QOf(queues, Doomed) == []
      modifies this`ends, this`queues, this`intr, this`threads
      ensures Valid() && Model() == M.SetPc(M.Sti(Emptied(old(Model()))), current, ReapYield)
    {
      hide Linked, EndsOf;
      ChainTaken(queueNext, ends, queues, Graveyard, Doomed);
      ends := ends[Doomed := EndsOf(ends, Graveyard)][Graveyard := Ends(NULL, NULL)];
      queues := queues[Doomed := QOf(queues, Graveyard)][Graveyard := []];
      Sti();
      threads := threads[current := threads[current].(pc := ReapYield)];
    }

    /** The reaper looks at the graveyard: wait while it is empty, else take it over whole. */
    method ReapTestStep()
      requires Valid() && stale == None && Inv(Model()) && Enabled(Model(), Step) && threads[current].pc == ReapTest
      modifies this
      ensures Valid() && stale == None && Model() == M.ReapTestStep(old(Model()))
    {
      hide Linked, Leaving, Free, Inv, Entered, M.Block, EndsFor, EndsOf;
      CurrentFree(Model());
      IntrIsOff(Model());
      ChainUsedUp(Model());
      var empty := ThreadQueueEmpty(Graveyard);
      if empty {
        BlockerReady(Model(), Step);
        Wait(ReaperWait, ReapTest);
      } else {
        TakeGraveyard();
      }
    }

    /** The reaper looks at the head of its chain and, if there is one, reads its link. */
    method ReapNextStep()
      requires Valid() && stale == None && Inv(Model()) && Enabled(Model(), Step) && threads[current].pc == ReapNext
      modifies this`threads
      ensures Valid() && stale == None && Model() == M.ReapNextStep(old(Model()))
    {
      hide Linked, Inv, Free;
      CurrentFree(Model());
      StoredAt(queueNext, ends, queues, Doomed);
      NullEnds(QOf(queues, Doomed), 0);
      var thread := EndsOf(ends, Doomed).head;
      if thread == NULL {
        threads := threads[current := threads[current].(pc := ReapCli)];
      } else {
        HeadDropped(queueNext, ends, queues, Doomed);
        var next := queueNext[thread];
        threads := threads[current := threads[current].(pc := ReapFree(next))];
      }
    }

    /** It destroys that thread and goes on with the link it read before. */
    method ReapFreeStep(next: Tid)
      requires Valid() && stale == None && Inv(Model()) && Enabled(Model(), Step) && threads[current].pc == ReapFree(next)
      modifies this
      ensures Valid() && stale == None && Model() == M.ReapFreeStep(old(Model()), next)
    {
      hide Linked, Free, Inv;
      CurrentFree(Model());
      IntrIsOn(Model());
      LinkStill(Model());
      DoomedRecorded(Model());
      HeadDropped(queueNext, ends, queues, Doomed);
      var thread := EndsOf(ends, Doomed).head;
      ends := ends[Doomed := if next == NULL then Ends(NULL, NULL) else Ends(next, EndsOf(ends, Doomed).tail)];
      queues := queues[Doomed := QOf(queues, Doomed)[1..]];
      threads := threads[current := threads[current].(pc := ReapNext)];
      DestroyThread(thread);
    }

    // -------------------------------------------------------------- the timer interrupt

    /** Timer handler and interrupt stub. */
    method TimerIrq()
      requires Valid() && stale == None && Inv(Model()) && Enabled(Model(), Tick)
      modifies this
      ensures Valid() && stale == None && Model() == M.TimerIrq(old(Model()))
    {
      hide Linked, Leaving, Free, Inv, Entered, M.Block;
      CurrentFree(Model());
      CountedKeeps(Model());
      ticks := Low32(ticks + 1);
      threads := threads[current := threads[current].(numTicks := threads[current].numTicks + 1)];
      assert Model() == Counted(old(Model()));
      if threads[current].numTicks > THREAD_QUANTUM && !preemptOff {
        CurrentFree(Model());
        PreemptReady(Model());
        intr := false;
        Wait(RunQueue, Preempted(threads[current].pc));
      }
    }

    // -------------------------------------------------------------- any step

    /** The step of a thread inside `mutexLock`. */
    method ContinueLock()
      requires Valid() && stale == None && Inv(Model()) && Enabled(Model(), Step)
      requires var pc := threads[current].pc; pc.LockTest? || pc.LockOwn? || pc.LockLeave? || pc.LockWoken?
      modifies this
      ensures Valid() && stale == None && Model() == M.Continue(old(Model()))
    {
      hide Linked, Free, Inv, M.Continue, M.JoinStep, M.LockTestStep, M.LockOwnStep, M.LockLeaveStep, M.LockWokenStep,
           M.UnlockClearStep, M.UnlockOwnStep, M.UnlockWakeStep, M.ReapTestStep, M.ReapNextStep, M.ReapFreeStep, M.Yield;
      CurrentFree(Model());
      StepFlags(Model());
      ContinueIs(Model());
      match threads[current].pc
      case LockTest(m) => LockTestStep(m);
      case LockOwn(m) => LockOwnStep(m);
      case LockLeave(m) => LockLeaveStep(m);
      case LockWoken(m) => LockWokenStep(m);
    }

    /** The step of a thread inside `mutex_unlock`. */
    method ContinueUnlock()
      requires Valid() && stale == None && Inv(Model()) && Enabled(Model(), Step)
      requires var pc := threads[current].pc; pc.UnlockClear? || pc.UnlockOwn? || pc.UnlockWake?
      modifies this
      ensures Valid() && stale == None && Model() == M.Continue(old(Model()))
    {
      hide Linked, Free, Inv, M.Continue, M.JoinStep, M.LockTestStep, M.LockOwnStep, M.LockLeaveStep, M.LockWokenStep,
           M.UnlockClearStep, M.UnlockOwnStep, M.UnlockWakeStep, M.ReapTestStep, M.ReapNextStep, M.ReapFreeStep, M.Yield;
      CurrentFree(Model());
      StepFlags(Model());
      ContinueIs(Model());
      match threads[current].pc
      case UnlockClear(m) => UnlockClearStep(m);
      case UnlockOwn(m) => UnlockOwnStep(m);
      case UnlockWake(m) => UnlockWakeStep(m);
    }

    /** The step of a joiner or of the reaper. */
    method ContinueReaper()
      requires Valid() && stale == None && Inv(Model()) && Enabled(Model(), Step)
      requires var pc := threads[current].pc; pc.JoinTest? || pc.ReapTest? || pc.ReapYield? || pc.ReapNext? || pc.ReapFree?
      modifies this
      ensures Valid() && stale == None && Model() == M.Continue(old(Model()))
    {
      hide Linked, Free, Inv, M.Continue, M.JoinStep, M.LockTestStep, M.LockOwnStep, M.LockLeaveStep, M.LockWokenStep,
           M.UnlockClearStep, M.UnlockOwnStep, M.UnlockWakeStep, M.ReapTestStep, M.ReapNextStep, M.ReapFreeStep, M.Yield;
      CurrentFree(Model());
      StepFlags(Model());
      ContinueIs(Model());
      match threads[current].pc
      case JoinTest(t) =>
        var exitcode := JoinStep(t);
      case ReapTest => ReapTestStep();
      case ReapYield => ReapYieldStep();
      case ReapNext => ReapNextStep();
      case ReapFree(next) => ReapFreeStep(next);
    }

    /** The step of a thread that comes back from a dispatch or passes between two calls. */
    method ContinuePlain()
      requires Valid() && stale == None && Inv(Model()) && Enabled(Model(), Step)
      requires PlainStep(threads[current].pc)
      modifies this
      ensures Valid() && stale == None && Model() == M.Continue(old(Model()))
    {
      hide Linked, Free, Inv;
      CurrentFree(Model());
      StepFlags(Model());
      match threads[current].pc
      case UnlockLeave => UnlockLeaveStep();
      case Preempted(at) =>
        intr := true;
        threads := threads[current := threads[current].(pc := at)];
      case ReapCli =>
        Cli();
        threads := threads[current := threads[current].(pc := ReapTest)];
      case Start => Resume(if current == reaper then ReapCli else Running);
      case Yielded => Resume(Running);
      case Slept => Resume(Running);
      case Waited(_) => Resume(Running);
      case ReapYielded => Resume(ReapNext);
    }

    /** The step of a thread inside a kernel call. */
    method Continue()
      requires Valid() && stale == None && Inv(Model()) && Enabled(Model(), Step)
      modifies this
      ensures Valid() && stale == None && Model() == M.Continue(old(Model()))
    {
      hide Linked, Inv, M.Continue;
      InvParts(Model());
      hide Core, FlagsOk, Sleepers, RoleOk;
      StepKinds(Model());
      var pc := threads[current].pc;
      if pc.LockTest? || pc.LockOwn? || pc.LockLeave? || pc.LockWoken? {
        ContinueLock();
      } else if pc.UnlockClear? || pc.UnlockOwn? || pc.UnlockWake? {
        ContinueUnlock();
      } else if pc.JoinTest? || pc.ReapTest? || pc.ReapYield? || pc.ReapNext? || pc.ReapFree? {
        ContinueReaper();
      } else {
        ContinuePlain();
      }
    }

    /** Back from a dispatch: interrupts go on again. */
    method Resume(pc: Pc)
      requires Valid() && stale == None && current in threads && !intr
      modifies this`intr, this`threads
      ensures Valid() && stale == None && Model() == M.SetPc(M.Sti(old(Model())), current, pc)
    {
      hide Linked;
      Sti();
      threads := threads[current := threads[current].(pc := pc)];
    }

    /** The reaper lets others run. */
    method ReapYieldStep()
      requires Valid() && stale == None && Inv(Model()) && Enabled(Model(), Step) && threads[current].pc == ReapYield
      modifies this
      ensures Valid() && stale == None && Model() == M.Yield(old(Model()), ReapYielded)
    {
      hide Linked, Leaving, Free, Inv, Entered, M.Block;
      CurrentFree(Model());
      IntrIsOn(Model());
      BlockerReady(Model(), Step);
      Cli();
      Wait(RunQueue, ReapYielded);
    }

    /** The kernel's code does, on memory, exactly what the model's step does on sequences; so
        every theorem about runs of the model holds of it, step by step, with no assertion failing. */
    method Next(a: Action)
      requires Valid() && stale == None && Inv(Model()) && Enabled(Model(), a)
      modifies this
      ensures Valid() && stale == None && Inv(Model()) && Model() == M.Next(old(Model()), a)
    {
      hide Linked, Inv, M.Continue, M.TimerIrq, M.Yield, M.Sleep, M.Wait, M.Wake, M.Spawn, M.Exit, M.Join, M.Lock, M.Unlock;
      StepSound(Model(), a);
      match a
      case Tick => TimerIrq();
      case Step => Continue();
      case DoYield => Yield();
      case DoSleep(ms) => Sleep(ms);
      case DoWait(c) => WaitFor(c);
      case Key(c) => Wake(c, true);
      case DoWake(c, all) =>
        RunningOn(Model());
        Wake(c, all);
      case DoSpawn(detached, usermode) =>
        SpawnFree(Model(), detached, usermode);
        var t := SpawnThread(detached, usermode);
      case DoExit(code) => Exit(code);
      case DoJoin(t) => Join(t);
      case DoLock(m) => Lock(m);
      case DoUnlock(m) => Unlock(m);
    }
  }
}

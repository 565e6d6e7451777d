/** How long threads wait: bounded waiting in the run queue under preemption, and the bounds within
    which a sleeper is woken. What happens where the clock passes its top is in `SchedWraps`. */
module SchedTiming {
  import opened Basics
  import opened SchedModel
  import opened SchedInv
  import opened SchedDispatch
  import opened SchedLocal
  import opened SchedCalls
  import opened SchedEffects
  import opened SchedRuns
  import opened SchedTheorems

  // ---------------------------------------------------------------- the run queue

  /** Ticks left to the current thread before it is preempted. */
  function Left(s: State): nat
    requires s.current in s.threads
  {
    var used := s.threads[s.current].numTicks;
    if used <= THREAD_QUANTUM then THREAD_QUANTUM + 1 - used else 1
  }

  /** A tick, if any, finds preemption enabled. */
  predicate TicksPreempt(s: State, a: Action) { a == Tick ==> !s.preemptOff }

  function TickOf(a: Action): nat { if a == Tick then 1 else 0 }

  lemma TickCase(s: State)
    requires Inv(s) && Enabled(s, Tick) && !s.preemptOff
    ensures var n := Next(s, Tick);
            && s.current in s.threads && n.current in n.threads && SleepsOn(Counted(s), n) && n.ticks == Low32(s.ticks + 1)
            && (if s.threads[s.current].numTicks >= THREAD_QUANTUM then Dispatched(s, n)
                else n.current == s.current && n.threads[n.current].numTicks == s.threads[s.current].numTicks + 1
                     && Q(n, RunQueue) == Q(s, RunQueue))
  {
    InvParts(s);
    NextKeeps(s, Tick);
    TickIsNext(s);
    InvParts(Next(s, Tick));
    assert Q(Counted(s), RunQueue) == Q(s, RunQueue) && Counted(s).threads[s.current].numTicks == s.threads[s.current].numTicks + 1;
    hide *;
    TickEffects(s);
    QuantumIs();
    CountedRest(s);
  }

  lemma QuantumIs()
    ensures THREAD_QUANTUM == 4
  {}

  lemma OffCpuZero(s: State, t: Tid)
    requires Inv(s) && t in s.threads && t != s.current
    ensures s.threads[t].numTicks == 0
  {
    CoreParts(s, s.current);
  }

  /** A step that dispatches moves every waiting thread one place on, with a fresh quantum ahead. */
  lemma DispatchedMoves(s: State, n: State, k: nat)
    requires Inv(s) && Dispatched(s, n) && k < |Q(s, RunQueue)|
    ensures n.current in n.threads && n.threads[n.current].numTicks == 0
    ensures if k == 0 then n.current == Q(s, RunQueue)[0]
            else k - 1 < |Q(n, RunQueue)| && Q(n, RunQueue)[k - 1] == Q(s, RunQueue)[k]
  {
    var woken :| Q(s, RunQueue) + woken == [n.current] + Q(n, RunQueue);
    hide Inv;
    assert Q(s, RunQueue)[k] == (Q(s, RunQueue) + woken)[k];
    assert ([n.current] + Q(n, RunQueue))[k] == if k == 0 then n.current else Q(n, RunQueue)[k - 1];
    if n.current != s.current { OffCpuZero(s, n.current); }
  }

  /** One step brings the thread at index `k` of the run queue to the processor, or leaves it in
      the queue with at least as many ticks of waiting fewer as have passed. */
  lemma WaitStep(s: State, a: Action, k: nat) returns (j: nat)
    requires Inv(s) && Enabled(s, a) && TicksPreempt(s, a) && k < |Q(s, RunQueue)|
    ensures s.current in s.threads && Next(s, a).current in Next(s, a).threads
    ensures var n := Next(s, a); var t := Q(s, RunQueue)[k];
            || n.current == t
            || (j < |Q(n, RunQueue)| && Q(n, RunQueue)[j] == t
                && 5 * j + Left(n) + TickOf(a) <= 5 * k + Left(s))
  {
    hide Inv, Next, Enabled, Lives, Q, SleepsOn, Dispatched;
    InvParts(s);
    hide Core, RoleOk, FlagsOk, Sleepers;
    var n := Next(s, a);
    EveryStepLives(s, a);
    QuantumIs();
    j := k;
    if a == Tick {
      TickCase(s);
      if s.threads[s.current].numTicks >= THREAD_QUANTUM {
        DispatchedMoves(s, n, k);
        if k > 0 { j := k - 1; }
      }
    } else {
      if Dispatched(s, n) {
        DispatchedMoves(s, n, k);
        if k > 0 { j := k - 1; }
      }
    }
  }

  /** Every tick of the run finds preemption enabled. */
  ghost predicate AllPreempt(s: State, acts: seq<Action>)
    requires Runs(s, acts)
    decreases |acts|
  {
    acts != [] ==> TicksPreempt(s, acts[0]) && AllPreempt(Next(s, acts[0]), acts[1..])
  }

  function Ticks(acts: seq<Action>): nat {
    if acts == [] then 0 else TickOf(acts[0]) + Ticks(acts[1..])
  }

  /** Along the run, `t` gets the processor before more than `budget` ticks have passed. */
  ghost predicate RunsWithin(s: State, acts: seq<Action>, t: Tid, budget: int)
    requires Runs(s, acts)
    decreases |acts|
  {
    budget >= 0 && (s.current == t || (acts != [] && RunsWithin(Next(s, acts[0]), acts[1..], t, budget - TickOf(acts[0]))))
  }

  lemma {:induction false} WithinMore(s: State, acts: seq<Action>, t: Tid, less: int, more: int)
    requires Runs(s, acts) && RunsWithin(s, acts, t, less) && less <= more
    ensures RunsWithin(s, acts, t, more)
    decreases |acts|
  {
    hide Inv, Next, Enabled;
    if s.current != t {
      WithinMore(Next(s, acts[0]), acts[1..], t, less - TickOf(acts[0]), more - TickOf(acts[0]));
    }
  }

  lemma {:induction false} WaitsNoLonger(s: State, acts: seq<Action>, k: nat)
    requires Inv(s) && Runs(s, acts) && AllPreempt(s, acts) && k < |Q(s, RunQueue)|
    requires s.current in s.threads && Ticks(acts) >= 5 * k + Left(s)
    ensures RunsWithin(s, acts, Q(s, RunQueue)[k], 5 * k + Left(s))
    decreases |acts|
  {
    hide Inv, Next, Enabled, Q;
    var t := Q(s, RunQueue)[k];
    assert acts != [];
    var n := Next(s, acts[0]);
    var j := WaitStep(s, acts[0], k);
    NextKeeps(s, acts[0]);
    var budget := 5 * k + Left(s) - TickOf(acts[0]);
    if n.current == t {
      assert RunsWithin(n, acts[1..], t, budget);
    } else {
      WaitsNoLonger(n, acts[1..], j);
      WithinMore(n, acts[1..], t, 5 * j + Left(n), budget);
    }
  }

  /** Bounded waiting: if every tick finds preemption enabled, the thread at index `k` of the run
      queue gets the processor within 5 * (k + 1) ticks, whatever all threads do. */
  lemma BoundedWaiting(s: State, acts: seq<Action>, k: nat)
    requires Inv(s) && Runs(s, acts) && AllPreempt(s, acts) && k < |Q(s, RunQueue)|
    requires Ticks(acts) >= 5 * (k + 1)
    ensures RunsWithin(s, acts, Q(s, RunQueue)[k], 5 * (k + 1))
  {
    hide *;
    InvParts(s);
    LeftBound(s);
    WaitsNoLonger(s, acts, k);
    WithinMore(s, acts, Q(s, RunQueue)[k], 5 * k + Left(s), 5 * (k + 1));
  }

  lemma LeftBound(s: State)
    requires s.current in s.threads
    ensures 1 <= Left(s) <= 5
  {}

  // ---------------------------------------------------------------- sleepers

  /** After one step a sleeper is still asleep, or its tick has come and it is awake. */
  lemma SleepStep(s: State, a: Action, t: Tid)
    requires Inv(s) && Enabled(s, a) && t in Q(s, SleepQueue)
    ensures t in s.threads
    ensures var n := Next(s, a); StillAsleep(s, n, t) || (n.ticks >= s.threads[t].sleepUntil && Awake(n, t))
  {
    QueuesHoldThreads(s, SleepQueue, t);
    EveryStepLives(s, a);
    ClockStep(s, a);
    InvParts(s);
    if a == Tick {
      NextKeeps(s, a);
      TickIsNext(s);
      CountedSleeper(s, t);
      hide *;
      TickEffects(s);
      SleeperOf(Counted(s), Next(s, a), t);
      SleeperAlike(s, Counted(s), Next(s, a), t);
    } else {
      hide Inv, Core, Next, Lives, RoleOk, Sleepers, FlagsOk;
      SleeperOf(s, Next(s, a), t);
    }
  }

  lemma CountedSleeper(s: State, t: Tid)
    requires s.current in s.threads && t in s.threads && t in Q(s, SleepQueue)
    ensures var c := Counted(s); t in Q(c, SleepQueue) && t in c.threads && c.threads[t].sleepUntil == s.threads[t].sleepUntil && c.ticks == Low32(s.ticks + 1)
  {}

  lemma SleeperOf(s: State, n: State, t: Tid)
    requires SleepsOn(s, n) && t in Q(s, SleepQueue) && t in s.threads && n.ticks == s.ticks
    ensures StillAsleep(s, n, t) || (n.ticks >= s.threads[t].sleepUntil && Awake(n, t))
  {}

  lemma SleeperAlike(s: State, c: State, n: State, t: Tid)
    requires t in s.threads && t in c.threads && c.threads[t].sleepUntil == s.threads[t].sleepUntil
    ensures StillAsleep(s, n, t) <==> StillAsleep(c, n, t)
  {}

  /** A tick counts in 32 bits; nothing else changes the clock. */
  lemma ClockStep(s: State, a: Action)
    requires Inv(s) && Enabled(s, a)
    ensures Next(s, a).ticks == if a == Tick then Low32(s.ticks + 1) else s.ticks
  {
    EveryStepLives(s, a);
    InvParts(s);
    NextKeeps(s, a);
    if a == Tick {
      TickIsNext(s);
      hide *;
      TickEffects(s);
    } else {
      hide *;
      MovesMeans(s, Next(s, a));
    }
  }

  /** Over a run the clock counts the ticks, in 32 bits. */
  lemma {:induction false} ClockRuns(s: State, acts: seq<Action>)
    requires Inv(s) && Runs(s, acts) && s.ticks < TWO32
    ensures After(s, acts).ticks == Low32(s.ticks + Ticks(acts))
    decreases |acts|
  {
    hide Inv, Next, Enabled;
    if acts != [] {
      NextKeeps(s, acts[0]);
      ClockStep(s, acts[0]);
      ClockRuns(Next(s, acts[0]), acts[1..]);
    }
  }

  lemma AsleepNotAwake(s: State, t: Tid)
    requires Inv(s) && t in Q(s, SleepQueue)
    ensures !Awake(s, t)
  {
    CoreParts(s, s.current);
    QueuesHoldThreads(s, SleepQueue, t);
  }

  /** A step that does not reach a sleeper's tick leaves it asleep. */
  lemma SleepsThrough(s: State, a: Action, t: Tid)
    requires Inv(s) && Enabled(s, a) && t in Q(s, SleepQueue) && t in s.threads
    requires s.ticks + TickOf(a) < s.threads[t].sleepUntil < TWO32
    ensures var n := Next(s, a);
            t in Q(n, SleepQueue) && t in n.threads && n.threads[t].sleepUntil == s.threads[t].sleepUntil && n.ticks == s.ticks + TickOf(a)
  {
    hide Inv, Next, Enabled, Q, Awake, Low32;
    Low32Is(s.ticks + 1);
    ClockStep(s, a);
    SleepStep(s, a, t);
  }

  /** A thread is never woken early: until its tick has come it stays in the sleep queue, and so is
      neither on the processor nor runnable. */
  lemma {:induction false} NeverEarly(s: State, acts: seq<Action>, t: Tid)
    requires Inv(s) && Runs(s, acts) && t in Q(s, SleepQueue) && t in s.threads
    requires s.ticks + Ticks(acts) < s.threads[t].sleepUntil < TWO32
    ensures var n := After(s, acts); t in Q(n, SleepQueue) && !Awake(n, t)
    decreases |acts|
  {
    if acts == [] {
      AsleepNotAwake(s, t);
    } else {
      hide Inv, Next, Enabled, Q, Awake, StillAsleep;
      NextKeeps(s, acts[0]);
      SleepsThrough(s, acts[0], t);
      NeverEarly(Next(s, acts[0]), acts[1..], t);
    }
  }

  // ---------------------------------------------------------------- how long `sleep` sleeps

  /** The time asked for, in whole ticks but at least one. */
  function TicksAsked(ms: nat): nat {
    var ticks := ms * TICKS_PER_SEC / 1000;
    if ticks < 1 then 1 else ticks
  }

  /** The product of milliseconds and ticks a second is taken in 32 bits: `sleep` computes the time
      asked for exactly below 42949673 ms, and from there on falls short of it by far. */
  lemma SleepTicksExact(ms: nat)
    ensures TicksAsked(ms) == if ms / 10 < 1 then 1 else ms / 10
    ensures SleepTicks(ms) == TicksAsked(ms) <==> ms < 42949673
    ensures ms >= 42949673 ==> SleepTicks(ms) + THREAD_QUANTUM < TicksAsked(ms)
  {
    TicksAskedIs(ms);
    if ms >= 42949673 {
      SleepWraps(ms);
      assert THREAD_QUANTUM == 4;
    } else {
      Low32Is(ms * TICKS_PER_SEC);
    }
    hide SleepTicks, TicksAsked, Low32;
  }

  lemma TicksAskedIs(ms: nat)
    ensures TicksAsked(ms) == if ms / 10 < 1 then 1 else ms / 10
  {}

  lemma SleepWraps(ms: nat)
    requires ms >= 42949673
    ensures SleepTicks(ms) + 4 < TicksAsked(ms)
  {
    var p := ms * 100;
    assert p >= TWO32 + 4 && Low32(p) < TWO32;
    assert Low32(p) == p - TWO32 * (p / 0x1_0000_0000) && p / 0x1_0000_0000 >= 1;
    assert Low32(p) / 1000 <= (p - TWO32) / 1000;
    assert (p - TWO32) / 1000 + 4294967 <= p / 1000;
  }

  /** The least argument for which it does: almost twelve hours asked for, one tick slept. */
  lemma SleepTicksWrap()
    ensures TicksAsked(42949673) == 4294967 && SleepTicks(42949673) == 1
  {}

  /** The caller of `sleep` is asleep after it exactly if its wake-up tick does not pass the top of
      the clock; otherwise it is runnable again at once. */
  lemma SleepBegins(s: State, ms: nat)
    requires Inv(s) && Enabled(s, DoSleep(ms)) && s.ticks < TWO32
    ensures s.current in Q(Sleep(s, ms), SleepQueue) <==> s.ticks + SleepTicks(ms) < TWO32
    ensures s.current !in Q(Sleep(s, ms), SleepQueue) ==> Awake(Sleep(s, ms), s.current)
  {
    hide *;
    RunningFlags(s, ms);
    FallsExactly(s, ms);
  }

  lemma SleepTicksBound(ms: nat)
    ensures 1 <= SleepTicks(ms) < TWO32
  {}

  /** The caller of `sleep` does not run again before the time asked for, in whole ticks but at
      least one, has passed, if the product fits 32 bits and the wake-up tick is on the clock. */
  lemma SleepLasts(s: State, ms: nat, acts: seq<Action>)
    requires Inv(s) && Enabled(s, DoSleep(ms)) && Runs(Sleep(s, ms), acts)
    requires ms < 42949673 && s.ticks + TicksAsked(ms) < TWO32 && Ticks(acts) < TicksAsked(ms)
    ensures var n := After(Sleep(s, ms), acts); s.current in Q(n, SleepQueue) && !Awake(n, s.current)
  {
    hide *;
    RunningFlags(s, ms);
    SleepTicksExact(ms);
    NextKeeps(s, DoSleep(ms));
    FallsExactly(s, ms);
    NeverEarly(Sleep(s, ms), acts, s.current);
  }

  lemma RunningFlags(s: State, ms: nat)
    requires Inv(s) && Enabled(s, DoSleep(ms))
    ensures s.current in s.threads && s.intr && !s.preemptOff && Next(s, DoSleep(ms)) == Sleep(s, ms)
  {
    hide Sleep;
    InvParts(s);
  }

  /** The same without the 32-bit sum. */
  lemma FallsExactly(s: State, ms: nat)
    requires s.current in s.threads && s.intr && !s.preemptOff && s.ticks < TWO32
    ensures var n := Sleep(s, ms); var until := s.ticks + SleepTicks(ms);
            && n.ticks == s.ticks
            && (if until < TWO32 then s.current in Q(n, SleepQueue) && s.current in n.threads && n.threads[s.current].sleepUntil == until
                else s.current !in Q(n, SleepQueue) && Awake(n, s.current))
  {
    hide *;
    SleepTicksBound(ms);
    Low32Is(s.ticks + SleepTicks(ms));
    FallsAsleep(s, ms);
  }

  /** The caller is asleep until its wake-up tick, or that has been passed already. */
  lemma FallsAsleep(s: State, ms: nat)
    requires s.current in s.threads && s.intr && !s.preemptOff
    ensures var n := Sleep(s, ms); var until := Low32(s.ticks + SleepTicks(ms));
            && n.ticks == s.ticks
            && (if s.ticks < until then s.current in Q(n, SleepQueue) && s.current in n.threads && n.threads[s.current].sleepUntil == until
                else s.current !in Q(n, SleepQueue) && Awake(n, s.current))
  {
    var d := Drowsy(s, ms);
    DrowsyIs(s, ms);
    SleepIsSchedule(s, ms);
    hide *;
    EnteredIs(d, SleepQueue, Slept);
    var e := Entered(d, SleepQueue, Slept);
    ScheduleSleeps(e);
    OnlyUnexpired(e, s.current);
    SleeperOf(e, Sleep(s, ms), s.current);
    FallsFrom(e, Sleep(s, ms), s.current);
  }

  lemma FallsFrom(e: State, n: State, t: Tid)
    requires t in e.threads && n.ticks == e.ticks && (t in Q(n, SleepQueue) ==> !Expired(e, t))
    requires StillAsleep(e, n, t) || (n.ticks >= e.threads[t].sleepUntil && Awake(n, t))
    ensures if e.ticks < e.threads[t].sleepUntil then
              t in Q(n, SleepQueue) && t in n.threads && n.threads[t].sleepUntil == e.threads[t].sleepUntil
            else t !in Q(n, SleepQueue) && Awake(n, t)
  {}

  /** After a dispatch nobody whose tick has come is asleep. */
  lemma OnlyUnexpired(e: State, t: Tid)
    requires e.current in e.threads && !e.intr && !e.preemptOff
    ensures t in Q(Schedule(e), SleepQueue) ==> !Expired(e, t)
  {
    NotDueHas(e, Q(e, SleepQueue));
    var w := WakeSleepers(e);
    assert Q(w, SleepQueue) == NotDue(e, Q(e, SleepQueue));
    hide NotDue, Due, WakeSleepers, Expired;
    if Q(w, RunQueue) != [] { assert Q(Schedule(e), SleepQueue) == Q(w, SleepQueue); }
  }

  lemma SleepIsSchedule(s: State, ms: nat)
    requires s.current in s.threads
    ensures Drowsy(s, ms).current in Drowsy(s, ms).threads
    ensures Entered(Drowsy(s, ms), SleepQueue, Slept).current in Entered(Drowsy(s, ms), SleepQueue, Slept).threads
    ensures Sleep(s, ms) == Schedule(Entered(Drowsy(s, ms), SleepQueue, Slept))
  {
    hide Schedule, SleepTicks;
  }

  lemma DrowsyIs(s: State, ms: nat)
    requires s.current in s.threads && s.intr
    ensures var d := Drowsy(s, ms);
            && d.current == s.current && d.ticks == s.ticks && !d.intr && d.preemptOff == s.preemptOff
            && s.current in d.threads && d.threads[s.current].sleepUntil == Low32(s.ticks + SleepTicks(ms))
            && SleepTicks(ms) >= 1
  {}

  /** The current thread has not outlived its quantum. */
  predicate Prompt(s: State) {
    s.current in s.threads && s.threads[s.current].numTicks <= THREAD_QUANTUM
  }

  lemma PromptStep(s: State, a: Action)
    requires Inv(s) && Enabled(s, a) && TicksPreempt(s, a) && Prompt(s)
    ensures Prompt(Next(s, a))
  {
    InvParts(s);
    var n := Next(s, a);
    EveryStepLives(s, a);
    QuantumIs();
    if a == Tick {
      TickCase(s);
      hide Inv, Next, Enabled, Lives, Q, SleepsOn, Dispatched, Core, RoleOk, FlagsOk, Sleepers;
      if Dispatched(s, n) { FreshQuantum(s, n); }
    } else {
      hide Inv, Next, Enabled, Lives, Q, SleepsOn, Dispatched, Core, RoleOk, FlagsOk, Sleepers;
      if Dispatched(s, n) { FreshQuantum(s, n); }
    }
  }

  lemma FreshQuantum(s: State, n: State)
    requires Inv(s) && Dispatched(s, n)
    ensures n.current in n.threads && n.threads[n.current].numTicks == 0
  {
    hide Inv;
    if n.current != s.current { OffCpuZero(s, n.current); }
  }

  lemma {:induction false} RunsPrompt(s: State, acts: seq<Action>)
    requires Inv(s) && Runs(s, acts) && AllPreempt(s, acts) && Prompt(s)
    ensures Prompt(After(s, acts))
    decreases |acts|
  {
    hide Inv, Next, Enabled, Prompt;
    if acts != [] {
      NextKeeps(s, acts[0]);
      PromptStep(s, acts[0]);
      RunsPrompt(Next(s, acts[0]), acts[1..]);
    }
  }

  /** If every tick finds preemption enabled, whoever is still asleep is, by the clock, overdue by less
      than a quantum. A sleeper whose tick is near the top of the clock may be passed over: once the
      clock has wrapped it is not overdue by the clock, and sleeps almost a whole turn more
      (`SchedWraps.PassedOver`). `SchedWraps.WakesExactly` says of every run who is woken. */
  lemma NeverLate(s: State, acts: seq<Action>, t: Tid)
    requires Inv(s) && Runs(s, acts) && AllPreempt(s, acts) && Prompt(s)
    requires var n := After(s, acts); t in n.threads && n.ticks >= n.threads[t].sleepUntil + THREAD_QUANTUM
    ensures t !in Q(After(s, acts), SleepQueue)
  {
    RunsKeep(s, acts);
    RunsPrompt(s, acts);
    var n := After(s, acts);
    hide After, Runs;
    InvParts(n);
  }

  /** Along the run, `t` is awake before more than `budget` ticks have passed. */
  ghost predicate WakesWithin(s: State, acts: seq<Action>, t: Tid, budget: int)
    requires Runs(s, acts)
    decreases |acts|
  {
    budget >= 0 && (Awake(s, t) || (acts != [] && WakesWithin(Next(s, acts[0]), acts[1..], t, budget - TickOf(acts[0]))))
  }

  /** A sleeper is overdue by less than a quantum while every tick finds preemption enabled. */
  lemma OverdueLess(s: State, t: Tid)
    requires Inv(s) && Prompt(s) && t in Q(s, SleepQueue) && t in s.threads
    ensures s.ticks < s.threads[t].sleepUntil + THREAD_QUANTUM
  {
    InvParts(s);
  }

  /** A sleeper whose tick is not near the top of the clock wakes within a quantum after it. */
  lemma {:induction false} SleeperWakes(s: State, acts: seq<Action>, t: Tid)
    requires Inv(s) && Runs(s, acts) && AllPreempt(s, acts) && Prompt(s) && t in Q(s, SleepQueue) && t in s.threads
    requires s.threads[t].sleepUntil + THREAD_QUANTUM < TWO32
    requires s.ticks + Ticks(acts) >= s.threads[t].sleepUntil + THREAD_QUANTUM
    ensures WakesWithin(s, acts, t, s.threads[t].sleepUntil + THREAD_QUANTUM - s.ticks)
    decreases |acts|
  {
    hide Inv, Next, Enabled, Q, Awake, Prompt;
    OverdueLess(s, t);
    assert acts != [];
    var n := Next(s, acts[0]);
    NextKeeps(s, acts[0]);
    PromptStep(s, acts[0]);
    ClockStep(s, acts[0]);
    SleepStep(s, acts[0], t);
    if StillAsleep(s, n, t) {
      SleeperWakes(n, acts[1..], t);
    } else {
      assert WakesWithin(n, acts[1..], t, s.threads[t].sleepUntil + THREAD_QUANTUM - n.ticks);
    }
  }

  /** The wake-up tick is one of the last of the clock, so near its top that a quantum may pass over it. */
  predicate NearTop(until: nat) { TWO32 - THREAD_QUANTUM <= until < TWO32 }

  /** The caller of `sleep` is awake again within a quantum after the ticks it sleeps, if every tick
      of the run finds preemption enabled and the wake-up tick is not near the top of the clock. */
  lemma SleepEnds(s: State, ms: nat, acts: seq<Action>)
    requires Inv(s) && Enabled(s, DoSleep(ms)) && Runs(Sleep(s, ms), acts) && AllPreempt(Sleep(s, ms), acts)
    requires s.ticks < TWO32 && !NearTop(s.ticks + SleepTicks(ms)) && Ticks(acts) >= SleepTicks(ms) + THREAD_QUANTUM
    ensures WakesWithin(Sleep(s, ms), acts, s.current, SleepTicks(ms) + THREAD_QUANTUM)
  {
    hide Inv, Next, Enabled, Sleep, Awake, Q, Runs, SleepTicks;
    RunningFlags(s, ms);
    NextKeeps(s, DoSleep(ms));
    FallsExactly(s, ms);
    if s.ticks + SleepTicks(ms) < TWO32 {
      SleepPrompt(s, ms);
      SleeperWakes(Sleep(s, ms), acts, s.current);
    }
  }

  lemma {:induction false} WakesMore(s: State, acts: seq<Action>, t: Tid, less: int, more: int)
    requires Runs(s, acts) && WakesWithin(s, acts, t, less) && less <= more
    ensures WakesWithin(s, acts, t, more)
    decreases |acts|
  {
    hide Inv, Next, Enabled, Awake;
    if !Awake(s, t) {
      WakesMore(Next(s, acts[0]), acts[1..], t, less - TickOf(acts[0]), more - TickOf(acts[0]));
    }
  }

  /** From 42949673 ms on, `sleep` breaks its promise in every such run: the caller is awake before
      the time asked for has passed. */
  lemma SleepFallsShort(s: State, ms: nat, acts: seq<Action>)
    requires Inv(s) && Enabled(s, DoSleep(ms)) && Runs(Sleep(s, ms), acts) && AllPreempt(Sleep(s, ms), acts)
    requires s.ticks < TWO32 && !NearTop(s.ticks + SleepTicks(ms)) && Ticks(acts) >= SleepTicks(ms) + THREAD_QUANTUM
    requires ms >= 42949673
    ensures WakesWithin(Sleep(s, ms), acts, s.current, TicksAsked(ms) - 1)
  {
    hide *;
    RunningFlags(s, ms);
    SleepTicksExact(ms);
    SleepEnds(s, ms, acts);
    WakesMore(Sleep(s, ms), acts, s.current, SleepTicks(ms) + THREAD_QUANTUM, TicksAsked(ms) - 1);
  }

  /** Whoever comes to the processor when the caller falls asleep has a fresh quantum. */
  lemma SleepPrompt(s: State, ms: nat)
    requires Inv(s) && Enabled(s, DoSleep(ms))
    ensures Prompt(Sleep(s, ms))
  {
    RunningFlags(s, ms);
    hide *;
    NextKeeps(s, DoSleep(ms));
    SleepDispatches(s, ms);
    FreshQuantum(s, Sleep(s, ms));
    QuantumPrompt(Sleep(s, ms));
  }

  lemma QuantumPrompt(n: State)
    requires n.current in n.threads && n.threads[n.current].numTicks == 0
    ensures Prompt(n)
  {}

  lemma SleepDispatches(s: State, ms: nat)
    requires Inv(s) && Enabled(s, DoSleep(ms)) && Inv(Next(s, DoSleep(ms)))
    ensures Dispatched(s, Sleep(s, ms))
  {
    InvParts(s);
    RunningFlags(s, ms);
    SleepBlocks(s, ms);
    hide *;
    BlockingIs(s, DoSleep(ms));
    BlockStep(s, Drowsy(s, ms), SleepQueue, Slept);
  }

  lemma SleepBlocks(s: State, ms: nat)
    requires s.current in s.threads && Enabled(s, DoSleep(ms))
    ensures Blocking(s, DoSleep(ms)) && Blocker(s, DoSleep(ms)) == (Drowsy(s, ms), SleepQueue, Slept)
  {}

  // ---------------------------------------------------------------- waking sleepers

  /** Waking sleepers splits the sleep queue: nobody is lost or doubled ... */
  lemma {:induction false} DuePartition(s: State, q: seq<Tid>)
    ensures multiset(q) == multiset(Due(s, q)) + multiset(NotDue(s, q))
    ensures forall t :: t in Due(s, q) ==> Expired(s, t)
    ensures forall t :: t in NotDue(s, q) ==> !Expired(s, t)
  {
    hide Expired;
    if q != [] {
      DuePartition(s, q[1..]);
      assert q == [q[0]] + q[1..];
      assert multiset(q) == multiset{q[0]} + multiset(q[1..]);
    }
  }

  /** `p` is `q` with some members left out. */
  predicate Within(p: seq<Tid>, q: seq<Tid>) {
    p == [] || (q != [] && ((p[0] == q[0] && Within(p[1..], q[1..])) || Within(p, q[1..])))
  }

  /** ... and both parts keep their order. */
  lemma {:induction false} DueStable(s: State, q: seq<Tid>)
    ensures Within(Due(s, q), q) && Within(NotDue(s, q), q)
  {
    if q != [] {
      DueStable(s, q[1..]);
      if Expired(s, q[0]) {
        assert Due(s, q)[1..] == Due(s, q[1..]) && NotDue(s, q) == NotDue(s, q[1..]);
      } else {
        assert NotDue(s, q)[1..] == NotDue(s, q[1..]) && Due(s, q) == Due(s, q[1..]);
      }
    }
  }
}

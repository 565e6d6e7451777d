/** Exactly when sleepers wake, also when the clock passes its top: the first dispatch that finds the
    clock at or past the wake-up tick wakes a sleeper, and nothing else does. */
module SchedWraps {
  import opened Basics
  import opened SchedModel
  import opened SchedInv
  import opened SchedLocal
  import opened SchedCalls
  import opened SchedLives
  import opened SchedEffects
  import opened SchedRuns
  import opened SchedTheorems
  import opened SchedTiming

  // ---------------------------------------------------------------- one step

  /** Thread `t` is asleep until the clock shows `until`. */
  predicate Sleeper(s: State, t: Tid, until: nat) {
    t in Q(s, SleepQueue) && t in s.threads && s.threads[t].sleepUntil == until
  }

  lemma BlockWakes(b: State, id: QueueId, pc: Pc, t: Tid)
    requires b.current in b.threads && !b.intr && !b.preemptOff && t in b.threads && t != b.current
    requires b.ticks >= b.threads[t].sleepUntil
    ensures t !in Q(Block(b, id, pc), SleepQueue)
  {
    var e := Entered(b, id, pc);
    EnteredIs(b, id, pc);
    assert Block(b, id, pc) == Schedule(e) && Expired(e, t);
    hide *;
    OnlyUnexpired(e, t);
  }

  lemma BlockingWakes(s: State, a: Action, t: Tid)
    requires Inv(s) && Enabled(s, a) && Blocking(s, a) && t in s.threads && t != s.current
    requires s.ticks >= s.threads[t].sleepUntil
    ensures t !in Q(Next(s, a), SleepQueue)
  {
    hide *;
    InvParts(s);
    BlockingIs(s, a);
    var (b, id, pc) := Blocker(s, a);
    LocalSpares(s, b, t);
    BlockWakes(b, id, pc, t);
  }

  lemma LocalSpares(s: State, b: State, t: Tid)
    requires Local(s, b) && t in s.threads && t != s.current
    ensures t in b.threads && b.threads[t] == s.threads[t] && b.current == s.current && b.current in b.threads
  {}

  lemma ExitWakes(s: State, code: int, t: Tid)
    requires Inv(s) && Enabled(s, DoExit(code)) && t in s.threads && t != s.current
    requires s.ticks >= s.threads[t].sleepUntil
    ensures t !in Q(Exit(s, code), SleepQueue)
  {
    hide Inv, Q, Leaving, Gone, Exit, Depart, Died, WakeAll, Cli, Schedule, RoleOk, Enabled;
    ExitFacts(s, code);
    ExitLeaves(s, code);
    var e := Gone(Died(WakeAll(Cli(s), JoinQueue(s.current)), code));
    LeavingMeans(e);
    GoneEffects(s, e, code);
    OnlyUnexpired(e, t);
  }

  lemma TickWakes(s: State, t: Tid)
    requires Inv(s) && Enabled(s, Tick) && Switches(s, Tick) && t in s.threads && t != s.current
    requires Low32(s.ticks + 1) >= s.threads[t].sleepUntil
    ensures t !in Q(Next(s, Tick), SleepQueue)
  {
    InvParts(s);
    TickIs(s);
    CountedAt(s, t);
    TickSwitches(s);
    TickIsNext(s);
    hide *;
    BlockWakes(Counted(s).(intr := false), RunQueue, Preempted(Counted(s).threads[s.current].pc), t);
  }

  lemma TickSwitches(s: State)
    requires s.current in s.threads && Enabled(s, Tick)
    ensures Switches(s, Tick) <==> s.threads[s.current].numTicks + 1 > THREAD_QUANTUM && !s.preemptOff
  {}

  lemma CountedAt(s: State, t: Tid)
    requires s.current in s.threads && t in s.threads && t != s.current
    ensures var c := Counted(s);
            t in c.threads && c.threads[t] == s.threads[t] && c.ticks == Low32(s.ticks + 1) && c.current == s.current && Q(c, SleepQueue) == Q(s, SleepQueue)
  {}

  /** A dispatch that finds the wake-up tick reached wakes the sleeper. */
  lemma SwitchWakes(s: State, a: Action, t: Tid)
    requires Inv(s) && Enabled(s, a) && Switches(s, a) && t in Q(s, SleepQueue) && t in s.threads
    requires Next(s, a).ticks >= s.threads[t].sleepUntil
    ensures t !in Q(Next(s, a), SleepQueue)
  {
    hide Inv, Q, Next, Enabled, Blocking, Low32, Core, FlagsOk, Sleepers, RoleOk;
    InvParts(s);
    QueuesHoldThreads(s, SleepQueue, t);
    ClockStep(s, a);
    if a == Tick {
      TickWakes(s, t);
    } else if a.DoExit? {
      NextIs(s, a);
      ExitWakes(s, a.code, t);
    } else {
      BlockingWakes(s, a, t);
    }
  }

  /** A step that does not dispatch wakes nobody. */
  lemma GoingWakesNobody(s: State, a: Action, t: Tid)
    requires Inv(s) && Enabled(s, a) && !Switches(s, a) && t in Q(s, SleepQueue) && t in s.threads
    ensures StillAsleep(s, Next(s, a), t)
  {
    QueuesHoldThreads(s, SleepQueue, t);
    if a == Tick {
      InvParts(s);
      TickIs(s);
      TickIsNext(s);
      CountedAt(s, t);
      hide Inv, Core, Q, Counted;
    } else {
      hide Inv, Next, Enabled, Q;
      EveryStepGoes(s, a);
    }
  }

  /** One step leaves a sleeper asleep if and only if it is no dispatch at or past the wake-up tick. */
  lemma StepExact(s: State, a: Action, t: Tid, until: nat)
    requires Inv(s) && Enabled(s, a) && Sleeper(s, t, until)
    ensures Sleeper(Next(s, a), t, until) <==> !(Switches(s, a) && Next(s, a).ticks >= until)
  {
    hide Inv, Next, Enabled, Switches, Q, Awake, Core, FlagsOk, Sleepers, RoleOk;
    InvParts(s);
    if Switches(s, a) {
      SleepStep(s, a, t);
      if Next(s, a).ticks >= until { SwitchWakes(s, a, t); }
    } else {
      GoingWakesNobody(s, a, t);
    }
  }

  // ---------------------------------------------------------------- runs

  /** All along the run, `t` is asleep. */
  ghost predicate SleepsAll(s: State, acts: seq<Action>, t: Tid, until: nat)
    requires Runs(s, acts)
    decreases |acts|
  {
    Sleeper(s, t, until) && (acts != [] ==> SleepsAll(Next(s, acts[0]), acts[1..], t, until))
  }

  /** No dispatch of the run finds the clock at or past `until`. */
  ghost predicate NoDueDispatch(s: State, acts: seq<Action>, until: nat)
    requires Runs(s, acts)
    decreases |acts|
  {
    acts != [] ==>
      && !(Switches(s, acts[0]) && Next(s, acts[0]).ticks >= until)
      && NoDueDispatch(Next(s, acts[0]), acts[1..], until)
  }

  /** Over any run, wherever the clock goes: a sleeper sleeps through it if and only if no dispatch in
      it finds the clock at or past the wake-up tick. */
  lemma {:induction false} WakesExactly(s: State, acts: seq<Action>, t: Tid, until: nat)
    requires Inv(s) && Runs(s, acts) && Sleeper(s, t, until)
    ensures SleepsAll(s, acts, t, until) <==> NoDueDispatch(s, acts, until)
    decreases |acts|
  {
    hide Inv, Next, Enabled, Switches, Sleeper;
    if acts != [] {
      var n := Next(s, acts[0]);
      NextKeeps(s, acts[0]);
      StepExact(s, acts[0], t, until);
      if Sleeper(n, t, until) {
        WakesExactly(n, acts[1..], t, until);
      } else {
        NotAsleep(n, acts[1..], t, until);
      }
    }
  }

  lemma NotAsleep(s: State, acts: seq<Action>, t: Tid, until: nat)
    requires Runs(s, acts) && !Sleeper(s, t, until)
    ensures !SleepsAll(s, acts, t, until)
  {}

  /** One run after another. */
  lemma {:induction false} RunsOn(s: State, a: seq<Action>, b: seq<Action>)
    requires Runs(s, a) && Runs(After(s, a), b)
    ensures Runs(s, a + b) && After(s, a + b) == After(After(s, a), b) && Ticks(a + b) == Ticks(a) + Ticks(b)
    decreases |a|
  {
    hide Next, Enabled;
    if a == [] {
      assert a + b == b;
    } else {
      assert (a + b)[0] == a[0] && (a + b)[1..] == a[1..] + b;
      RunsOn(Next(s, a[0]), a[1..], b);
    }
  }

  lemma {:induction false} PreemptOn(s: State, a: seq<Action>, b: seq<Action>)
    requires Runs(s, a) && Runs(After(s, a), b) && AllPreempt(s, a) && AllPreempt(After(s, a), b) && Runs(s, a + b)
    ensures AllPreempt(s, a + b)
    decreases |a|
  {
    hide Next, Enabled, TicksPreempt;
    if a == [] {
      assert a + b == b;
    } else {
      assert (a + b)[0] == a[0] && (a + b)[1..] == a[1..] + b;
      PreemptOn(Next(s, a[0]), a[1..], b);
    }
  }

  lemma {:induction false} SleepsOnOn(s: State, a: seq<Action>, b: seq<Action>, t: Tid, until: nat)
    requires Runs(s, a) && Runs(After(s, a), b) && Runs(s, a + b)
    requires SleepsAll(s, a, t, until) && SleepsAll(After(s, a), b, t, until)
    ensures SleepsAll(s, a + b, t, until)
    decreases |a|
  {
    hide Next, Enabled, Sleeper;
    if a == [] {
      assert a + b == b;
    } else {
      assert (a + b)[0] == a[0] && (a + b)[1..] == a[1..] + b;
      SleepsOnOn(Next(s, a[0]), a[1..], b, t, until);
    }
  }

  /** Before its tick a sleeper sleeps through any run. */
  lemma {:induction false} SleepsBefore(s: State, acts: seq<Action>, t: Tid, until: nat)
    requires Inv(s) && Runs(s, acts) && Sleeper(s, t, until) && s.ticks + Ticks(acts) < until < TWO32
    ensures SleepsAll(s, acts, t, until) && Sleeper(After(s, acts), t, until) && After(s, acts).ticks == s.ticks + Ticks(acts)
    ensures Inv(After(s, acts))
    decreases |acts|
  {
    hide Inv, Next, Enabled, Q;
    if acts != [] {
      NextKeeps(s, acts[0]);
      SleepsThrough(s, acts[0], t);
      SleepsBefore(Next(s, acts[0]), acts[1..], t, until);
    }
  }

  /** Who sleeps through a run is awake at no point of it. */
  lemma {:induction false} SleepsNotAwake(s: State, acts: seq<Action>, t: Tid, until: nat, budget: int)
    requires Inv(s) && Runs(s, acts) && SleepsAll(s, acts, t, until)
    ensures !WakesWithin(s, acts, t, budget)
    decreases |acts|
  {
    hide Inv, Next, Enabled, Q, Awake;
    AsleepNotAwake(s, t);
    if acts != [] {
      NextKeeps(s, acts[0]);
      SleepsNotAwake(Next(s, acts[0]), acts[1..], t, until, budget - TickOf(acts[0]));
    }
  }

  // ---------------------------------------------------------------- a wake-up tick passed over

  function Row(k: nat): seq<Action> { if k == 0 then [] else [Tick] + Row(k - 1) }

  /** The current thread can be ticked `k` times more before it is preempted. */
  predicate Unhurried(s: State, k: nat) {
    s.current in s.threads && s.intr && !s.preemptOff && s.threads[s.current].numTicks + k <= THREAD_QUANTUM
  }

  lemma OneTick(s: State, k: nat)
    requires Inv(s) && Unhurried(s, k + 1) && s.ticks + 1 < TWO32
    ensures Enabled(s, Tick) && !Switches(s, Tick)
    ensures var n := Next(s, Tick);
            && Unhurried(n, k) && n.ticks == s.ticks + 1 && n.current == s.current && n.idle == s.idle
            && n.threads[n.current].pc == s.threads[s.current].pc
  {
    TickIs(s);
    TickIsNext(s);
    Low32Is(s.ticks + 1);
  }

  /** Ticks within the quantum pass without a dispatch. */
  lemma {:induction false} TicksPass(s: State, k: nat, t: Tid, until: nat)
    requires Inv(s) && Unhurried(s, k) && s.ticks + k < TWO32 && Sleeper(s, t, until)
    ensures Runs(s, Row(k)) && AllPreempt(s, Row(k)) && Ticks(Row(k)) == k && SleepsAll(s, Row(k), t, until)
    ensures var n := After(s, Row(k));
            && Inv(n) && Unhurried(n, 0) && n.ticks == s.ticks + k && Sleeper(n, t, until) && n.current == s.current && n.idle == s.idle
            && n.current in n.threads && s.current in s.threads && n.threads[n.current].pc == s.threads[s.current].pc
    decreases k
  {
    hide Inv, Next, Enabled, Sleeper;
    if k > 0 {
      OneTick(s, k - 1);
      var n := Next(s, Tick);
      NextKeeps(s, Tick);
      StepExact(s, Tick, t, until);
      TicksPass(n, k - 1, t, until);
      assert Row(k)[0] == Tick && Row(k)[1..] == Row(k - 1);
    }
  }

  /** Past the top of the clock a sleeper not woken before sleeps almost a whole turn of the clock more. */
  lemma SleepsOver(s: State, acts: seq<Action>, t: Tid, until: nat)
    requires Inv(s) && Runs(s, acts) && Sleeper(s, t, until) && until < TWO32 && s.ticks == TWO32 - 1
    requires acts != [] && acts[0] == Tick && Ticks(acts) <= until
    ensures SleepsAll(s, acts, t, until)
  {
    hide Inv, Next, Enabled, Sleeper, Switches;
    ClockStep(s, Tick);
    Low32Is(s.ticks + 1);
    NextKeeps(s, Tick);
    StepExact(s, Tick, t, until);
    SleepsBefore(Next(s, Tick), acts[1..], t, until);
  }

  /** A wake-up tick near the top of the clock passed over: the clock is about to reach it, the current
      thread's quantum lasts to the top, and from then on the sleeper sleeps through any run that
      does not bring the clock round to its tick again. */
  lemma PassedOver(s: State, t: Tid, until: nat, acts: seq<Action>)
    requires Inv(s) && Sleeper(s, t, until) && NearTop(until) && s.ticks == until - 1
    requires Unhurried(s, TWO32 - until)
    requires Runs(s, Row(TWO32 - until) + [Tick] + acts) && Ticks(acts) < until
    ensures SleepsAll(s, Row(TWO32 - until) + [Tick] + acts, t, until)
  {
    hide Inv, Next, Enabled, Sleeper, Unhurried;
    var row, rest := Row(TWO32 - until), [Tick] + acts;
    TicksPass(s, TWO32 - until, t, until);
    assert row + [Tick] + acts == row + rest;
    RunsSplit(s, row, rest);
    assert rest[1..] == acts;
    SleepsOver(After(s, row), rest, t, until);
    SleepsOnOn(s, row, rest, t, until);
  }

  lemma {:induction false} RunsSplit(s: State, a: seq<Action>, b: seq<Action>)
    requires Runs(s, a) && Runs(s, a + b)
    ensures Runs(After(s, a), b)
    decreases |a|
  {
    hide Next, Enabled;
    if a == [] {
      assert a + b == b;
    } else {
      assert (a + b)[0] == a[0] && (a + b)[1..] == a[1..] + b;
      RunsSplit(Next(s, a[0]), a[1..], b);
    }
  }

  // ---------------------------------------------------------------- back to the idle thread

  /** Steps a thread at a program point has at most before it runs its own code or gives up the
      processor; `d` threads are on the reaper's chain. */
  function Rank(pc: Pc, d: nat): nat {
    match pc
    case Preempted(at) => 1 + Rank(at, d)
    case Running => 0
    case ReapYield => 0
    case Dead => 0
    case Yielded => 1
    case Slept => 1
    case Waited(_) => 1
    case JoinTest(_) => 1
    case LockLeave(_) => 1
    case UnlockLeave => 1
    case ReapTest => 1
    case LockOwn(_) => 2
    case UnlockWake(_) => 2
    case ReapCli => 2
    case Start => 3
    case LockTest(_) => 3
    case UnlockOwn(_) => 3
    case LockWoken(_) => 4
    case UnlockClear(_) => 4
    case ReapFree(_) => 2 + 2 * d
    case ReapNext => 3 + 2 * d
    case ReapYielded => 4 + 2 * d
  }

  function RankOf(s: State): nat
    requires s.current in s.threads
  {
    Rank(s.threads[s.current].pc, |Q(s, Doomed)|)
  }

  /** The current thread went on to a lower rank. */
  predicate Lower(s: State, n: State) {
    s.current in s.threads && n.current == s.current && n.current in n.threads && RankOf(n) < RankOf(s)
  }

  lemma LowerIs(s: State, n: State, pc: Pc)
    requires s.current in s.threads && n.current == s.current && n.current in n.threads && n.threads[n.current].pc == pc
    requires Q(n, Doomed) == Q(s, Doomed) && Rank(pc, |Q(s, Doomed)|) < RankOf(s)
    ensures Lower(s, n)
  {}

  lemma PlainLower(s: State)
    requires Inv(s) && Enabled(s, Step) && s.current in s.threads && PlainStep(s.threads[s.current].pc)
    ensures Lower(s, Continue(s))
  {
    hide *;
    InvParts(s);
    PlainNextIs(s);
    var flagged := s.(intr := IntrOn(PlainNext(s)), preemptOff := false);
    SetPcIs(flagged, PlainNext(s));
    SameQueues(s, flagged);
    PlainRank(s);
    LowerIs(s, Continue(s), PlainNext(s));
  }

  lemma PlainRank(s: State)
    requires s.current in s.threads && PlainStep(s.threads[s.current].pc)
    ensures Rank(PlainNext(s), |Q(s, Doomed)|) < RankOf(s)
  {
    hide Q;
  }

  lemma SetPcIs(s: State, pc: Pc)
    requires s.current in s.threads
    ensures var n := SetPc(s, s.current, pc);
            n.current == s.current && n.current in n.threads && n.threads[n.current].pc == pc && Q(n, Doomed) == Q(s, Doomed)
  {}

  lemma SameQueues(s: State, n: State)
    requires n.queues == s.queues
    ensures Q(n, Doomed) == Q(s, Doomed)
  {}

  lemma LockLower(s: State, m: nat)
    requires s.current in s.threads
    ensures var pc := s.threads[s.current].pc;
            && (pc == LockTest(m) && !MutexOf(s, m).locked ==> Lower(s, LockTestStep(s, m)))
            && (pc == LockOwn(m) ==> Lower(s, LockOwnStep(s, m)))
            && (pc == LockLeave(m) ==> Lower(s, LockLeaveStep(s, m)))
            && (pc == LockWoken(m) ==> Lower(s, LockWokenStep(s, m)))
  {
    hide MutexOf, Block;
  }

  lemma UnlockLower(s: State, m: nat)
    requires s.current in s.threads
    ensures var pc := s.threads[s.current].pc;
            && (pc == UnlockClear(m) ==> Lower(s, UnlockClearStep(s, m)))
            && (pc == UnlockOwn(m) ==> Lower(s, UnlockOwnStep(s, m)))
  {
    hide MutexOf;
  }

  lemma UnlockWakeLower(s: State, m: nat)
    requires s.current in s.threads && s.threads[s.current].pc == UnlockWake(m)
    ensures Lower(s, UnlockWakeStep(s, m))
  {
    var p := SetPc(s, s.current, UnlockLeave);
    SetPcIs(s, UnlockLeave);
    if Q(s, MutexQueue(m)) != [] {
      hide Roused, SetPc, UnlockWakeStep, Q;
      UnlockWakeRouses(s, m);
      RousedMeans(p, UnlockWakeStep(s, m));
      LowerIs(s, UnlockWakeStep(s, m), UnlockLeave);
    } else {
      LowerIs(s, UnlockWakeStep(s, m), UnlockLeave);
    }
  }

  lemma DetachSpares(s: State, t: Tid, u: Tid)
    requires t in s.threads && u in s.threads && u != t
    ensures var e := Detach(s, t); e.current == s.current && u in e.threads && e.threads[u] == s.threads[u] && Q(e, Doomed) == Q(s, Doomed)
  {
    hide WakeAll;
    var n := SetThread(Check(Check(s, !s.intr), s.threads[t].refCount > 0), t, s.threads[t].(refCount := s.threads[t].refCount - 1));
    WakeAllRouses(Enqueue(n, Graveyard, t), ReaperWait);
  }

  lemma JoinLower(s: State, t: Tid)
    requires s.current in s.threads && t in s.threads && t != s.current && s.threads[s.current].pc == JoinTest(t) && !s.threads[t].alive
    ensures Lower(s, JoinStep(s, t))
  {
    var n := SetPc(s, s.current, Running);
    var a := SetThread(n, t, n.threads[t].(ownerRef := false));
    assert a.threads[s.current].pc == Running && Q(a, Doomed) == Q(s, Doomed);
    hide Detach, Q;
    DetachSpares(a, t, s.current);
    assert JoinStep(s, t) == Sti(Detach(a, t));
    SameQueues(Detach(a, t), JoinStep(s, t));
    LowerIs(s, JoinStep(s, t), Running);
  }

  lemma ReapLower(s: State)
    requires s.current in s.threads
    ensures s.threads[s.current].pc == ReapTest && Q(s, Graveyard) != [] ==> Lower(s, ReapTestStep(s))
    ensures s.threads[s.current].pc == ReapNext ==> Lower(s, ReapNextStep(s))
  {
    hide Block;
  }

  lemma ReapFreeLower(s: State)
    requires Inv(s) && s.current in s.threads && s.threads[s.current].pc.ReapFree?
    ensures Lower(s, ReapFreeStep(s, s.threads[s.current].pc.next))
  {
    hide *;
    LinkStill(s);
    InvParts(s);
    FreeingKeeps(s);
    var p := Freeing(s);
    InvParts(p);
    FreeingEffects(s);
    HeadDoomable(p);
    FreeFlags(s);
    DestroyIs(s);
    DestroyedIs(p);
    FreedLower(s, ReapFreeStep(s, s.threads[s.current].pc.next));
  }

  lemma FreeFlags(s: State)
    requires Inv(s) && s.current in s.threads && s.threads[s.current].pc.ReapFree?
    ensures s.intr && !s.halted
  {
    hide Core, Sleepers;
    InvParts(s);
  }

  lemma FreedLower(s: State, n: State)
    requires s.current in s.threads && s.threads[s.current].pc.ReapFree? && Q(s, Doomed) != []
    requires n.current == s.current && n.current in n.threads && n.threads[n.current].pc == ReapNext && Q(n, Doomed) == Q(s, Doomed)[1..]
    ensures Lower(s, n)
  {}

  /** A step inside a kernel call dispatches or brings the thread nearer to its own code. */
  lemma StepLower(s: State)
    requires Inv(s) && s.current in s.threads && Enabled(s, Step)
    ensures Switches(s, Step) || Lower(s, Continue(s))
  {
    hide *;
    InvParts(s);
    StepKinds(s);
    ContinueIs(s);
    StepSwitches(s);
    var pc := s.threads[s.current].pc;
    if PlainStep(pc) {
      PlainLower(s);
    } else if pc.JoinTest? {
      if !s.threads[pc.t].alive {
        OthersAlive(s);
        JoinLower(s, pc.t);
      }
    } else if pc.LockTest? || pc.LockOwn? || pc.LockLeave? || pc.LockWoken? {
      LockLower(s, pc.m);
    } else if pc.UnlockClear? || pc.UnlockOwn? {
      UnlockLower(s, pc.m);
    } else if pc.UnlockWake? {
      UnlockWakeLower(s, pc.m);
    } else if pc.ReapFree? {
      ReapFreeLower(s);
    } else {
      ReapLower(s);
    }
  }

  /** Who dispatches inside a kernel call. */
  lemma StepSwitches(s: State)
    requires s.current in s.threads && Enabled(s, Step)
    ensures var pc := s.threads[s.current].pc;
            && (pc.JoinTest? ==> pc.t in s.threads && (Switches(s, Step) <==> s.threads[pc.t].alive))
            && (pc.LockTest? ==> (Switches(s, Step) <==> MutexOf(s, pc.m).locked))
            && (pc == ReapTest ==> (Switches(s, Step) <==> Q(s, Graveyard) == []))
            && (pc == ReapYield ==> Switches(s, Step))
  {
    hide Q, MutexOf;
  }

  lemma OthersAlive(s: State)
    requires Inv(s)
    ensures s.current in s.threads && s.threads[s.current].alive
  {
    hide Core, Sleepers;
    InvParts(s);
  }

  // ---------------------------------------------------------------- back to the idle thread

  /** The idle thread has the processor, at its own code. */
  predicate Idling(s: State) { s.current == s.idle && s.current in s.threads && s.threads[s.current].pc == Running }

  /** The idle thread is on the processor or at index `k` of the run queue. */
  predicate IdleAt(s: State, k: nat) { s.current == s.idle || (k < |Q(s, RunQueue)| && Q(s, RunQueue)[k] == s.idle) }

  lemma IdleSomewhere(s: State) returns (k: nat)
    requires Inv(s)
    ensures IdleAt(s, k)
  {
    InvParts(s);
    k := 0;
    if s.current != s.idle {
      IdleReady(s);
      k :| k < |Q(s, RunQueue)| && Q(s, RunQueue)[k] == s.idle;
    }
  }

  /** What the current thread is taken to do on the way: its next step, or yield. */
  function Onwards(s: State): Action
    requires s.current in s.threads
  {
    if s.threads[s.current].pc == Running then DoYield else Step
  }

  lemma OnwardsEnabled(s: State)
    requires Inv(s)
    ensures s.current in s.threads && Enabled(s, Onwards(s))
    ensures Onwards(s) == DoYield ==> Switches(s, DoYield)
  {
    InvParts(s);
    if s.threads[s.current].pc.JoinTest? { OwnJoin(s); }
  }

  lemma IdleStays(s: State, a: Action)
    requires Inv(s) && Enabled(s, a)
    ensures Next(s, a).idle == s.idle
  {
    EveryStepLives(s, a);
    hide Inv, Next, Enabled, Moves, WentOn, Dispatched;
  }

  /** The current thread's tick count is at most that of before, unless it is fresh from a dispatch. */
  predicate NoMoreTicks(s: State, n: State) {
    s.current in s.threads && n.current in n.threads && n.threads[n.current].numTicks <= s.threads[s.current].numTicks
  }

  lemma OnwardsTicks(s: State, a: Action)
    requires Inv(s) && Enabled(s, a) && a != Tick
    ensures NoMoreTicks(s, Next(s, a)) && Next(s, a).ticks == s.ticks
    ensures Switches(s, a) ==> Dispatched(s, Next(s, a)) && Next(s, a).threads[Next(s, a).current].numTicks == 0
  {
    hide Inv, Next, Enabled, Switches, AllAsleep, Q;
    ClockStep(s, a);
    EveryStepGoes(s, a);
    if Switches(s, a) { FreshQuantum(s, Next(s, a)); }
  }

  /** The idle thread, inside a call, needs one step to be back at its own code. */
  lemma IdleBack(s: State)
    requires Inv(s) && s.current == s.idle && s.current in s.threads && s.threads[s.current].pc != Running
    ensures Enabled(s, Step) && !Switches(s, Step) && Idling(Continue(s)) && Next(s, Step) == Continue(s)
  {
    InvParts(s);
    IdleAtPlain(s);
    PlainNextIs(s);
    hide *;
    IdleStays(s, Step);
    NextIs(s, Step);
    SetPcIs(s.(intr := IntrOn(PlainNext(s)), preemptOff := false), PlainNext(s));
    IdlingIs(Continue(s));
  }

  lemma IdlingIs(n: State)
    requires n.current == n.idle && n.current in n.threads && n.threads[n.current].pc == Running
    ensures Idling(n)
  {}

  lemma IdleAtPlain(s: State)
    requires s.current == s.idle && s.current in s.threads && s.threads[s.current].pc != Running && RoleOk(s, s.current) && s.idle != s.reaper
    ensures Enabled(s, Step) && !Switches(s, Step) && PlainStep(s.threads[s.current].pc) && PlainNext(s) == Running
  {}

  /** Without a tick the idle thread gets the processor, from wherever the machine is. */
  lemma IdleTurn(s: State, k: nat) returns (acts: seq<Action>)
    requires Inv(s) && IdleAt(s, k)
    ensures Runs(s, acts) && AllPreempt(s, acts) && Ticks(acts) == 0
    ensures var n := After(s, acts); Inv(n) && Idling(n) && n.ticks == s.ticks && NoMoreTicks(s, n)
    decreases if s.current == s.idle then 0 else k + 1, if s.current in s.threads then RankOf(s) else 0
  {
    hide Inv, Next, Enabled, Switches, Dispatched, WentOn, Q, RankOf;
    OnwardsEnabled(s);
    acts := [];
    if !Idling(s) {
      var a := Onwards(s);
      var n := Next(s, a);
      NextKeeps(s, a);
      IdleStays(s, a);
      OnwardsTicks(s, a);
      var rest;
      if s.current == s.idle {
        IdleBack(s);
        rest := [];
      } else {
        var j := IdleNearer(s, a, k);
        rest := IdleTurn(n, j);
      }
      acts := [a] + rest;
      assert acts[0] == a && acts[1..] == rest;
    }
  }

  /** A dispatch brings the idle thread forward; a step without one leaves its place and lowers the rank. */
  lemma IdleNearer(s: State, a: Action, k: nat) returns (j: nat)
    requires Inv(s) && IdleAt(s, k) && s.current in s.threads && s.current != s.idle && a == Onwards(s) && Enabled(s, a)
    ensures var n := Next(s, a);
            && IdleAt(n, j)
            && (n.current == n.idle || j < k || (j == k && n.current in n.threads && RankOf(n) < RankOf(s)))
  {
    hide Inv, Next, Enabled, Switches, AllAsleep, Q, RankOf, Continue;
    IdleStays(s, a);
    OnwardsTicks(s, a);
    EveryStepGoes(s, a);
    j := k;
    if Switches(s, a) {
      DispatchedMoves(s, Next(s, a), k);
      if k > 0 { j := k - 1; }
    } else {
      OnwardsEnabled(s);
      StepLower(s);
      NextIs(s, a);
    }
  }

  // ---------------------------------------------------------------- the run that passes a tick over

  lemma IdlingOn(s: State)
    requires Inv(s) && Idling(s)
    ensures s.current in s.threads && s.intr && !s.preemptOff && Enabled(s, Tick) && Enabled(s, DoYield) && Switches(s, DoYield)
  {
    InvParts(s);
  }

  /** From the idle thread the clock can be brought `d` ticks on, every tick with preemption enabled. */
  lemma {:induction false} ClockOn(s: State, d: nat) returns (acts: seq<Action>)
    requires Inv(s) && Idling(s) && s.ticks + d < TWO32
    ensures Runs(s, acts) && AllPreempt(s, acts) && Ticks(acts) == d && (d > 0 ==> acts != [] && acts[0] == Tick)
    ensures var n := After(s, acts); Inv(n) && Idling(n) && n.ticks == s.ticks + d
    decreases d
  {
    hide Inv, Next, Enabled, Idling, Switches;
    acts := [];
    if d > 0 {
      IdlingOn(s);
      var n := Next(s, Tick);
      NextKeeps(s, Tick);
      ClockStep(s, Tick);
      Low32Is(s.ticks + 1);
      var k := IdleSomewhere(n);
      var turn := IdleTurn(n, k);
      var more := ClockOn(After(n, turn), d - 1);
      RunsOn(n, turn, more);
      PreemptOn(n, turn, more);
      acts := [Tick] + (turn + more);
      assert acts[0] == Tick && acts[1..] == turn + more;
    }
  }

  /** Two runs through which `t` sleeps are one. */
  lemma Chained(s: State, a: seq<Action>, b: seq<Action>, t: Tid, until: nat)
    requires Runs(s, a) && AllPreempt(s, a) && SleepsAll(s, a, t, until)
    requires var m := After(s, a); Runs(m, b) && AllPreempt(m, b) && SleepsAll(m, b, t, until)
    ensures Runs(s, a + b) && AllPreempt(s, a + b) && SleepsAll(s, a + b, t, until)
    ensures After(s, a + b) == After(After(s, a), b) && Ticks(a + b) == Ticks(a) + Ticks(b)
  {
    hide *;
    RunsOn(s, a, b);
    PreemptOn(s, a, b);
    SleepsOnOn(s, a, b, t, until);
  }

  /** The idle thread gives up the processor once and gets it back with a fresh quantum. */
  lemma FreshTurn(s: State) returns (acts: seq<Action>)
    requires Inv(s) && Idling(s)
    ensures Runs(s, acts) && AllPreempt(s, acts) && Ticks(acts) == 0
    ensures var n := After(s, acts); Inv(n) && Idling(n) && n.ticks == s.ticks && n.threads[n.current].numTicks == 0
  {
    hide Inv, Next, Enabled, Switches, Dispatched;
    IdlingOn(s);
    var n := Next(s, DoYield);
    NextKeeps(s, DoYield);
    OnwardsTicks(s, DoYield);
    var k := IdleSomewhere(n);
    var rest := IdleTurn(n, k);
    acts := [DoYield] + rest;
    assert acts[0] == DoYield && acts[1..] == rest;
  }

  /** A run that brings the clock to just before `until`, the idle thread at the start of its quantum. */
  lemma ToBrink(s: State, t: Tid, until: nat) returns (acts: seq<Action>)
    requires Inv(s) && Sleeper(s, t, until) && s.ticks < until < TWO32
    ensures Runs(s, acts) && AllPreempt(s, acts) && Ticks(acts) == until - 1 - s.ticks && SleepsAll(s, acts, t, until)
    ensures var n := After(s, acts);
            Inv(n) && Idling(n) && n.ticks == until - 1 && n.threads[n.current].numTicks == 0 && Sleeper(n, t, until)
  {
    hide Inv, Runs, After, AllPreempt, Ticks, SleepsAll, Sleeper;
    var k := IdleSomewhere(s);
    var a := IdleTurn(s, k);
    SleepsBefore(s, a, t, until);
    var n := After(s, a);
    var b := ClockOn(n, until - 1 - s.ticks);
    SleepsBefore(n, b, t, until);
    Chained(s, a, b, t, until);
    var m := After(n, b);
    var c := FreshTurn(m);
    SleepsBefore(m, c, t, until);
    Chained(s, a + b, c, t, until);
    acts := a + b + c;
  }

  /** From the top of the clock a run past it, for as long as the bound lasts. */
  lemma PastTop(s: State, t: Tid, until: nat) returns (acts: seq<Action>)
    requires Inv(s) && Sleeper(s, t, until) && NearTop(until) && s.ticks == TWO32 - 1 && Idling(s)
    ensures Runs(s, acts) && AllPreempt(s, acts) && Ticks(acts) == 1 + until + THREAD_QUANTUM - TWO32 && SleepsAll(s, acts, t, until)
  {
    hide Inv, Next, Enabled, Sleeper, Idling, Switches;
    IdlingOn(s);
    var n := Next(s, Tick);
    NextKeeps(s, Tick);
    ClockStep(s, Tick);
    Low32Is(s.ticks + 1);
    var k := IdleSomewhere(n);
    var turn := IdleTurn(n, k);
    var more := ClockOn(After(n, turn), until + THREAD_QUANTUM - TWO32);
    RunsOn(n, turn, more);
    PreemptOn(n, turn, more);
    acts := [Tick] + (turn + more);
    assert acts[0] == Tick && acts[1..] == turn + more;
    SleepsOver(s, acts, t, until);
  }

  lemma IdleUnhurried(s: State, k: nat)
    requires Inv(s) && Idling(s) && s.threads[s.current].numTicks + k <= THREAD_QUANTUM
    ensures Unhurried(s, k)
  {
    hide Inv;
    IdlingOn(s);
  }

  /** Whenever a wake-up tick is near the top of the clock there is a run, every tick of it with
      preemption enabled, that takes as long as the bound and finds the sleeper asleep all along. */
  lemma MissRun(s: State, t: Tid, until: nat) returns (acts: seq<Action>)
    requires Inv(s) && Sleeper(s, t, until) && s.ticks < until && NearTop(until)
    ensures Runs(s, acts) && AllPreempt(s, acts) && Ticks(acts) == until + THREAD_QUANTUM - s.ticks && SleepsAll(s, acts, t, until)
  {
    hide Inv, Runs, After, AllPreempt, Ticks, SleepsAll, Sleeper, Unhurried;
    var a := ToBrink(s, t, until);
    var n := After(s, a);
    var k := TWO32 - until;
    IdleUnhurried(n, k);
    TicksPass(n, k, t, until);
    Chained(s, a, Row(k), t, until);
    var m := After(n, Row(k));
    IdlingIs(m);
    var b := PastTop(m, t, until);
    Chained(s, a + Row(k), b, t, until);
    acts := a + Row(k) + b;
  }

  // ---------------------------------------------------------------- the exact bound

  /** In every run whose ticks all find preemption enabled, `t` is awake within `budget` ticks. */
  ghost predicate InTime(s: State, t: Tid, budget: nat) {
    forall acts :: Runs(s, acts) && AllPreempt(s, acts) && Ticks(acts) >= budget ==> WakesWithin(s, acts, t, budget)
  }

  /** `sleep` ends within a quantum after the ticks it sleeps, in every such run, if and only if the
      wake-up tick is not near the top of the clock. */
  lemma SleepBoundExact(s: State, ms: nat)
    requires Inv(s) && Enabled(s, DoSleep(ms)) && s.ticks < TWO32
    ensures InTime(Sleep(s, ms), s.current, SleepTicks(ms) + THREAD_QUANTUM) <==> !NearTop(s.ticks + SleepTicks(ms))
  {
    hide Inv, Runs, AllPreempt, WakesWithin, Sleep, Enabled, SleepTicks, Ticks, Next;
    RunningFlags(s, ms);
    var t, n, budget := s.current, Sleep(s, ms), SleepTicks(ms) + THREAD_QUANTUM;
    if NearTop(s.ticks + SleepTicks(ms)) {
      var acts := SleepMissed(s, ms);
      assert !WakesWithin(n, acts, t, budget);
    } else {
      forall acts | Runs(n, acts) && AllPreempt(n, acts) && Ticks(acts) >= budget ensures WakesWithin(n, acts, t, budget) {
        SleepEnds(s, ms, acts);
      }
    }
  }

  lemma SleepMissed(s: State, ms: nat) returns (acts: seq<Action>)
    requires Inv(s) && Enabled(s, DoSleep(ms)) && s.ticks < TWO32 && NearTop(s.ticks + SleepTicks(ms))
    ensures var n := Sleep(s, ms); var budget := SleepTicks(ms) + THREAD_QUANTUM;
            Runs(n, acts) && AllPreempt(n, acts) && Ticks(acts) == budget && !WakesWithin(n, acts, s.current, budget)
  {
    hide Inv, Runs, AllPreempt, WakesWithin, Sleep, Enabled, SleepTicks, Ticks, Next, SleepsAll;
    RunningFlags(s, ms);
    SleepTicksBound(ms);
    NextKeeps(s, DoSleep(ms));
    FallsExactly(s, ms);
    var n, until := Sleep(s, ms), s.ticks + SleepTicks(ms);
    acts := MissRun(n, s.current, until);
    SleepsNotAwake(n, acts, s.current, until, SleepTicks(ms) + THREAD_QUANTUM);
  }
}

/** Every call a thread makes, and every step inside one, keeps the scheduler's invariants. */
module SchedCalls {
  import opened Basics
  import opened SchedModel
  import opened SchedInv
  import opened SchedDispatch
  import opened SchedLocal

  // ---------------------------------------------------------------- steps that do not dispatch

  lemma InvParts(s: State)
    requires Inv(s)
    ensures Core(s, s.current) && FlagsOk(s) && Sleepers(s)
    ensures !s.halted && s.current in s.threads && s.current != NULL && RoleOk(s, s.current)
    ensures s.idle != s.reaper
  {
    CoreParts(s, s.current);
  }

  lemma LocalSleepers(s: State, n: State)
    requires Core(s, s.current) && Sleepers(s) && Local(s, n)
    requires n.ticks - n.threads[n.current].numTicks <= s.ticks - s.threads[s.current].numTicks
    ensures Sleepers(n)
  {
    assert QueueOk(s, s.current, SleepQueue);
  }

  /** The current thread goes on: its record changes away from mutexes. */
  lemma GoOn(s: State, n: State)
    requires Inv(s) && Local(s, n) && n.mutexes == s.mutexes
    requires n.ticks - n.threads[n.current].numTicks <= s.ticks - s.threads[s.current].numTicks
    requires Neutral(s.threads[s.current], n.threads[s.current])
    requires RoleOk(n, s.current) && RefsKept(s.threads[s.current], n.threads[s.current])
    requires n.threads[s.current].alive || Q(s, JoinQueue(s.current)) == []
    requires s.current == s.reaper ==> ReaperAt(n, n.threads[s.current].pc)
    requires FlagsOk(n)
    ensures Inv(n)
  {
    InvParts(s);
    assert n.current == s.current;
    hide *;
    NeutralKeeps(s, n);
    LocalSleepers(s, n);
    InvWhole(n);
  }

  /** The current thread goes on: its record and one mutex change. */
  lemma GoOnMutex(s: State, n: State)
    requires Inv(s) && Local(s, n)
    requires n.ticks == s.ticks && n.threads[n.current].numTicks == s.threads[s.current].numTicks
    requires RoleOk(n, s.current) && RefsKept(s.threads[s.current], n.threads[s.current])
    requires n.threads[s.current].alive && s.current != s.reaper
    requires Locks(n, s.current) && Wakes(n, s.current)
    requires FlagsOk(n)
    ensures Inv(n)
  {
    InvParts(s);
    assert n.current == s.current;
    hide *;
    LocalKeeps(s, n);
    LocalSleepers(s, n);
    InvWhole(n);
  }

  lemma ReaperChain(s: State)
    requires Core(s, s.current) && s.current == s.reaper
    ensures ReaperAt(s, s.threads[s.current].pc)
  {}

  lemma OwnRefs(s: State)
    requires Core(s, s.current)
    ensures RefsKept(s.threads[s.current], s.threads[s.current])
  {
    var th := s.threads[s.current];
    if th.pc.JoinTest? {
      assert th.pc.t in RefsOf(th);
      assert RefOk(s, s.current, th.pc.t);
    }
  }

  /** Which function a step inside a kernel call is, apart from the plain ones. */
  lemma ContinueIs(s: State)
    requires s.current in s.threads && Enabled(s, Step)
    ensures match s.threads[s.current].pc
            case JoinTest(t) => t in s.threads && Continue(s) == JoinStep(s, t)
            case LockTest(m) => Continue(s) == LockTestStep(s, m)
            case LockOwn(m) => Continue(s) == LockOwnStep(s, m)
            case LockLeave(m) => Continue(s) == LockLeaveStep(s, m)
            case LockWoken(m) => Continue(s) == LockWokenStep(s, m)
            case UnlockClear(m) => Continue(s) == UnlockClearStep(s, m)
            case UnlockOwn(m) => Continue(s) == UnlockOwnStep(s, m)
            case UnlockWake(m) => Continue(s) == UnlockWakeStep(s, m)
            case ReapTest => Continue(s) == ReapTestStep(s)
            case ReapYield => Continue(s) == Yield(s, ReapYielded)
            case ReapNext => Continue(s) == ReapNextStep(s)
            case ReapFree(next) => Continue(s) == ReapFreeStep(s, next)
            case _ => true
  {
    hide JoinStep, LockTestStep, LockOwnStep, LockLeaveStep, LockWokenStep, UnlockClearStep,
         UnlockOwnStep, UnlockWakeStep, ReapTestStep, ReapNextStep, ReapFreeStep, Yield, Sti, Cli, SetPc, Q, MutexOf;
  }

  predicate PlainStep(pc: Pc) {
    pc.Start? || pc.Yielded? || pc.Slept? || pc.Waited? || pc.ReapCli? || pc.ReapYielded? || pc.Preempted? || pc.UnlockLeave?
  }

  /** Where a thread goes on to from such a point. */
  function PlainNext(s: State): Pc
    requires s.current in s.threads
  {
    match s.threads[s.current].pc
    case Start => if s.current == s.reaper then ReapCli else Running
    case ReapCli => ReapTest
    case ReapYielded => ReapNext
    case Preempted(at) => at
    case _ => Running
  }

  /** Points a dispatch comes back to. */
  predicate BackStep(pc: Pc) { pc.Start? || pc.Yielded? || pc.Slept? || pc.Waited? || pc.ReapYielded? }

  lemma BackNextIs(s: State)
    requires s.current in s.threads && Enabled(s, Step) && BackStep(s.threads[s.current].pc) && FlagsOk(s)
    ensures Continue(s) == SetPc(s.(intr := IntrOn(PlainNext(s)), preemptOff := false), s.current, PlainNext(s))
  {}

  lemma PlainNextIs(s: State)
    requires s.current in s.threads && Enabled(s, Step) && PlainStep(s.threads[s.current].pc) && FlagsOk(s)
    requires RoleOk(s, s.current)
    ensures Continue(s) == SetPc(s.(intr := IntrOn(PlainNext(s)), preemptOff := false), s.current, PlainNext(s))
  {
    if BackStep(s.threads[s.current].pc) {
      hide *;
      BackNextIs(s);
    }
  }

  lemma PlainNextOk(s: State)
    requires s.current in s.threads && PlainStep(s.threads[s.current].pc) && s.idle != s.reaper
    requires RoleOk(s, s.current)
    ensures var pc := PlainNext(s);
            && Plain(s.threads[s.current].pc) && Plain(pc) && pc != Dead && !pc.JoinTest? && !PreOff(pc)
            && (ReaperAt(s, s.threads[s.current].pc) ==> ReaperAt(s, pc))
    ensures RoleOk(SetPc(s, s.current, PlainNext(s)), s.current)
  {
    hide Q;
  }

  lemma StepPlainIs(s: State, n: State)
    requires s.current in s.threads && RoleOk(s, s.current) && RefsKept(s.threads[s.current], s.threads[s.current])
    requires n == SetPc(s.(intr := IntrOn(PlainNext(s)), preemptOff := false), s.current, PlainNext(s))
    requires Plain(s.threads[s.current].pc)
    requires var pc := PlainNext(s);
            && Plain(pc) && pc != Dead && !pc.JoinTest? && !PreOff(pc)
            && RoleOk(SetPc(s, s.current, pc), s.current)
            && (ReaperAt(s, s.threads[s.current].pc) ==> ReaperAt(s, pc))
    ensures Local(s, n) && n.mutexes == s.mutexes && n.ticks == s.ticks
            && n.threads[s.current].numTicks == s.threads[s.current].numTicks
            && Neutral(s.threads[s.current], n.threads[s.current])
            && RoleOk(n, s.current) && RefsKept(s.threads[s.current], n.threads[s.current])
            && n.threads[s.current].alive && FlagsOk(n)
            && (ReaperAt(s, s.threads[s.current].pc) ==> ReaperAt(n, n.threads[s.current].pc))
  {
    hide PlainNext, Plain, IdlePc, ReapOnly, Interruptible, IntrOn, PreOff;
  }

  /** Coming back from a dispatch, or passing between the steps of a call that leave all else alone. */
  lemma StepPlainKeeps(s: State)
    requires Inv(s) && Enabled(s, Step) && PlainStep(s.threads[s.current].pc)
    ensures Inv(Continue(s))
  {
    InvParts(s);
    OwnRefs(s);
    hide *;
    if s.current == s.reaper { ReaperChain(s); }
    PlainNextIs(s);
    PlainNextOk(s);
    StepPlainIs(s, Continue(s));
    GoOn(s, Continue(s));
  }

  function Counted(s: State): State
    requires s.current in s.threads
  {
    var th := s.threads[s.current];
    SetThread(s, s.current, th.(numTicks := th.numTicks + 1)).(ticks := Low32(s.ticks + 1))
  }

  lemma CountedIs(s: State)
    requires s.current in s.threads && RoleOk(s, s.current) && RefsKept(s.threads[s.current], s.threads[s.current]) && FlagsOk(s)
    ensures var n := Counted(s);
            && Local(s, n) && n.mutexes == s.mutexes && n.ticks == Low32(s.ticks + 1) && n.ticks <= s.ticks + 1
            && n.threads[s.current].numTicks == s.threads[s.current].numTicks + 1
            && Neutral(s.threads[s.current], n.threads[s.current])
            && RoleOk(n, s.current) && RefsKept(s.threads[s.current], n.threads[s.current])
            && n.threads[s.current].alive && FlagsOk(n)
            && (ReaperAt(s, s.threads[s.current].pc) ==> ReaperAt(n, n.threads[s.current].pc))
  {}

  lemma CountedKeeps(s: State)
    requires Inv(s)
    ensures Inv(Counted(s))
  {
    InvParts(s);
    OwnRefs(s);
    if s.current == s.reaper { ReaperChain(s); }
    hide *;
    CountedIs(s);
    GoOn(s, Counted(s));
  }

  // ---------------------------------------------------------------- calls that give up the processor

  /** What a call must see to before it blocks in queue `id`, to go on at `pc`. */
  ghost predicate Blocks(s: State, b: State, id: QueueId, pc: Pc) {
    && s.current in s.threads && b.current == s.current && b.current in b.threads
    && var n := SetPc(b, b.current, pc);
       && Local(s, n) && n.mutexes == s.mutexes && Neutral(s.threads[s.current], n.threads[s.current])
       && RoleOk(n, s.current) && RefsKept(s.threads[s.current], n.threads[s.current]) && n.threads[s.current].alive
       && (ReaperAt(s, s.threads[s.current].pc) ==> ReaperAt(n, pc))
       && MayEnter(n, id, s.current) && !b.intr && !b.preemptOff
  }

  lemma BlocksMeans(s: State, b: State, id: QueueId, pc: Pc)
    requires Blocks(s, b, id, pc)
    ensures s.current in s.threads && b.current == s.current && b.current in b.threads
    ensures var n := SetPc(b, b.current, pc);
      && Local(s, n) && n.mutexes == s.mutexes && Neutral(s.threads[s.current], n.threads[s.current])
      && RoleOk(n, s.current) && RefsKept(s.threads[s.current], n.threads[s.current]) && n.threads[s.current].alive
      && (ReaperAt(s, s.threads[s.current].pc) ==> ReaperAt(n, n.threads[s.current].pc)) && n.current == s.current
      && MayEnter(n, id, s.current) && !b.intr && !b.preemptOff
  {}

  lemma BlockReady(s: State, b: State, id: QueueId, pc: Pc)
    requires Inv(s) && Blocks(s, b, id, pc)
    ensures b.current in b.threads && Core(SetPc(b, b.current, pc), b.current)
    ensures MayEnter(SetPc(b, b.current, pc), id, b.current) && !b.intr && !b.preemptOff
  {
    InvParts(s);
    hide *;
    BlocksMeans(s, b, id, pc);
    if s.current == s.reaper { ReaperChain(s); }
    NeutralKeeps(s, SetPc(b, b.current, pc));
  }

  lemma BlockFrom(s: State, b: State, id: QueueId, pc: Pc)
    requires Inv(s) && Blocks(s, b, id, pc)
    ensures Inv(Block(b, id, pc)) && b.current in b.threads && Leaving(Entered(b, id, pc))
  {
    hide *;
    BlocksMeans(s, b, id, pc);
    BlockReady(s, b, id, pc);
    BlockLeaves(b, id, pc);
    BlockKeeps(b, id, pc);
  }

  lemma PreemptIs(s: State)
    requires s.current in s.threads && !s.halted && FlagsOk(s) && s.intr && !s.preemptOff
    requires RoleOk(s, s.current) && RefsKept(s.threads[s.current], s.threads[s.current])
    ensures Blocks(s, s.(intr := false), RunQueue, Preempted(s.threads[s.current].pc))
  {
    hide Block;
  }

  /** Preemption by the interrupt stub. */
  lemma PreemptKeeps(s: State)
    requires Inv(s) && s.intr && !s.preemptOff
    ensures Inv(Block(s.(intr := false), RunQueue, Preempted(s.threads[s.current].pc)))
  {
    InvParts(s);
    OwnRefs(s);
    hide *;
    PreemptIs(s);
    BlockFrom(s, s.(intr := false), RunQueue, Preempted(s.threads[s.current].pc));
  }

  lemma YieldIs(s: State)
    requires s.current in s.threads && !s.halted && FlagsOk(s) && s.threads[s.current].pc == Running
    requires RoleOk(s, s.current) && RefsKept(s.threads[s.current], s.threads[s.current])
    ensures Blocks(s, Cli(s), RunQueue, Yielded) && Yield(s, Yielded) == Block(Cli(s), RunQueue, Yielded)
  {
    hide Block;
  }

  lemma YieldKeeps(s: State)
    requires Inv(s) && s.threads[s.current].pc == Running
    ensures Inv(Yield(s, Yielded))
  {
    InvParts(s);
    OwnRefs(s);
    hide *;
    YieldIs(s);
    BlockFrom(s, Cli(s), RunQueue, Yielded);
  }

  lemma ReapYieldIs(s: State)
    requires s.current in s.threads && !s.halted && FlagsOk(s) && s.threads[s.current].pc == ReapYield
    requires RoleOk(s, s.current) && RefsKept(s.threads[s.current], s.threads[s.current])
    ensures Blocks(s, Cli(s), RunQueue, ReapYielded) && Yield(s, ReapYielded) == Block(Cli(s), RunQueue, ReapYielded)
  {
    hide Block;
  }

  /** The reaper lets others run before it destroys what it detached. */
  lemma ReapYieldKeeps(s: State)
    requires Inv(s) && s.threads[s.current].pc == ReapYield
    ensures Inv(Yield(s, ReapYielded))
  {
    InvParts(s);
    OwnRefs(s);
    hide *;
    ReapYieldIs(s);
    BlockFrom(s, Cli(s), RunQueue, ReapYielded);
  }

  /** The caller's state once it has noted when to wake. */
  function Drowsy(s: State, ms: nat): State
    requires s.current in s.threads
  {
    SetThread(Cli(s), s.current, s.threads[s.current].(sleepUntil := Low32(s.ticks + SleepTicks(ms))))
  }

  lemma SleepIs(s: State, ms: nat)
    requires s.current in s.threads && !s.halted && FlagsOk(s) && Enabled(s, DoSleep(ms))
    requires RoleOk(s, s.current) && RefsKept(s.threads[s.current], s.threads[s.current])
    ensures Blocks(s, Drowsy(s, ms), SleepQueue, Slept) && Sleep(s, ms) == Block(Drowsy(s, ms), SleepQueue, Slept)
  {
    hide Block;
  }

  lemma SleepKeeps(s: State, ms: nat)
    requires Inv(s) && Enabled(s, DoSleep(ms))
    ensures Inv(Sleep(s, ms))
  {
    InvParts(s);
    OwnRefs(s);
    hide *;
    SleepIs(s, ms);
    BlockFrom(s, Drowsy(s, ms), SleepQueue, Slept);
  }

  lemma WaitIs(s: State, c: nat)
    requires s.current in s.threads && !s.halted && FlagsOk(s) && Enabled(s, DoWait(c))
    requires RoleOk(s, s.current) && RefsKept(s.threads[s.current], s.threads[s.current])
    ensures Blocks(s, Cli(s), WaitQueue(c), Waited(c)) && Wait(s, c) == Block(Cli(s), WaitQueue(c), Waited(c))
  {
    hide Block;
  }

  lemma WaitKeeps(s: State, c: nat)
    requires Inv(s) && Enabled(s, DoWait(c))
    ensures Inv(Wait(s, c))
  {
    InvParts(s);
    OwnRefs(s);
    hide *;
    WaitIs(s, c);
    BlockFrom(s, Cli(s), WaitQueue(c), Waited(c));
  }

  lemma JoinWaitIs(s: State, t: Tid)
    requires s.current in s.threads && !s.halted && FlagsOk(s) && s.threads[s.current].pc == JoinTest(t) && t in s.threads && s.threads[t].alive && t != s.current
    requires RoleOk(s, s.current) && RefsKept(s.threads[s.current], s.threads[s.current])
    ensures Blocks(s, s, JoinQueue(t), JoinTest(t)) && JoinStep(s, t) == Block(s, JoinQueue(t), JoinTest(t))
  {
    hide Block;
  }

  /** `join` finds the thread alive and waits, again. */
  lemma JoinWaitKeeps(s: State, t: Tid)
    requires Inv(s) && s.threads[s.current].pc == JoinTest(t) && t in s.threads && s.threads[t].alive
    ensures Inv(JoinStep(s, t))
  {
    InvParts(s);
    OwnRefs(s);
    assert t in RefsOf(s.threads[s.current]);
    assert RefOk(s, s.current, t);
    hide *;
    JoinWaitIs(s, t);
    BlockFrom(s, s, JoinQueue(t), JoinTest(t));
  }

  lemma ReapWaitIs(s: State)
    requires s.current in s.threads && !s.halted && FlagsOk(s) && s.threads[s.current].pc == ReapTest && Q(s, Graveyard) == []
    requires RoleOk(s, s.current) && RefsKept(s.threads[s.current], s.threads[s.current])
    ensures Blocks(s, s, ReaperWait, ReapTest) && ReapTestStep(s) == Block(s, ReaperWait, ReapTest)
  {
    hide Block;
  }

  /** The reaper finds the graveyard empty and waits. */
  lemma ReapWaitKeeps(s: State)
    requires Inv(s) && s.threads[s.current].pc == ReapTest && Q(s, Graveyard) == []
    ensures Inv(ReapTestStep(s))
  {
    InvParts(s);
    OwnRefs(s);
    hide *;
    ReapWaitIs(s);
    BlockFrom(s, s, ReaperWait, ReapTest);
  }

  lemma TickIs(s: State)
    requires s.current in s.threads
    ensures var n := Counted(s);
            s.current in n.threads && n.current == s.current && n.intr == s.intr && n.preemptOff == s.preemptOff
    ensures var n := Counted(s);
            TimerIrq(s) == if s.threads[s.current].numTicks + 1 > THREAD_QUANTUM && !s.preemptOff
                           then Block(n.(intr := false), RunQueue, Preempted(n.threads[s.current].pc)) else n
  {
    hide Block, Low32;
    assert Counted(s).threads[s.current].pc == s.threads[s.current].pc;
  }

  lemma TickKeeps(s: State)
    requires Inv(s) && Enabled(s, Tick)
    ensures Inv(TimerIrq(s))
  {
    InvParts(s);
    assert s.intr;
    hide *;
    TickIs(s);
    CountedKeeps(s);
    if TimerIrq(s) != Counted(s) {
      PreemptKeeps(Counted(s));
    }
  }
}

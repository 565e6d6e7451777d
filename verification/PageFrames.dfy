/** The physical page allocator on values: page records, a free list threaded through them, and
    the exact circumstances in which the list is a first-in first-out queue of the available pages. */
module PageFrames {
  import opened Basics

  const NONE: int := -1
  const PAGE_SIZE: nat := 4096
  const KERNEL_VBASE: nat := 0xC000_0000

  datatype Flag = Avail | Kern | Hdware | Alloc | Unused | Heap

  /** A page record; `next` is the index of another record, or none. */
  datatype Page = Page(flags: Flag, next: int)

  /** The page array with the ends and the length of the free list. */
  datatype Frames = Frames(pages: seq<Page>, head: int, tail: int, count: nat)

  // ---------------------------------------------------------------- addresses

  predicate Aligned(addr: nat) { addr == AlignDown(addr) }

  function AlignDown(addr: nat): nat { addr - addr % 4096 }

  function AlignUp(addr: nat): nat {
    if addr % 4096 != 0 then (AlignDown(addr) + PAGE_SIZE) % 0x1_0000_0000 else addr
  }

  /** 32-bit subtraction, then the shift by twelve. */
  function IndexOf(addr: nat): nat { ((addr + TWO32 - KERNEL_VBASE) % 0x1_0000_0000) / 4096 }

  function AddressOf(index: nat): nat { (index * 4096 + KERNEL_VBASE) % 0x1_0000_0000 }

  /** Rounding finds the nearest page boundary; up from within the last page it wraps to zero. */
  lemma AlignNearest(addr: nat)
    requires addr < TWO32
    ensures Aligned(AlignDown(addr)) && Aligned(AlignUp(addr)) && AlignDown(addr) <= addr < AlignDown(addr) + 4096
    ensures AlignDown(addr) % 4096 == 0 && AlignUp(addr) % 4096 == 0 && (Aligned(addr) <==> addr % 4096 == 0)
    ensures if addr <= TWO32 - PAGE_SIZE
            then addr <= AlignUp(addr) && AlignUp(addr) - AlignDown(addr) == (if Aligned(addr) then 0 else PAGE_SIZE)
            else AlignUp(addr) == 0
  {}

  /** Pages below one gigabyte and the aligned kernel addresses correspond one to one. */
  lemma AddressRoundTrip(index: nat, addr: nat)
    requires index < 0x40000 && KERNEL_VBASE <= addr < TWO32
    ensures AddressOf(index) == 0xC000_0000 + index * 4096 && Aligned(AddressOf(index)) && IndexOf(AddressOf(index)) == index
    ensures AddressOf(IndexOf(addr)) == AlignDown(addr)
  {
    assert (addr + TWO32 - KERNEL_VBASE) % 0x1_0000_0000 == addr - KERNEL_VBASE;
    assert addr - KERNEL_VBASE == 4096 * ((addr - KERNEL_VBASE) / 4096) + (addr - KERNEL_VBASE) % 4096;
    assert addr % 4096 == (addr - KERNEL_VBASE) % 4096;
  }

  // ---------------------------------------------------------------- operations

  predicate InRange(m: Frames, p: int) { 0 <= p < |m.pages| }

  function SetFlags(m: Frames, p: int, f: Flag): Frames
    requires InRange(m, p)
  {
    m.(pages := m.pages[p := m.pages[p].(flags := f)])
  }

  function SetNext(m: Frames, p: int, n: int): Frames
    requires InRange(m, p)
  {
    m.(pages := m.pages[p := m.pages[p].(next := n)])
  }

  /** `getFreelistPage`: the head is marked allocated; the new head is its link, even when it was the last. */
  function Take(m: Frames): Frames
    requires m.count > 0 && InRange(m, m.head)
  {
    var n := SetFlags(m, m.head, Alloc);
    var o := if m.head == m.tail then n.(head := NONE, tail := NONE) else n;
    o.(head := m.pages[m.head].next, count := m.count - 1)
  }

  /** `freelistPageAdd`: the page goes to the tail; its own link is left as it was. */
  function Put(m: Frames, p: int): Frames
    requires InRange(m, p) && (m.tail == NONE || InRange(m, m.tail))
  {
    var n := SetFlags(m, p, Avail);
    var h := if m.head == NONE then n.(head := p) else n;
    var t := if m.tail != NONE then SetNext(h, m.tail, p) else h;
    t.(tail := p, count := m.count + 1)
  }

  // ---------------------------------------------------------------- the free list

  predicate Link(m: Frames, q: seq<int>, i: int)
    requires 0 <= i < |q|
  {
    && InRange(m, q[i]) && m.pages[q[i]].flags == Avail
    && (i + 1 < |q| ==> m.pages[q[i]].next == q[i + 1])
  }

  /** Available pages are in the list. */
  predicate Holds(m: Frames, q: seq<int>, p: int)
    requires InRange(m, p)
  {
    m.pages[p].flags == Avail ==> p in q
  }

  /** The free list is `q`: chained from head to tail, and exactly the available pages, each once. */
  ghost predicate FreeList(m: Frames, q: seq<int>) {
    && m.count == |q| && NoDup(q)
    && (forall i {:trigger Link(m, q, i)} :: 0 <= i < |q| ==> Link(m, q, i))
    && (forall p {:trigger Holds(m, q, p)} :: InRange(m, p) ==> Holds(m, q, p))
    && (if q == [] then m.head == NONE && m.tail == NONE
        else m.head == q[0] && m.tail == q[|q| - 1] && InRange(m, m.head) && InRange(m, m.tail))
  }

  /** Taking a page hands out the oldest of the list, unless a last page has a stale link. */
  lemma TakeFifo(m: Frames, q: seq<int>)
    requires FreeList(m, q) && q != []
    requires |q| > 1 || m.pages[m.head].next == NONE
    ensures m.head == q[0] && m.pages[q[0]].flags == Avail
    ensures FreeList(Take(m), q[1..]) && Take(m).pages[q[0]].flags == Alloc
  {
    assert Link(m, q, 0);
    var n := Take(m);
    assert q == [q[0]] + q[1..];
    if |q| > 1 { assert Link(m, q, 1) && Link(m, q, |q| - 1); }
    forall i | 0 <= i < |q[1..]| ensures Link(n, q[1..], i) {
      assert Link(m, q, i + 1);
    }
    forall p | InRange(n, p) ensures Holds(n, q[1..], p) {
      assert Holds(m, q, p);
    }
  }

  /** Putting a page back makes it the newest of the list. */
  lemma PutFifo(m: Frames, q: seq<int>, p: int)
    requires FreeList(m, q) && InRange(m, p) && m.pages[p].flags != Avail
    ensures m.tail == NONE || InRange(m, m.tail)
    ensures FreeList(Put(m, p), q + [p])
  {
    forall i | 0 <= i < |q| ensures q[i] != p { assert Link(m, q, i); }
    var n := Put(m, p);
    forall i | 0 <= i < |q + [p]| ensures Link(n, q + [p], i) {
      if i < |q| { assert Link(m, q, i); }
    }
    forall u | InRange(n, u) ensures Holds(n, q + [p], u) {
      assert Holds(m, q, u);
    }
  }

  /** Taking the page keeps the list sound exactly when it is not the last, or has no link. */
  lemma TakeExact(m: Frames, q: seq<int>)
    requires FreeList(m, q) && q != []
    ensures (exists r :: FreeList(Take(m), r)) <==> |q| > 1 || m.pages[m.head].next == NONE
  {
    if |q| > 1 || m.pages[m.head].next == NONE {
      TakeFifo(m, q);
    } else {
      forall r ensures !FreeList(Take(m), r) {}
    }
  }

  /** What goes wrong otherwise: after the last page `x` went out with a stale link, the next page
      put back is not the one handed out after it; that is the stale link, and it is an available
      page only if it happens to be the very page put back. */
  lemma StaleHead(m: Frames, x: int, p: int)
    requires FreeList(m, [x]) && InRange(m, x) && InRange(m, m.pages[x].next)
    requires InRange(m, p) && (p == x || m.pages[p].flags == Alloc)
    ensures Take(m).tail == NONE
    ensures var n := Put(Take(m), p); var out := m.pages[x].next;
            && n.count == 1 && n.head == out && InRange(n, out)
            && (n.pages[out].flags == Avail <==> out == p)
  {
    assert Link(m, [x], 0);
    var n := Put(Take(m), p);
    var out := m.pages[x].next;
    if out != p {
      assert Holds(m, [x], out);
    }
  }

  // ---------------------------------------------------------------- runs

  datatype Op = Get | Free(page: int)

  /** The state after `allocPage` or `freePage`: no page goes out of an empty list. */
  function Apply(m: Frames, op: Op): Frames
    requires Ready(m, op)
  {
    match op
    case Get => if m.count > 0 then Take(m) else m
    case Free(p) => Put(m, p)
  }

  /** The assertions of the code: a head to take, and only allocated pages to free. */
  predicate Ready(m: Frames, op: Op) {
    match op
    case Get => m.count > 0 ==> InRange(m, m.head)
    case Free(p) => InRange(m, p) && m.pages[p].flags == Alloc && (m.tail == NONE || InRange(m, m.tail))
  }

  /** The same on a plain queue. */
  function Fifo(q: seq<int>, op: Op): seq<int> {
    match op
    case Get => if q == [] then q else q[1..]
    case Free(p) => q + [p]
  }

  /** What callers are taken to do: free pages they hold. */
  predicate Client(m: Frames, op: Op) {
    op.Free? ==> InRange(m, op.page) && m.pages[op.page].flags == Alloc
  }

  /** A run in which callers behave and no operation empties the list. */
  ghost predicate Ample(m: Frames, q: seq<int>, ops: seq<Op>)
    decreases |ops|
  {
    ops != [] ==>
      && Client(m, ops[0]) && (ops[0] == Get ==> |q| > 1)
      && (Ready(m, ops[0]) ==> Ample(Apply(m, ops[0]), Fifo(q, ops[0]), ops[1..]))
  }

  ghost predicate Runs(m: Frames, ops: seq<Op>)
    decreases |ops|
  {
    ops != [] ==> Ready(m, ops[0]) && Runs(Apply(m, ops[0]), ops[1..])
  }

  ghost function After(m: Frames, ops: seq<Op>): Frames
    requires Runs(m, ops)
    decreases |ops|
  {
    if ops == [] then m else After(Apply(m, ops[0]), ops[1..])
  }

  function Fifos(q: seq<int>, ops: seq<Op>): seq<int>
    decreases |ops|
  {
    if ops == [] then q else Fifos(Fifo(q, ops[0]), ops[1..])
  }

  /** All along the run no assertion fails and the free list is the plain queue. */
  ghost predicate Sound(m: Frames, q: seq<int>, ops: seq<Op>)
    decreases |ops|
  {
    FreeList(m, q) && (ops != [] ==> Ready(m, ops[0]) && Sound(Apply(m, ops[0]), Fifo(q, ops[0]), ops[1..]))
  }

  /** Not the last page of the list, or a last page without a link. */
  predicate Safe(m: Frames, q: seq<int>, op: Op) {
    op == Get && |q| == 1 ==> InRange(m, m.head) && m.pages[m.head].next == NONE
  }

  /** A run in which callers behave and no last page with a link goes out. */
  ghost predicate Careful(m: Frames, q: seq<int>, ops: seq<Op>)
    decreases |ops|
  {
    ops != [] ==>
      && Client(m, ops[0]) && Safe(m, q, ops[0])
      && (Ready(m, ops[0]) ==> Careful(Apply(m, ops[0]), Fifo(q, ops[0]), ops[1..]))
  }

  /** One operation keeps the queue exactly when the caller behaves and no last page with a link goes out. */
  lemma StepExact(m: Frames, q: seq<int>, op: Op)
    requires FreeList(m, q)
    ensures Ready(m, op) && FreeList(Apply(m, op), Fifo(q, op)) <==> Client(m, op) && Safe(m, q, op)
  {
    match op
    case Get =>
      if q != [] {
        TakeExact(m, q);
        if Safe(m, q, op) { TakeFifo(m, q); }
      }
    case Free(p) =>
      if Client(m, op) { PutFifo(m, q, p); }
  }

  /** The allocator is a first-in first-out queue of exactly the available pages, all along a run,
      if and only if the run is careful. */
  lemma {:induction false} CarefulExact(m: Frames, q: seq<int>, ops: seq<Op>)
    requires FreeList(m, q)
    ensures Sound(m, q, ops) <==> Careful(m, q, ops)
    decreases |ops|
  {
    hide FreeList, Apply, Ready, Client, Safe;
    if ops != [] {
      StepExact(m, q, ops[0]);
      if Client(m, ops[0]) && Safe(m, q, ops[0]) {
        CarefulExact(Apply(m, ops[0]), Fifo(q, ops[0]), ops[1..]);
      } else if Sound(m, q, ops) {
        SoundNow(Apply(m, ops[0]), Fifo(q, ops[0]), ops[1..]);
      }
    }
  }

  lemma SoundNow(m: Frames, q: seq<int>, ops: seq<Op>)
    requires Sound(m, q, ops)
    ensures FreeList(m, q)
  {}

  /** What a sound run comes to. */
  lemma {:induction false} SoundRuns(m: Frames, q: seq<int>, ops: seq<Op>)
    requires Sound(m, q, ops)
    ensures Runs(m, ops) && FreeList(After(m, ops), Fifos(q, ops))
    decreases |ops|
  {
    hide FreeList, Apply, Ready;
    if ops != [] {
      SoundRuns(Apply(m, ops[0]), Fifo(q, ops[0]), ops[1..]);
    } else {
      SoundNow(m, q, ops);
    }
  }

  /** A run that never empties the list is careful. */
  lemma {:induction false} AmpleCareful(m: Frames, q: seq<int>, ops: seq<Op>)
    requires Ample(m, q, ops)
    ensures Careful(m, q, ops)
    decreases |ops|
  {
    hide Apply, Ready, Client;
    if ops != [] && Ready(m, ops[0]) {
      AmpleCareful(Apply(m, ops[0]), Fifo(q, ops[0]), ops[1..]);
    }
  }

  /** Every run that never empties the list refines a first-in first-out queue: no assertion fails,
      the list is at all times exactly the available pages, and so no allocated page goes out again. */
  lemma AmpleFifo(m: Frames, q: seq<int>, ops: seq<Op>)
    requires FreeList(m, q) && Ample(m, q, ops)
    ensures Sound(m, q, ops) && Runs(m, ops) && FreeList(After(m, ops), Fifos(q, ops))
  {
    AmpleCareful(m, q, ops);
    CarefulExact(m, q, ops);
    SoundRuns(m, q, ops);
  }

  /** `createThread` with a single page left takes it, finds no second one and puts it back. The
      list survives exactly if that page had no link. */
  lemma RollbackExact(m: Frames, x: int)
    requires FreeList(m, [x])
    ensures InRange(m, x) && (Sound(m, [x], [Get, Get, Free(x)]) <==> m.pages[x].next == NONE)
  {
    assert Link(m, [x], 0);
    var ops := [Get, Get, Free(x)];
    assert ops[1..] == [Get, Free(x)] && ops[1..][1..] == [Free(x)] && ops[1..][1..][1..] == [];
    CarefulExact(m, [x], ops);
    if m.pages[x].next == NONE {
      TakeFifo(m, [x]);
      var n := Take(m);
      assert Apply(m, Get) == n && Fifo([x], Get) == [] && Fifo([], Get) == [] && Apply(n, Get) == n;
      assert Careful(n, [], [Free(x)]);
      assert Careful(n, [], [Get, Free(x)]);
    }
  }

  // ---------------------------------------------------------------- the allocator as it is, run dry

  /** Three available pages, and what three takes, two frees and two takes make of them: page 1,
      which is still allocated, is at the head of the list. */
  lemma RunDry()
    ensures var m := Frames([Page(Avail, 1), Page(Avail, 2), Page(Avail, NONE)], 0, 2, 3);
            var ops := [Get, Get, Free(0), Get, Get, Free(2)];
            && FreeList(m, [0, 1, 2]) && Runs(m, ops)
            && var n := After(m, ops);
            && n.count == 1 && n.head == 1 && n.pages[1].flags == Alloc
  {
    ThreePages();
    hide FreeList;
    var m := Frames([Page(Avail, 1), Page(Avail, 2), Page(Avail, NONE)], 0, 2, 3);
    var m1 := Apply(m, Get);
    assert m1 == Frames([Page(Alloc, 1), Page(Avail, 2), Page(Avail, NONE)], 1, 2, 2);
    var m2 := Apply(m1, Get);
    assert m2 == Frames([Page(Alloc, 1), Page(Alloc, 2), Page(Avail, NONE)], 2, 2, 1);
    var m3 := Apply(m2, Free(0));
    assert m3 == Frames([Page(Avail, 1), Page(Alloc, 2), Page(Avail, 0)], 2, 0, 2);
    var m4 := Apply(m3, Get);
    assert m4 == Frames([Page(Avail, 1), Page(Alloc, 2), Page(Alloc, 0)], 0, 0, 1);
    var m5 := Apply(m4, Get);
    assert m5 == Frames([Page(Alloc, 1), Page(Alloc, 2), Page(Alloc, 0)], 1, NONE, 0);
    var m6 := Apply(m5, Free(2));
    assert m6 == Frames([Page(Alloc, 1), Page(Alloc, 2), Page(Avail, 0)], 1, 2, 1);
    AfterSix(m, Get, Get, Free(0), Get, Get, Free(2));
  }

  lemma ThreePages()
    ensures FreeList(Frames([Page(Avail, 1), Page(Avail, 2), Page(Avail, NONE)], 0, 2, 3), [0, 1, 2])
  {
    var m := Frames([Page(Avail, 1), Page(Avail, 2), Page(Avail, NONE)], 0, 2, 3);
    var q := [0, 1, 2];
    assert Link(m, q, 0) && Link(m, q, 1) && Link(m, q, 2);
  }

  lemma AfterSix(m: Frames, a: Op, b: Op, c: Op, d: Op, e: Op, f: Op)
    requires Ready(m, a) && Ready(Apply(m, a), b) && Ready(Apply(Apply(m, a), b), c)
    requires Ready(Apply(Apply(Apply(m, a), b), c), d) && Ready(Apply(Apply(Apply(Apply(m, a), b), c), d), e)
    requires Ready(Apply(Apply(Apply(Apply(Apply(m, a), b), c), d), e), f)
    ensures var ops := [a, b, c, d, e, f];
            Runs(m, ops) && After(m, ops) == Apply(Apply(Apply(Apply(Apply(Apply(m, a), b), c), d), e), f)
  {
    var m1 := Apply(m, a);
    var m2 := Apply(m1, b);
    var m3 := Apply(m2, c);
    var m4 := Apply(m3, d);
    var m5 := Apply(m4, e);
    var m6 := Apply(m5, f);
    hide Apply, Ready;
    assert [f][1..] == [] && [e, f][1..] == [f] && [d, e, f][1..] == [e, f] && [c, d, e, f][1..] == [d, e, f];
    assert [b, c, d, e, f][1..] == [c, d, e, f] && [a, b, c, d, e, f][1..] == [b, c, d, e, f];
    assert Runs(m6, []) && After(m6, []) == m6;
    assert Runs(m5, [f]) && After(m5, [f]) == m6;
    assert Runs(m4, [e, f]) && After(m4, [e, f]) == m6;
    assert Runs(m3, [d, e, f]) && After(m3, [d, e, f]) == m6;
    assert Runs(m2, [c, d, e, f]) && After(m2, [c, d, e, f]) == m6;
    assert Runs(m1, [b, c, d, e, f]) && After(m1, [b, c, d, e, f]) == m6;
  }

  // ---------------------------------------------------------------- a repaired variant

  /** `freelistPageAdd` with the page's link cleared first. */
  function PutClear(m: Frames, p: int): Frames
    requires InRange(m, p) && (m.tail == NONE || InRange(m, m.tail))
  {
    Put(SetNext(m, p, NONE), p)
  }

  function ApplyClear(m: Frames, op: Op): Frames
    requires Ready(m, op)
  {
    match op
    case Get => if m.count > 0 then Take(m) else m
    case Free(p) => PutClear(m, p)
  }

  /** A list whose last page has no link. */
  ghost predicate Ended(m: Frames, q: seq<int>) {
    FreeList(m, q) && (q != [] ==> InRange(m, q[|q| - 1]) && m.pages[q[|q| - 1]].next == NONE)
  }

  lemma SetNextFree(m: Frames, q: seq<int>, p: int)
    requires FreeList(m, q) && InRange(m, p) && m.pages[p].flags != Avail
    ensures FreeList(SetNext(m, p, NONE), q)
  {
    var n := SetNext(m, p, NONE);
    forall i | 0 <= i < |q| ensures Link(n, q, i) { assert Link(m, q, i); }
    forall u | InRange(n, u) ensures Holds(n, q, u) { assert Holds(m, q, u); }
  }

  lemma StepClear(m: Frames, q: seq<int>, op: Op)
    requires Ended(m, q) && Client(m, op)
    ensures Ready(m, op) && Ended(ApplyClear(m, op), Fifo(q, op))
  {
    match op
    case Get =>
      if q != [] {
        TakeFifo(m, q);
        if |q| > 1 { assert Link(m, q, |q| - 1) && q[0] != q[|q| - 1]; }
      }
    case Free(p) =>
      SetNextFree(m, q, p);
      PutFifo(SetNext(m, p, NONE), q, p);
      if q != [] { assert Link(m, q, |q| - 1); }
  }

  /** Callers free pages they hold. */
  ghost predicate Clients(m: Frames, ops: seq<Op>)
    decreases |ops|
  {
    ops != [] ==> Client(m, ops[0]) && (Ready(m, ops[0]) ==> Clients(ApplyClear(m, ops[0]), ops[1..]))
  }

  ghost predicate RunsClear(m: Frames, ops: seq<Op>)
    decreases |ops|
  {
    ops != [] ==> Ready(m, ops[0]) && RunsClear(ApplyClear(m, ops[0]), ops[1..])
  }

  ghost function AfterClear(m: Frames, ops: seq<Op>): Frames
    requires RunsClear(m, ops)
    decreases |ops|
  {
    if ops == [] then m else AfterClear(ApplyClear(m, ops[0]), ops[1..])
  }

  /** Cutting off the last page's link is no harm to the list. */
  lemma EndList(m: Frames, q: seq<int>)
    requires FreeList(m, q) && q != []
    ensures InRange(m, q[|q| - 1]) && Ended(SetNext(m, q[|q| - 1], NONE), q)
  {
    assert Link(m, q, |q| - 1);
    var n := SetNext(m, q[|q| - 1], NONE);
    forall i | 0 <= i < |q| ensures Link(n, q, i) { assert Link(m, q, i); }
    forall u | InRange(n, u) ensures Holds(n, q, u) { assert Holds(m, q, u); }
  }

  /** With that one link cleared, every run of well-behaved callers refines the queue, run dry or not. */
  lemma {:induction false} ClearFifo(m: Frames, q: seq<int>, ops: seq<Op>)
    requires Ended(m, q) && Clients(m, ops)
    ensures RunsClear(m, ops) && Ended(AfterClear(m, ops), Fifos(q, ops))
    decreases |ops|
  {
    if ops != [] {
      StepClear(m, q, ops[0]);
      ClearFifo(ApplyClear(m, ops[0]), Fifo(q, ops[0]), ops[1..]);
    }
  }
}

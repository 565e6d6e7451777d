/** The page allocator in memory, its set-up from the kernel's memory layout, and the page tables
    built on it. */
module Pages {
  import opened Basics
  import opened PageFrames

  const HDWARE_RAM_START: nat := 0x9F000
  const KERNEL_HEAP_SIZE: nat := 0x20_0000
  const PAGE_RECORD: nat := 8

  // ---------------------------------------------------------------- marking a range

  /** What marking pages `i` up to `j` does. */
  function Marked(m: Frames, i: nat, j: nat, f: Flag): Frames
    requires i <= j <= |m.pages| && (m.tail == NONE || InRange(m, m.tail))
    decreases j - i
  {
    if i == j then m
    else
      var n := SetFlags(m, i, f);
      Marked(if f == Avail then Put(n, i) else SetNext(n, i, NONE), i + 1, j, f)
  }

  /** Marking one page less, and then that page. */
  lemma {:induction false} MarkedMore(m: Frames, i: nat, j: nat, f: Flag)
    requires i <= j < |m.pages| && (m.tail == NONE || InRange(m, m.tail))
    ensures var n := Marked(m, i, j, f);
            |n.pages| == |m.pages| && (n.tail == NONE || InRange(n, n.tail))
            && Marked(m, i, j + 1, f) == var s := SetFlags(n, j, f); if f == Avail then Put(s, j) else SetNext(s, j, NONE)
    decreases j - i
  {
    if i < j {
      var n := SetFlags(m, i, f);
      MarkedMore(if f == Avail then Put(n, i) else SetNext(n, i, NONE), i + 1, j, f);
    }
  }

  /** Page `k` after pages `i` up to `j` were marked: the records of a range of available pages are
      chained in order, all but the last; others lose their link. */
  predicate MarkedAt(m: Frames, n: Frames, i: nat, j: nat, f: Flag, k: nat)
    requires k < |m.pages| && k < |n.pages|
  {
    n.pages[k] ==
      if k < i || k >= j then m.pages[k]
      else if f != Avail then Page(f, NONE)
      else Page(Avail, if k + 1 < j then k + 1 else m.pages[k].next)
  }

  /** The whole effect of marking a range, on an empty free list if the pages are available. */
  lemma {:induction false} MarkedIs(m: Frames, i: nat, j: nat, f: Flag)
    requires i <= j <= |m.pages| && (m.tail == NONE || InRange(m, m.tail))
    requires f == Avail ==> m.head == NONE && m.tail == NONE && m.count == 0
    ensures var n := Marked(m, i, j, f);
            && |n.pages| == |m.pages|
            && (forall k {:trigger MarkedAt(m, n, i, j, f, k)} :: 0 <= k < |m.pages| ==> MarkedAt(m, n, i, j, f, k))
            && (if f == Avail && i < j then n.head == i && n.tail == j - 1 && n.count == j - i
                else n.head == m.head && n.tail == m.tail && n.count == m.count)
    decreases j - i
  {
    var n := Marked(m, i, j, f);
    if i < j {
      MarkedIs(m, i, j - 1, f);
      MarkedMore(m, i, j - 1, f);
      var b := Marked(m, i, j - 1, f);
      forall k | 0 <= k < |m.pages| ensures MarkedAt(m, n, i, j, f, k) {
        assert MarkedAt(m, b, i, j - 1, f, k);
      }
    }
  }

  // ---------------------------------------------------------------- the layout of memory

  /** What each page is for: `k0`, `k1` and `h` bound the kernel and its heap. */
  function Region(k0: nat, k1: nat, h: nat, p: nat): Flag {
    if p < 1 then Unused else if p < 0x9F then Kern else if p < k0 then Hdware
    else if p < k1 then Kern else if p < h then Heap else Avail
  }

  function RangeOf(i: nat, j: nat): (q: seq<int>)
    requires i <= j
    ensures |q| == j - i && forall k :: 0 <= k < j - i ==> q[k] == i + k
  {
    seq(j - i, k requires 0 <= k => i + k)
  }

  /** All pages are marked for their region, and the available ones are chained in order. */
  predicate LaidOut(m: Frames, k0: nat, k1: nat, h: nat, p: nat)
    requires p < |m.pages|
  {
    && m.pages[p].flags == Region(k0, k1, h, p)
    && (p < h ==> m.pages[p].next == NONE)
    && (h <= p < |m.pages| - 1 ==> m.pages[p].next == p + 1)
  }

  /** The free list of a memory laid out so is every page from the end of the heap, in order. */
  lemma LaidOutFree(m: Frames, k0: nat, k1: nat, h: nat)
    requires 0x9F <= k0 <= k1 <= h < |m.pages|
    requires LaidTo(m, k0, k1, h, |m.pages|)
    requires m.head == h && m.tail == |m.pages| - 1 && m.count == |m.pages| - h
    ensures FreeList(m, RangeOf(h, |m.pages|))
  {
    var q := RangeOf(h, |m.pages|);
    forall i | 0 <= i < |q| ensures Link(m, q, i) {
      assert LaidOut(m, k0, k1, h, q[i]);
    }
    forall p | InRange(m, p) ensures Holds(m, q, p) {
      assert LaidOut(m, k0, k1, h, p);
      if p >= h { assert q[p - h] == p; }
    }
  }

  /** Page addresses and indices go up in step. */
  lemma IndexSteps(a: nat, b: nat)
    requires Aligned(a) && Aligned(b) && KERNEL_VBASE <= a <= b < TWO32
    ensures IndexOf(a) <= IndexOf(b) && (a < b ==> IndexOf(a) < IndexOf(b))
    ensures a < b ==> a + PAGE_SIZE <= b && Aligned(a + PAGE_SIZE) && IndexOf(a + PAGE_SIZE) == IndexOf(a) + 1
    ensures a == b ==> IndexOf(a) == IndexOf(b)
  {
    assert (a + TWO32 - KERNEL_VBASE) % 0x1_0000_0000 == a - KERNEL_VBASE;
    assert (b + TWO32 - KERNEL_VBASE) % 0x1_0000_0000 == b - KERNEL_VBASE;
    if a < b {
      assert (a + PAGE_SIZE + TWO32 - KERNEL_VBASE) % 0x1_0000_0000 == a + PAGE_SIZE - KERNEL_VBASE;
    }
  }

  // ---------------------------------------------------------------- the limits of memory

  /** Whole pages in `memUpper` kilobytes, computed in 32 bits. */
  function NumPages(memUpper: nat): nat { (memUpper * 1024) % 0x1_0000_0000 / 4096 }

  /** The heap starts past the kernel image and the page array ... */
  function HeapStart(numPages: nat, end: nat): nat { AlignUp(Low32(end + numPages * 8)) }

  /** ... and the available memory past the heap, up to the end of memory, all in 32 bits. */
  function HeapEnd(numPages: nat, end: nat): nat { Low32(HeapStart(numPages, end) + KERNEL_HEAP_SIZE) }

  function MemoryEnd(numPages: nat): nat { Low32(numPages * 4096 + KERNEL_VBASE) }

  /** What the assertions of `markPageRange` demand of the boot parameters: no region is empty. */
  predicate RangesAsserted(numPages: nat, start: nat, end: nat) {
    && HDWARE_RAM_START + KERNEL_VBASE < AlignDown(start) < HeapStart(numPages, end)
    && HeapStart(numPages, end) < HeapEnd(numPages, end) < MemoryEnd(numPages)
  }

  /** Four kilobytes to a page, the rest left over; past four gigabytes the 32-bit product starts again. */
  lemma PagesCounted(memUpper: nat)
    ensures memUpper < 0x40_0000 ==> 4 * NumPages(memUpper) <= memUpper < 4 * NumPages(memUpper) + 4
    ensures NumPages(memUpper + 0x40_0000) == NumPages(memUpper)
  {
    if memUpper < 0x40_0000 { Quarter(memUpper); }
    assert (memUpper + 0x40_0000) * 1024 == memUpper * 1024 + 0x1_0000_0000;
    SameLow(memUpper * 1024);
  }

  lemma Quarter(k: nat)
    requires k < 0x40_0000
    ensures NumPages(k) == k / 4
  {}

  lemma SameLow(x: nat)
    ensures (x + 0x1_0000_0000) % 0x1_0000_0000 == x % 0x1_0000_0000
  {}

  lemma Multiples(n: nat)
    ensures Aligned(n * 4096 + KERNEL_VBASE)
  {}

  lemma IndexIs(n: nat)
    requires n * 4096 + KERNEL_VBASE < TWO32
    ensures IndexOf(n * 4096 + KERNEL_VBASE) == n
  {
    assert (n * 4096 + KERNEL_VBASE + TWO32 - KERNEL_VBASE) % 0x1_0000_0000 == n * 4096;
  }

  lemma HeapBounds(start: nat)
    requires Aligned(start) && KERNEL_VBASE <= start && start + KERNEL_HEAP_SIZE < TWO32
    ensures Aligned(start + KERNEL_HEAP_SIZE) && IndexOf(start + KERNEL_HEAP_SIZE) == IndexOf(start) + 512
  {
    assert (start + TWO32 - KERNEL_VBASE) % 0x1_0000_0000 == start - KERNEL_VBASE;
    assert (start + KERNEL_HEAP_SIZE + TWO32 - KERNEL_VBASE) % 0x1_0000_0000 == start + KERNEL_HEAP_SIZE - KERNEL_VBASE;
  }

  lemma FixedBounds()
    ensures Aligned(PAGE_SIZE + KERNEL_VBASE) && Aligned(HDWARE_RAM_START + KERNEL_VBASE) && Aligned(KERNEL_VBASE)
    ensures IndexOf(KERNEL_VBASE) == 0 && IndexOf(PAGE_SIZE + KERNEL_VBASE) == 1 && IndexOf(HDWARE_RAM_START + KERNEL_VBASE) == 0x9F
  {}

  /** If the assertions hold, none of the sums wrapped. */
  lemma NothingWraps(numPages: nat, start: nat, end: nat)
    requires RangesAsserted(numPages, start, end) && numPages < 0x10_0000 && end < TWO32
    ensures end + numPages * 8 <= TWO32 - PAGE_SIZE && HeapStart(numPages, end) == AlignUp(end + numPages * 8)
    ensures HeapEnd(numPages, end) == HeapStart(numPages, end) + KERNEL_HEAP_SIZE
    ensures MemoryEnd(numPages) == numPages * 4096 + KERNEL_VBASE < TWO32
  {
    hide AlignUp, AlignDown, Aligned, Low32;
    Low32Is(end + numPages * 8);
    AlignNearest(Low32(end + numPages * 8));
    Low32Is(HeapStart(numPages, end) + KERNEL_HEAP_SIZE);
    Low32Is(numPages * 4096 + KERNEL_VBASE);
  }

  lemma FitsInOrder(numPages: nat, start: nat, end: nat)
    requires RangesAsserted(numPages, start, end) && numPages < 0x10_0000 && start < TWO32 && end < TWO32
    ensures var kernstart, kernend := AlignDown(start), HeapStart(numPages, end);
            var heapEnd, last := HeapEnd(numPages, end), MemoryEnd(numPages);
            && Aligned(kernstart) && Aligned(kernend) && Aligned(heapEnd) && Aligned(last)
            && HDWARE_RAM_START + KERNEL_VBASE < kernstart < kernend < heapEnd < last < TWO32
            && end + numPages * 8 <= kernend && heapEnd == kernend + KERNEL_HEAP_SIZE
            && 0x9F < IndexOf(kernstart) < IndexOf(kernend) < IndexOf(heapEnd) < numPages
            && IndexOf(last) == numPages && IndexOf(heapEnd) == IndexOf(kernend) + 512
  {
    hide AlignDown, AlignUp, Aligned, IndexOf, Low32;
    NothingWraps(numPages, start, end);
    AlignNearest(start);
    AlignNearest(end + numPages * 8);
    Multiples(numPages);
    IndexIs(numPages);
    FixedBounds();
    var kernstart, kernend := AlignDown(start), HeapStart(numPages, end);
    HeapBounds(kernend);
    IndexSteps(HDWARE_RAM_START + KERNEL_VBASE, kernstart);
    IndexSteps(kernstart, kernend);
    IndexSteps(kernend + KERNEL_HEAP_SIZE, numPages * 4096 + KERNEL_VBASE);
  }

  /** What each byte of memory is for, by the flag of its page: `start` and `end` bound the kernel image, the page array
      of 8 bytes for each page follows it, then, from the next page on, two megabytes of heap. */
  lemma BytesMarked(m: Frames, numPages: nat, start: nat, end: nat, b: nat)
    requires RangesAsserted(numPages, start, end) && numPages < 0x10_0000 && start < TWO32 && end < TWO32 && |m.pages| == numPages
    requires var heap := HeapStart(numPages, end);
             LaidTo(m, IndexOf(AlignDown(start)), IndexOf(heap), IndexOf(Low32(heap + KERNEL_HEAP_SIZE)), numPages)
    requires 0xC000_0000 <= b < 0xC000_0000 + numPages * 4096
    ensures var heap := HeapStart(numPages, end); var top := end + numPages * 8; var f := m.pages[(b - 0xC000_0000) / 4096].flags;
            && top <= heap < top + 4096 && heap % 4096 == 0
            && f == if b < 0xC000_1000 then Unused
                    else if b < 0xC009_F000 then Kern
                    else if b < start - start % 4096 then Hdware
                    else if b < heap then Kern
                    else if b < heap + 0x20_0000 then Heap
                    else Avail
  {
    hide *;
    FitsInOrder(numPages, start, end);
    NothingWraps(numPages, start, end);
    AlignNearest(start);
    AlignNearest(end + numPages * 8);
    Sizes();
    var heap, k := HeapStart(numPages, end), AlignDown(start);
    var h := heap + KERNEL_HEAP_SIZE;
    Low32Is(heap + KERNEL_HEAP_SIZE);
    HeapEndIs(numPages, end);
    PageOf(b, numPages);
    LaidAt(m, IndexOf(k), IndexOf(heap), IndexOf(h), numPages, (b - 0xC000_0000) / 4096);
    BelowEnd(start);
    InPage(b, 0xC000_1000);
    InPage(b, 0xC009_F000);
    InPage(b, k);
    InPage(b, heap);
    InPage(b, h);
    FixedBounds();
    RegionIs(IndexOf(k), IndexOf(heap), IndexOf(h), (b - 0xC000_0000) / 4096);
  }

  lemma HeapEndIs(numPages: nat, end: nat)
    ensures HeapEnd(numPages, end) == Low32(HeapStart(numPages, end) + KERNEL_HEAP_SIZE)
  {}

  lemma Sizes()
    ensures KERNEL_HEAP_SIZE == 0x20_0000 && KERNEL_VBASE == 0xC000_0000 && PAGE_SIZE == 4096 && HDWARE_RAM_START == 0x9F000
    ensures TWO32 == 0x1_0000_0000
  {}

  lemma PageOf(b: nat, numPages: nat)
    requires 0xC000_0000 <= b < 0xC000_0000 + numPages * 4096
    ensures (b - 0xC000_0000) / 4096 < numPages
  {}

  lemma BelowEnd(start: nat)
    ensures AlignDown(start) == start - start % 4096
  {}

  lemma RegionIs(k0: nat, k1: nat, h: nat, p: nat)
    ensures Region(k0, k1, h, p) == if p < 1 then Unused else if p < 0x9F then Kern else if p < k0 then Hdware
                                   else if p < k1 then Kern else if p < h then Heap else Avail
  {}

  lemma LaidAt(m: Frames, k0: nat, k1: nat, h: nat, j: nat, p: nat)
    requires LaidTo(m, k0, k1, h, j) && p < j
    ensures p < |m.pages| && m.pages[p].flags == Region(k0, k1, h, p)
  {
    assert LaidOut(m, k0, k1, h, p);
  }

  /** A byte lies below an aligned address exactly if its page does. */
  lemma InPage(b: nat, a: nat)
    requires 0xC000_0000 <= a < TWO32 && a % 4096 == 0 && 0xC000_0000 <= b
    ensures b < a <==> (b - 0xC000_0000) / 4096 < IndexOf(a)
  {
    assert (a + TWO32 - KERNEL_VBASE) % 0x1_0000_0000 == a - KERNEL_VBASE;
  }

  /** Pages below `j` are laid out. */
  ghost predicate LaidTo(m: Frames, k0: nat, k1: nat, h: nat, j: nat) {
    j <= |m.pages| && forall p {:trigger LaidOut(m, k0, k1, h, p)} :: 0 <= p < j ==> LaidOut(m, k0, k1, h, p)
  }

  lemma NothingLaid(m: Frames, k0: nat, k1: nat, h: nat)
    ensures LaidTo(m, k0, k1, h, 0)
  {}

  /** Marking the next region lays it out, and keeps what was laid out before. */
  lemma RegionLaid(m: Frames, k0: nat, k1: nat, h: nat, i: nat, j: nat, f: Flag)
    requires LaidTo(m, k0, k1, h, i) && i < j <= |m.pages| && m.head == NONE && m.tail == NONE && m.count == 0
    requires 0x9F <= k0 <= k1 <= h && (if f == Avail then i == h && j == |m.pages| else j <= h)
    requires forall p :: i <= p < j ==> Region(k0, k1, h, p) == f
    ensures var n := Marked(m, i, j, f);
            && LaidTo(n, k0, k1, h, j) && |n.pages| == |m.pages|
            && (if f == Avail then n.head == i && n.tail == j - 1 && n.count == j - i
                else n.head == NONE && n.tail == NONE && n.count == 0)
  {
    MarkedIs(m, i, j, f);
    var n := Marked(m, i, j, f);
    forall p | 0 <= p < j ensures LaidOut(n, k0, k1, h, p) {
      assert MarkedAt(m, n, i, j, f, p);
      if p < i { assert LaidOut(m, k0, k1, h, p); }
    }
  }

  // ---------------------------------------------------------------- set-up with the repaired list

  /** Marking pages `i` up to `j` available, with `freelistPageAdd` repaired. */
  function MarkedClear(m: Frames, i: nat, j: nat): Frames
    requires i <= j <= |m.pages| && (m.tail == NONE || InRange(m, m.tail))
    decreases j - i
  {
    if i == j then m else MarkedClear(PutClear(SetFlags(m, i, Avail), i), i + 1, j)
  }

  lemma {:induction false} ClearMore(m: Frames, i: nat, j: nat)
    requires i <= j < |m.pages| && (m.tail == NONE || InRange(m, m.tail))
    ensures var n := MarkedClear(m, i, j);
            |n.pages| == |m.pages| && (n.tail == NONE || InRange(n, n.tail))
            && MarkedClear(m, i, j + 1) == PutClear(SetFlags(n, j, Avail), j)
    decreases j - i
  {
    if i < j {
      ClearMore(PutClear(SetFlags(m, i, Avail), i), i + 1, j);
    }
  }

  /** It makes the same list, without the last page's link. */
  lemma {:induction false} ClearIs(m: Frames, i: nat, j: nat)
    requires i < j <= |m.pages| && m.head == NONE && m.tail == NONE && m.count == 0
    ensures |Marked(m, i, j, Avail).pages| == |m.pages|
    ensures MarkedClear(m, i, j) == SetNext(Marked(m, i, j, Avail), j - 1, NONE)
    decreases j - i
  {
    hide Marked, MarkedClear, MarkedAt, SetFlags, SetNext, Put, PutClear;
    MarkedIs(m, i, j, Avail);
    MarkedIs(m, i, j - 1, Avail);
    MarkedMore(m, i, j - 1, Avail);
    ClearMore(m, i, j - 1);
    if i < j - 1 {
      ClearIs(m, i, j - 1);
      ClearPut(Marked(m, i, j - 1, Avail), j - 1);
    } else {
      NothingMarked(m, i, Avail);
      ClearFirst(m, i);
    }
  }

  lemma NothingMarked(m: Frames, i: nat, f: Flag)
    requires i <= |m.pages| && (m.tail == NONE || InRange(m, m.tail))
    ensures Marked(m, i, i, f) == m && MarkedClear(m, i, i) == m
  {}

  lemma ClearFirst(m: Frames, i: nat)
    requires i < |m.pages| && m.head == NONE && m.tail == NONE
    ensures var s := SetFlags(m, i, Avail); PutClear(s, i) == SetNext(Put(s, i), i, NONE)
  {
    var s := SetFlags(m, i, Avail);
    assert PutClear(s, i).pages == SetNext(Put(s, i), i, NONE).pages;
  }

  /** Behind a tail whose link is cleared, the list grows as it would behind any tail. */
  lemma ClearPut(n: Frames, p: nat)
    requires 0 < p < |n.pages| && n.tail == p - 1 && n.head != NONE
    ensures PutClear(SetFlags(SetNext(n, p - 1, NONE), p, Avail), p) == SetNext(Put(SetFlags(n, p, Avail), p), p, NONE)
  {
    var a := PutClear(SetFlags(SetNext(n, p - 1, NONE), p, Avail), p);
    var b := SetNext(Put(SetFlags(n, p, Avail), p), p, NONE);
    assert a.pages == b.pages;
  }

  /** Set up with the repaired list, memory is laid out as before and the list ends without a link,
      so every run of well-behaved callers from there refines the queue. */
  lemma ClearSetUp(m: Frames, k0: nat, k1: nat, h: nat, ops: seq<Op>)
    requires 0x9F <= k0 <= k1 <= h < |m.pages| && LaidTo(m, k0, k1, h, h)
    requires m.head == NONE && m.tail == NONE && m.count == 0
    ensures var n := MarkedClear(m, h, |m.pages|); var q := RangeOf(h, |m.pages|);
            && Ended(n, q)
            && (Clients(n, ops) ==> RunsClear(n, ops) && Ended(AfterClear(n, ops), Fifos(q, ops)))
  {
    var j := |m.pages|;
    RegionLaid(m, k0, k1, h, h, j, Avail);
    LaidOutFree(Marked(m, h, j, Avail), k0, k1, h);
    ClearIs(m, h, j);
    hide *;
    RangeEnd(h, j);
    EndList(Marked(m, h, j, Avail), RangeOf(h, j));
    if Clients(MarkedClear(m, h, j), ops) {
      ClearFifo(MarkedClear(m, h, j), RangeOf(h, j), ops);
    }
  }

  lemma RangeEnd(h: nat, j: nat)
    requires h < j
    ensures var q := RangeOf(h, j); q != [] && q[|q| - 1] == j - 1
  {}

  // ---------------------------------------------------------------- the allocator

  class PageAllocator {
    var pages: array<Page>
    var head: int
    var tail: int
    var count: nat
    var intr: bool

    ghost function Model(): Frames
      reads this, pages
    {
      Frames(pages[..], head, tail, count)
    }

    method GetFreelistPage() returns (page: int)
      requires count > 0 && InRange(Model(), head)
      modifies this`head, this`tail, this`count, pages
      ensures Model() == Take(old(Model())) && page == old(head)
    {
      page := head;
      pages[page] := pages[page].(flags := Alloc);
      if head == tail {
        head, tail := NONE, NONE;
      }
      head := pages[page].next;
      count := count - 1;
    }

    method FreelistPageAdd(page: int)
      requires InRange(Model(), page) && (tail == NONE || InRange(Model(), tail))
      modifies this`head, this`tail, this`count, pages
      ensures Model() == Put(old(Model()), page)
    {
      pages[page] := pages[page].(flags := Avail);
      if head == NONE {
        head := page;
      }
      if tail != NONE {
        pages[tail] := pages[tail].(next := page);
      }
      tail := page;
      count := count + 1;
    }

    method MarkPageRange(start: nat, end: nat, f: Flag)
      requires Aligned(start) && Aligned(end) && KERNEL_VBASE <= start < end < TWO32
      requires IndexOf(end) <= pages.Length && (tail == NONE || InRange(Model(), tail))
      modifies this, pages
      ensures IndexOf(start) <= IndexOf(end)
      ensures Model() == Marked(old(Model()), IndexOf(start), IndexOf(end), f) && pages == old(pages)
    {
      ghost var m := Model();
      ghost var i := IndexOf(start);
      IndexSteps(start, end);
      var addr := start;
      while addr < end
        invariant start <= addr <= end && Aligned(addr) && pages == old(pages)
        invariant IndexOf(start) <= IndexOf(addr) <= IndexOf(end)
        invariant Model() == Marked(m, i, IndexOf(addr), f)
        decreases end - addr
      {
        IndexSteps(addr, end);
        MarkedMore(m, i, IndexOf(addr), f);
        var page := IndexOf(addr);
        pages[page] := pages[page].(flags := f);
        assert Model() == SetFlags(Marked(m, i, page, f), page, f);
        if f == Avail {
          FreelistPageAdd(page);
        } else {
          pages[page] := pages[page].(next := NONE);
        }
        addr := addr + PAGE_SIZE;
      }
    }

    /** The part of `AllocPage` that interrupts are off for. */
    method AllocAtomic() returns (addr: nat)
      requires !intr && (count > 0 ==> InRange(Model(), head))
      modifies this`head, this`tail, this`count, pages
      ensures if old(count) == 0 then addr == 0 && Model() == old(Model())
              else addr == AddressOf(old(head)) && Model() == Take(old(Model()))
    {
      addr := 0;
      if count > 0 {
        var page := GetFreelistPage();
        assert pages[page].flags == Alloc;
        addr := AddressOf(page);
      }
    }

    /** A page for the caller, or 0 when none is left. The list is touched with interrupts off only,
        and they are as before afterwards. */
    method AllocPage() returns (addr: nat)
      requires count > 0 ==> InRange(Model(), head)
      modifies this`head, this`tail, this`count, this`intr, pages
      ensures intr == old(intr)
      ensures if old(count) == 0 then addr == 0 && Model() == old(Model())
              else addr == AddressOf(old(head)) && Model() == Take(old(Model()))
    {
      var iFlag := intr;
      intr := false;
      addr := AllocAtomic();
      intr := iFlag;
    }

    /** The part of `FreePage` that interrupts are off for. */
    method FreeAtomic(addr: nat)
      requires !intr && InRange(Model(), IndexOf(addr)) && Model().pages[IndexOf(addr)].flags == Alloc
      requires tail == NONE || InRange(Model(), tail)
      modifies this`head, this`tail, this`count, pages
      ensures Model() == Put(old(Model()), IndexOf(addr))
    {
      var page := IndexOf(addr);
      assert pages[page].flags == Alloc;
      FreelistPageAdd(page);
    }

    method FreePage(addr: nat)
      requires Aligned(addr) && InRange(Model(), IndexOf(addr)) && Model().pages[IndexOf(addr)].flags == Alloc
      requires tail == NONE || InRange(Model(), tail)
      modifies this`head, this`tail, this`count, this`intr, pages
      ensures intr == old(intr) && Model() == Put(old(Model()), IndexOf(addr))
    {
      var iFlag := intr;
      intr := false;
      FreeAtomic(addr);
      intr := iFlag;
    }

    /** Build the page array over the memory just past the kernel and sort all pages into regions.
        `memUpper` counts kilobytes; the sums are those of 32-bit machine words. */
    method MemInit(memUpper: nat, start: nat, end: nat, records: array<Page>) returns (heapEnd: nat)
      requires head == NONE && tail == NONE && count == 0 && start < TWO32 && end < TWO32
      requires records.Length == NumPages(memUpper) && RangesAsserted(NumPages(memUpper), start, end)
      modifies this, records
      ensures pages == records && heapEnd == HeapStart(NumPages(memUpper), end) + KERNEL_HEAP_SIZE
      ensures var k0, k1, h := IndexOf(AlignDown(start)), IndexOf(HeapStart(NumPages(memUpper), end)), IndexOf(heapEnd);
              && 0x9F < k0 < k1 < h < pages.Length && h == k1 + KERNEL_HEAP_SIZE / PAGE_SIZE
              && LaidTo(Model(), k0, k1, h, pages.Length) && FreeList(Model(), RangeOf(h, pages.Length))
    {
      hide Marked, LaidTo, FreeList, IndexOf, AlignDown, AlignUp, Aligned, RangesAsserted, RangeOf, Low32;
      var numPages := (memUpper * 1024) % 0x1_0000_0000 / PAGE_SIZE;
      assert numPages == NumPages(memUpper) < 0x10_0000;
      hide NumPages;
      var kernstart := AlignDown(start);
      pages := records;
      var kernend := AlignUp(Low32(end + numPages * PAGE_RECORD));
      var firstPage := PAGE_SIZE + KERNEL_VBASE;
      var hdwareStart := HDWARE_RAM_START + KERNEL_VBASE;
      heapEnd := Low32(kernend + KERNEL_HEAP_SIZE);
      var endOfMemory := Low32(numPages * PAGE_SIZE + KERNEL_VBASE);
      FitsInOrder(numPages, start, end);
      FixedBounds();
      ghost var k0, k1, h := IndexOf(kernstart), IndexOf(kernend), IndexOf(heapEnd);
      ghost var m := Model();
      NothingLaid(m, k0, k1, h);
      MarkPageRange(KERNEL_VBASE, firstPage, Unused);
      RegionLaid(m, k0, k1, h, 0, 1, Unused);
      m := Model();
      MarkPageRange(firstPage, hdwareStart, Kern);
      RegionLaid(m, k0, k1, h, 1, 0x9F, Kern);
      m := Model();
      MarkPageRange(hdwareStart, kernstart, Hdware);
      RegionLaid(m, k0, k1, h, 0x9F, k0, Hdware);
      m := Model();
      MarkPageRange(kernstart, kernend, Kern);
      RegionLaid(m, k0, k1, h, k0, k1, Kern);
      m := Model();
      MarkPageRange(kernend, heapEnd, Heap);
      RegionLaid(m, k0, k1, h, k1, h, Heap);
      m := Model();
      MarkPageRange(heapEnd, endOfMemory, Avail);
      RegionLaid(m, k0, k1, h, h, numPages, Avail);
      LaidOutFree(Model(), k0, k1, h);
    }
  }
}

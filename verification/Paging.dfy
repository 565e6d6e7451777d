/** The page directory and tables built at boot, and the address map the processor's two-level
    walk makes of them. */
module Paging {
  import opened Basics
  import opened PageFrames
  import opened Pages

  const MAPPED: nat := 0x100_0000

  function PhysToVirt(phys: nat): nat { (phys + KERNEL_VBASE) % 0x1_0000_0000 }

  function VirtToPhys(virt: nat): nat { (virt + TWO32 - KERNEL_VBASE) % 0x1_0000_0000 }

  /** The low three bits set: present, writable, user level. */
  function Or7(x: nat): nat { x - x % 8 + 7 }

  // ---------------------------------------------------------------- the processor's walk

  /** The word at a physical address. */
  function WordAt(mem: seq<nat>, phys: nat): nat {
    if phys / 4 < |mem| then mem[phys / 4] else 0
  }

  predicate Present(entry: nat) { entry % 2 == 1 }

  function Frame(entry: nat): nat { entry - entry % 4096 }

  /** 32-bit paging with 4-KByte pages, section 4.3 of the Intel SDM, Volume 3A: ten bits of the
      address select a directory entry, ten a table entry, twelve the byte within the page. */
  function Walk(mem: seq<nat>, cr3: nat, va: nat): Option<nat> {
    var pde := WordAt(mem, Frame(cr3) + va / 0x40_0000 % 1024 * 4);
    if !Present(pde) then None
    else
      var pte := WordAt(mem, Frame(pde) + va / 4096 % 1024 * 4);
      if !Present(pte) then None else Some(Frame(pte) + va % 4096)
  }

  // ---------------------------------------------------------------- the tables

  /** Entry `k` of the table in page `t`, the `i`th of the mapping. */
  predicate EntryOk(mem: seq<nat>, t: nat, i: nat, k: nat) {
    t * 1024 + k < |mem| && mem[t * 1024 + k] == (i * 1024 + k) * 4096 + 7
  }

  /** Page `t` is filled up to entry `n` as the `i`th table of the mapping. */
  predicate TableTo(mem: seq<nat>, t: nat, i: nat, n: nat) {
    forall k {:trigger EntryOk(mem, t, i, k)} :: 0 <= k < n ==> EntryOk(mem, t, i, k)
  }

  /** Entry `k` of the directory in page `d`: the first `n` tables are entered. */
  predicate DirEntryOk(mem: seq<nat>, d: nat, tables: seq<int>, n: nat, k: nat)
    requires n <= |tables|
  {
    d * 1024 + k < |mem|
    && mem[d * 1024 + k] == if 768 <= k < 768 + n then tables[k - 768] * 4096 + 7 else 6
  }

  predicate DirTo(mem: seq<nat>, d: nat, tables: seq<int>, n: nat, to: nat)
    requires n <= |tables|
  {
    forall k {:trigger DirEntryOk(mem, d, tables, n, k)} :: 0 <= k < to ==> DirEntryOk(mem, d, tables, n, k)
  }

  /** Directory and all four tables. */
  predicate Mapping(mem: seq<nat>, d: nat, tables: seq<int>)
    requires |tables| == 4 && forall i :: 0 <= i < 4 ==> tables[i] >= 0
  {
    && DirTo(mem, d, tables, 4, 1024)
    && TableTo(mem, tables[0], 0, 1024) && TableTo(mem, tables[1], 1, 1024)
    && TableTo(mem, tables[2], 2, 1024) && TableTo(mem, tables[3], 3, 1024)
  }

  lemma DirIndex(va: nat)
    requires va < TWO32
    ensures var k := va / 0x40_0000 % 1024;
            && k < 1024 && (768 <= k < 772 <==> KERNEL_VBASE <= va < KERNEL_VBASE + MAPPED)
            && (768 <= k < 772 ==> va - KERNEL_VBASE == (k - 768) * 0x40_0000 + va / 4096 % 1024 * 4096 + va % 4096)
  {
    assert va / 0x40_0000 < 1024;
    var k := va / 0x40_0000;
    assert va == k * 0x40_0000 + va % 0x40_0000;
    assert va / 4096 == k * 1024 + va % 0x40_0000 / 4096;
    assert va / 4096 % 1024 == va % 0x40_0000 / 4096;
    assert va % 0x40_0000 == va % 0x40_0000 / 4096 * 4096 + va % 4096;
  }

  /** An entry with flag bits names its page's first word. */
  lemma FrameWord(t: nat, flags: nat, k: nat)
    requires flags < 4096 && k < 1024
    ensures Frame(t * 4096 + flags) == t * 4096 && (t * 4096 + k * 4) / 4 == t * 1024 + k
    ensures Present(t * 4096 + flags) <==> flags % 2 == 1
  {
    assert t * 4096 + k * 4 == 4 * (t * 1024 + k);
  }

  /** What the walk reads in the directory. */
  lemma DirWord(mem: seq<nat>, d: nat, tables: seq<int>, k: nat)
    requires |tables| == 4 && (forall i :: 0 <= i < 4 ==> tables[i] >= 0) && DirTo(mem, d, tables, 4, 1024) && k < 1024
    ensures WordAt(mem, Frame(d * 4096) + k * 4) == if 768 <= k < 772 then tables[k - 768] * 4096 + 7 else 6
  {
    FrameWord(d, 0, k);
    assert DirEntryOk(mem, d, tables, 4, k);
  }

  /** What the walk reads in a table. */
  lemma TableWord(mem: seq<nat>, t: nat, i: nat, j: nat)
    requires TableTo(mem, t, i, 1024) && j < 1024
    ensures WordAt(mem, Frame(t * 4096 + 7) + j * 4) == (i * 1024 + j) * 4096 + 7
    ensures Frame((i * 1024 + j) * 4096 + 7) == (i * 1024 + j) * 4096
    ensures Present(t * 4096 + 7) && Present((i * 1024 + j) * 4096 + 7)
  {
    FrameWord(t, 7, j);
    FrameWord(i * 1024 + j, 7, 0);
    assert EntryOk(mem, t, i, j);
  }

  /** The walk over a finished mapping takes the 16 megabytes from 0xC0000000 on to the first 16 megabytes, in
      order, and finds every other 32-bit address not present. */
  lemma WalkIsLinear(mem: seq<nat>, d: nat, tables: seq<int>, va: nat)
    requires |tables| == 4 && (forall i :: 0 <= i < 4 ==> tables[i] >= 0) && Mapping(mem, d, tables) && va < TWO32
    ensures Walk(mem, d * 4096, va) == if 0xC000_0000 <= va < 0xC100_0000 then Some((va - 0xC000_0000) as nat) else None
  {
    assert !Present(6);
    hide Frame, Present, WordAt, VirtToPhys, DirTo, TableTo;
    var k, j := va / 0x40_0000 % 1024, va / 4096 % 1024;
    DirIndex(va);
    DirWord(mem, d, tables, k);
    if 768 <= k < 772 {
      var i := k - 768;
      assert i == 0 || i == 1 || i == 2 || i == 3;
      TableWord(mem, tables[i], i, j);
      VirtIs(va);
    }
  }

  /** All entries are for user level and writing: the low three bits are 7 where the walk finds a page, and 6 in
      the directory where it does not. */
  lemma UserEntries(mem: seq<nat>, d: nat, tables: seq<int>, va: nat)
    requires |tables| == 4 && (forall i :: 0 <= i < 4 ==> tables[i] >= 0) && Mapping(mem, d, tables) && va < TWO32
    ensures var pde := WordAt(mem, d * 4096 + va / 0x40_0000 * 4); var pte := WordAt(mem, pde - pde % 4096 + va / 4096 % 1024 * 4);
            if 0xC000_0000 <= va < 0xC100_0000 then pde % 8 == 7 && pte % 8 == 7 else pde % 8 == 6
  {
    hide *;
    var k, j := va / 0x40_0000 % 1024, va / 4096 % 1024;
    DirIndex(va);
    Quotient(va);
    VirtBase();
    MappingTable(mem, d, tables, 0);
    DirWord(mem, d, tables, k);
    FrameWord(d, 0, 0);
    if 768 <= k < 772 {
      var i := k - 768;
      MappingTable(mem, d, tables, i);
      TableWord(mem, tables[i], i, j);
      LowBits(tables[i]);
      LowBits(i * 1024 + j);
    }
  }

  lemma VirtBase()
    ensures KERNEL_VBASE == 0xC000_0000 && KERNEL_VBASE + MAPPED == 0xC100_0000
  {}

  lemma Quotient(va: nat)
    requires va < TWO32
    ensures va / 0x40_0000 % 1024 == va / 0x40_0000 && va / 4096 % 1024 < 1024
  {}

  lemma MappingTable(mem: seq<nat>, d: nat, tables: seq<int>, i: nat)
    requires |tables| == 4 && (forall i :: 0 <= i < 4 ==> tables[i] >= 0) && Mapping(mem, d, tables) && i < 4
    ensures DirTo(mem, d, tables, 4, 1024) && TableTo(mem, tables[i], i, 1024)
  {
    hide DirTo, TableTo;
    assert i == 0 || i == 1 || i == 2 || i == 3;
  }

  /** The flag bits of an entry, and the page it names. */
  lemma LowBits(t: nat)
    ensures (t * 4096 + 7) % 8 == 7 && t * 4096 + 7 - (t * 4096 + 7) % 4096 == t * 4096 && Frame(t * 4096 + 7) == t * 4096
  {
    hide *;
    FrameWord(t, 7, 0);
    FrameIs(t * 4096 + 7);
    Eighths(t * 512);
    assert t * 4096 + 7 == t * 512 * 8 + 7;
  }

  lemma FrameIs(x: nat)
    ensures Frame(x) == x - x % 4096
  {}

  lemma Eighths(u: nat)
    ensures (u * 8 + 7) % 8 == 7
  {}

  lemma VirtIs(va: nat)
    requires KERNEL_VBASE <= va < TWO32
    ensures VirtToPhys(va) == va - KERNEL_VBASE
  {}

  /** The two address conversions are inverse on 32-bit addresses. */
  lemma ConversionsInverse(a: nat)
    requires a < TWO32
    ensures VirtToPhys(PhysToVirt(a)) == a && PhysToVirt(VirtToPhys(a)) == a
  {}

  // ---------------------------------------------------------------- building them

  /** Only page `p` was written. */
  predicate OnlyPage(mem: seq<nat>, after: seq<nat>, p: nat) {
    |after| == |mem| && forall w :: 0 <= w < |mem| && (w < p * 1024 || w >= p * 1024 + 1024) ==> after[w] == mem[w]
  }

  lemma TableKept(mem: seq<nat>, after: seq<nat>, p: nat, t: nat, i: nat)
    requires OnlyPage(mem, after, p) && p != t && TableTo(mem, t, i, 1024)
    ensures TableTo(after, t, i, 1024)
  {
    forall j | 0 <= j < 1024 ensures EntryOk(after, t, i, j) {
      assert EntryOk(mem, t, i, j);
    }
  }

  lemma DirKept(mem: seq<nat>, after: seq<nat>, p: nat, d: nat, tables: seq<int>, n: nat)
    requires OnlyPage(mem, after, p) && p != d && n <= |tables| && DirTo(mem, d, tables, n, 1024)
    ensures DirTo(after, d, tables, n, 1024)
  {
    forall j | 0 <= j < 1024 ensures DirEntryOk(after, d, tables, n, j) {
      assert DirEntryOk(mem, d, tables, n, j);
    }
  }

  lemma EnterTable(mem: seq<nat>, after: seq<nat>, d: nat, tables: seq<int>, n: nat)
    requires n < |tables| <= 4 && tables[n] >= 0 && DirTo(mem, d, tables, n, 1024) && d * 1024 + 1024 <= |mem|
    requires after == mem[d * 1024 + 768 + n := tables[n] * 4096 + 7]
    ensures DirTo(after, d, tables, n + 1, 1024) && OnlyPage(mem, after, d)
  {
    var more := n + 1;
    forall j | 0 <= j < 1024 ensures DirEntryOk(after, d, tables, more, j) {
      assert DirEntryOk(mem, d, tables, n, j);
    }
  }

  /** The first `n` tables are filled. */
  ghost predicate TablesTo(mem: seq<nat>, tables: seq<int>, n: nat)
    requires n <= |tables|
  {
    forall i {:trigger tables[i]} :: 0 <= i < n ==> tables[i] >= 0 && TableTo(mem, tables[i], i, 1024)
  }

  lemma TablesKept(mem: seq<nat>, after: seq<nat>, p: nat, tables: seq<int>, n: nat)
    requires n <= |tables| && TablesTo(mem, tables, n) && OnlyPage(mem, after, p) && forall i :: 0 <= i < n ==> tables[i] != p
    ensures TablesTo(after, tables, n)
  {
    forall i | 0 <= i < n ensures TableTo(after, tables[i], i, 1024) {
      TableKept(mem, after, p, tables[i], i);
    }
  }

  /** Every directory entry is set to not present. */
  method FillDirectory(mem: array<nat>, d: nat, ghost tables: seq<int>)
    requires d * 1024 + 1024 <= mem.Length
    modifies mem
    ensures DirTo(mem[..], d, tables, 0, 1024)
  {
    var pde := 0;
    while pde < 1024
      invariant 0 <= pde <= 1024
      invariant forall k :: d * 1024 <= k < d * 1024 + pde ==> mem[k] == 6
    {
      mem[d * 1024 + pde] := 6;
      pde := pde + 1;
    }
    forall k | 0 <= k < 1024 ensures DirEntryOk(mem[..], d, tables, 0, k) {}
  }

  lemma Or7Is(n: nat)
    ensures Or7(n * 4096) == n * 4096 + 7
  {}

  /** One table is filled with consecutive page addresses. */
  method FillTable(mem: array<nat>, t: nat, ghost i: nat, start: nat) returns (address: nat)
    requires t * 1024 + 1024 <= mem.Length && start == i * 1024 * 4096
    modifies mem
    ensures TableTo(mem[..], t, i, 1024) && OnlyPage(old(mem[..]), mem[..], t) && address == (i + 1) * 1024 * 4096
  {
    hide Or7;
    address := start;
    var pte := 0;
    while pte < 1024
      invariant 0 <= pte <= 1024 && address == (i * 1024 + pte) * 4096
      invariant forall k :: t * 1024 <= k < t * 1024 + pte ==> mem[k] == (i * 1024 + (k - t * 1024)) * 4096 + 7
      invariant forall w :: 0 <= w < mem.Length && (w < t * 1024 || w >= t * 1024 + 1024) ==> mem[w] == old(mem[w])
    {
      Or7Is(i * 1024 + pte);
      mem[t * 1024 + pte] := Or7(address);
      address := address + 0x1000;
      pte := pte + 1;
    }
    forall k | 0 <= k < 1024 ensures EntryOk(mem[..], t, i, k) {}
  }

  /** The page behind an address handed out by the allocator, as the index of its first word. */
  lemma PageWords(index: nat)
    requires index < 0x40000
    ensures VirtToPhys(AddressOf(index)) == index * 4096 && AddressOf(index) != 0
    ensures VirtToPhys(AddressOf(index)) / 4096 == index && Or7(VirtToPhys(AddressOf(index))) == index * 4096 + 7
  {
    assert AddressOf(index) == index * 4096 + KERNEL_VBASE;
  }

  /** Take a page for the `i`th table, fill it and enter it in the directory. */
  method AddTable(alloc: PageAllocator, mem: array<nat>, ghost q: seq<int>, d: nat, i: nat, start: nat) returns (address: nat)
    requires |q| >= 5 && i < 4 && Members(q, alloc.pages.Length) && d == q[0] && start == i * 1024 * 4096
    requires alloc.pages.Length <= 0x40000 && alloc.pages.Length * 1024 <= mem.Length
    requires FreeList(alloc.Model(), q[i + 1..])
    requires DirTo(mem[..], d, q[1..5], i, 1024) && TablesTo(mem[..], q[1..5], i)
    modifies alloc, alloc.pages, mem
    ensures alloc.pages == old(alloc.pages) && address == (i + 1) * 1024 * 4096
    ensures DirTo(mem[..], d, q[1..5], i + 1, 1024) && TablesTo(mem[..], q[1..5], i + 1)
    ensures |q| > i + 2 || Ended(old(alloc.Model()), q[i + 1..]) ==> FreeList(alloc.Model(), q[i + 2..])
    ensures Ended(old(alloc.Model()), q[i + 1..]) ==> Ended(alloc.Model(), q[i + 2..])
  {
    hide Members, NoDup, FreeList, Ended, DirTo, TableTo, TablesTo, Take, OnlyPage, AddressOf, VirtToPhys, Or7;
    ghost var tables := q[1..5];
    NewTable(q, alloc.pages.Length, i);
    assert q[i + 1..][0] == tables[i] && q[i + 1..][1..] == q[i + 2..];
    TakeNext(alloc.Model(), q[i + 1..]);
    var pageTable := alloc.AllocPage();
    PageWords(tables[i]);
    assert pageTable != 0;
    ghost var before := mem[..];
    address := FillTable(mem, VirtToPhys(pageTable) / 4096, i, start);
    TablesKept(before, mem[..], tables[i], tables, i);
    DirKept(before, mem[..], tables[i], d, tables, i);
    before := mem[..];
    mem[d * 1024 + 768 + i] := Or7(VirtToPhys(pageTable));
    EnterTable(before, mem[..], d, tables, i);
    OneTableMore(before, mem[..], d, tables, i);
  }

  /** Build the directory and four tables on pages from the allocator. The walk over them is the
      linear map of the first 16 megabytes, for every address. The free list stays sound unless the
      last page went out with a link. */
  method PagingInit(alloc: PageAllocator, mem: array<nat>, ghost q: seq<int>) returns (cr3: nat)
    requires FreeList(alloc.Model(), q) && |q| >= 5
    requires alloc.pages.Length <= 0x40000 && alloc.pages.Length * 1024 <= mem.Length
    modifies alloc, alloc.pages, mem
    ensures forall va :: 0 <= va < TWO32 ==>
              Walk(mem[..], cr3, va) == (if 0xC000_0000 <= va < 0xC100_0000 then Some((va - 0xC000_0000) as nat) else None)
    ensures |q| > 5 || Ended(old(alloc.Model()), q) ==> FreeList(alloc.Model(), q[5..])
    ensures alloc.pages == old(alloc.pages)
  {
    hide Members, NoDup, FreeList, Ended, DirTo, TableTo, TablesTo, Take, OnlyPage, Walk, Mapping, AddressOf, VirtToPhys, Or7;
    ghost var tables := q[1..5];
    ghost var ended := Ended(alloc.Model(), q);
    ListMembers(alloc.Model(), q);
    NewTable(q, alloc.pages.Length, 0);
    TakeNext(alloc.Model(), q);
    var pageDirectory := alloc.AllocPage();
    PageWords(q[0]);
    assert pageDirectory != 0;
    var d := VirtToPhys(pageDirectory) / 4096;
    FillDirectory(mem, d, tables);
    NoTables(mem[..], tables);
    var address := 0;
    var pidx := KERNEL_VBASE / 0x40_0000;
    while pidx < KERNEL_VBASE / 0x40_0000 + 4
      invariant 768 <= pidx <= 772 && address == (pidx - 768) * 1024 * 4096 && alloc.pages == old(alloc.pages)
      invariant pidx < 772 || |q| > 5 || ended ==> FreeList(alloc.Model(), q[pidx - 767..])
      invariant ended ==> Ended(alloc.Model(), q[pidx - 767..])
      invariant DirTo(mem[..], d, tables, pidx - 768, 1024) && TablesTo(mem[..], tables, pidx - 768)
    {
      address := AddTable(alloc, mem, q, d, pidx - KERNEL_VBASE / 0x40_0000, address);
      pidx := pidx + 1;
    }
    cr3 := VirtToPhys(pageDirectory);
    AllTables(mem[..], d, tables);
    WholeWalk(mem[..], d, tables);
  }

  lemma WholeWalk(mem: seq<nat>, d: nat, tables: seq<int>)
    requires |tables| == 4 && (forall i :: 0 <= i < 4 ==> tables[i] >= 0) && Mapping(mem, d, tables)
    ensures forall va :: 0 <= va < TWO32 ==> Walk(mem, d * 4096, va) == (if 0xC000_0000 <= va < 0xC100_0000 then Some((va - 0xC000_0000) as nat) else None)
  {
    hide Walk, Mapping;
    forall va | 0 <= va < TWO32 ensures Walk(mem, d * 4096, va) == (if 0xC000_0000 <= va < 0xC100_0000 then Some((va - 0xC000_0000) as nat) else None) {
      WalkIsLinear(mem, d, tables, va);
    }
  }

  lemma NoTables(mem: seq<nat>, tables: seq<int>)
    ensures TablesTo(mem, tables, 0)
  {}

  lemma OneTableMore(mem: seq<nat>, after: seq<nat>, d: nat, tables: seq<int>, n: nat)
    requires n < |tables| && TablesTo(mem, tables, n) && tables[n] >= 0 && TableTo(mem, tables[n], n, 1024)
    requires OnlyPage(mem, after, d) && forall i :: 0 <= i <= n ==> tables[i] != d
    ensures TablesTo(after, tables, n + 1)
  {
    TablesKept(mem, after, d, tables, n);
    TableKept(mem, after, d, tables[n], n);
  }

  lemma AllTables(mem: seq<nat>, d: nat, tables: seq<int>)
    requires |tables| == 4 && DirTo(mem, d, tables, 4, 1024) && TablesTo(mem, tables, 4)
    ensures (forall i :: 0 <= i < 4 ==> tables[i] >= 0) && Mapping(mem, d, tables)
  {}

  /** The members of the free list are pages, no two the same. */
  predicate Members(q: seq<int>, n: nat) { NoDup(q) && forall i :: 0 <= i < |q| ==> 0 <= q[i] < n }

  lemma ListMembers(m: Frames, q: seq<int>)
    requires FreeList(m, q)
    ensures Members(q, |m.pages|)
  {
    forall i | 0 <= i < |q| ensures 0 <= q[i] < |m.pages| {
      assert Link(m, q, i);
    }
  }

  /** The `i`th table's page is none of those used before it. */
  lemma NewTable(q: seq<int>, n: nat, i: nat)
    requires Members(q, n) && |q| >= 5 && i < 4
    ensures 0 <= q[0] < n && 0 <= q[i + 1] < n && q[i + 1] != q[0]
    ensures forall k :: 0 <= k < i ==> q[1..5][k] != q[1..5][i]
    ensures forall k :: 0 <= k <= i ==> q[1..5][k] != q[0]
  {}

  lemma TakeNext(m: Frames, q: seq<int>)
    requires FreeList(m, q) && q != []
    ensures m.count > 0 && InRange(m, m.head) && m.head == q[0]
    ensures |q| > 1 || Ended(m, q) ==> FreeList(Take(m), q[1..])
    ensures Ended(m, q) ==> Ended(Take(m), q[1..])
  {
    if |q| > 1 || Ended(m, q) { TakeFifo(m, q); }
    if Ended(m, q) { StepClear(m, q, Get); }
  }
}
